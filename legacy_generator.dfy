/** The older generator of the `ru.tomindapps` package. Its per-field loop
    decides nullability by the single switch `nullableValues` and always
    unwraps with `!!` in `toDomain`; its registry and entity assembly are the
    same code as the current generator's and are shared with that model. */
module LegacyCodeGenerator {
  import opened Wrappers
  import opened Poet
  import opened Meta
  import ECG = EntityCodeGenerator

  /** The older class-level settings. */
  datatype LegacySourceMeta = LegacySourceMeta(
    kotlinSerializable: bool,
    nullableValues: bool,
    generateMappers: bool,
    isInternal: bool)

  /** The older per-property meta. */
  datatype LegacyPropertyMeta = LegacyPropertyMeta(resultName: string, isNotNull: bool, mapper: Option<MapperClass>)

  datatype LegacyField = LegacyField(property: PropertyDecl, meta: LegacyPropertyMeta)

  /** A field is emitted nullable, with a `null` default, when nullable values
      are switched on and it is not marked non-null. */
  predicate EmitsNullable(src: LegacySourceMeta, meta: LegacyPropertyMeta) {
    src.nullableValues && !meta.isNotNull
  }

  predicate TakesMapperBranch(src: LegacySourceMeta, f: LegacyField) {
    f.meta.mapper.Some? && src.generateMappers
  }

  /** The type the field's branch starts from: the mapper's entity type or the declared type. */
  function BaseType(src: LegacySourceMeta, f: LegacyField): TypeName {
    if TakesMapperBranch(src, f) then f.meta.mapper.value.entityParameterType else f.property.ktype.typeName
  }

  function EmittedType(src: LegacySourceMeta, f: LegacyField): (r: TypeName)
    ensures r.nullable == (EmitsNullable(src, f.meta) || BaseType(src, f).nullable)
    ensures Copy(r, false) == Copy(BaseType(src, f), false)
  {
    if EmitsNullable(src, f.meta) then Copy(BaseType(src, f), true) else BaseType(src, f)
  }

  /** The constructor parameter: nullable with a `null` default exactly when
      the field is emitted nullable, in either branch. */
  function FieldParameter(src: LegacySourceMeta, f: LegacyField): (p: ParameterSpec)
    ensures p.name == f.meta.resultName && p.typ == EmittedType(src, f)
    ensures p.defaultValue == Some("null") <==> EmitsNullable(src, f.meta)
    ensures p.defaultValue.None? <==> !EmitsNullable(src, f.meta)
    ensures EmitsNullable(src, f.meta) ==> p.typ.nullable
    ensures !EmitsNullable(src, f.meta) ==> p.typ == BaseType(src, f)
  {
    ParameterSpec(f.meta.resultName, EmittedType(src, f), if EmitsNullable(src, f.meta) then Some("null") else None)
  }

  function NullableCopyProperty(f: LegacyField): PropertySpec {
    PropertySpec(f.meta.resultName, Copy(f.property.ktype.typeName, true), {}, Code(f.meta.resultName, []))
  }

  function EmittedProperty(src: LegacySourceMeta, f: LegacyField): PropertySpec {
    PropertySpec(f.meta.resultName, EmittedType(src, f), {}, Code(f.meta.resultName, []))
  }

  /** The `toDomain` statement: the entity-side value is always unwrapped with `!!`. */
  function ToDomainStatement(src: LegacySourceMeta, source: ClassName, f: LegacyField): Code {
    if TakesMapperBranch(src, f) then
      Code(f.property.simpleName + " = %T." + ECG.MapperKey(f.meta.mapper.value) + ".mapEntityToDomain("
           + f.meta.resultName + "!!),", [ECG.MappersClass(source)])
    else
      Code(f.property.simpleName + " = " + f.meta.resultName + "!!,", [source])
  }

  function ToEntityStatement(src: LegacySourceMeta, source: ClassName, f: LegacyField): Code {
    if TakesMapperBranch(src, f) then
      Code(f.meta.resultName + " = %T." + ECG.MapperKey(f.meta.mapper.value) + ".mapDomainToEntity("
           + f.property.simpleName + "),", [ECG.MappersClass(source)])
    else
      Code(f.meta.resultName + " = " + f.property.simpleName + ",", [])
  }

  function FieldToDomain(src: LegacySourceMeta, source: ClassName, f: LegacyField): seq<Code> {
    if src.generateMappers then [ToDomainStatement(src, source, f)] else []
  }

  function FieldToEntity(src: LegacySourceMeta, source: ClassName, f: LegacyField): seq<Code> {
    if src.generateMappers then [ToEntityStatement(src, source, f)] else []
  }

  /** Every `toDomain` statement unwraps the field's entity-side value with
      `!!`, whatever the field's nullability. */
  lemma ToDomainAlwaysUnwraps(src: LegacySourceMeta, source: ClassName, f: LegacyField)
    ensures Contains(ToDomainStatement(src, source, f).format, f.meta.resultName + "!!")
  {
    var r := f.meta.resultName + "!!";
    if TakesMapperBranch(src, f) {
      var pre := f.property.simpleName + " = %T." + ECG.MapperKey(f.meta.mapper.value) + ".mapEntityToDomain(";
      assert ToDomainStatement(src, source, f).format == pre + r + "),";
      assert OccursAt(pre + r + "),", r, |pre|);
    } else {
      var pre := f.property.simpleName + " = ";
      assert ToDomainStatement(src, source, f).format == pre + r + ",";
      assert OccursAt(pre + r + ",", r, |pre|);
    }
  }

  // ---------------------------------------------------------------------------
  // What all fields contribute
  //
  // These follow the current generator's list functions step for step, but
  // over this generator's own fields, settings and per-field functions; they
  // are kept separate so that the comparison lemmas below can relate the two.

  function ParametersOf(src: LegacySourceMeta, fs: seq<LegacyField>): (r: seq<ParameterSpec>)
    ensures |r| == |fs|
    decreases |fs|
  {
    if fs == [] then []
    else ParametersOf(src, fs[..|fs| - 1]) + [FieldParameter(src, fs[|fs| - 1])]
  }

  function PropertiesOf(src: LegacySourceMeta, fs: seq<LegacyField>): (r: seq<PropertySpec>)
    ensures |r| == 2 * |fs|
    decreases |fs|
  {
    if fs == [] then []
    else PropertiesOf(src, fs[..|fs| - 1]) + [NullableCopyProperty(fs[|fs| - 1]), EmittedProperty(src, fs[|fs| - 1])]
  }

  function ToDomainOf(src: LegacySourceMeta, source: ClassName, fs: seq<LegacyField>): (r: seq<Code>)
    ensures |r| == if src.generateMappers then |fs| else 0
    decreases |fs|
  {
    if fs == [] then []
    else ToDomainOf(src, source, fs[..|fs| - 1]) + FieldToDomain(src, source, fs[|fs| - 1])
  }

  function ToEntityOf(src: LegacySourceMeta, source: ClassName, fs: seq<LegacyField>): (r: seq<Code>)
    ensures |r| == if src.generateMappers then |fs| else 0
    decreases |fs|
  {
    if fs == [] then []
    else ToEntityOf(src, source, fs[..|fs| - 1]) + FieldToEntity(src, source, fs[|fs| - 1])
  }

  /** With conversions generated, `toDomain` statement `i` is the one of field `i`. */
  lemma {:induction false} ToDomainOfAt(src: LegacySourceMeta, source: ClassName, fs: seq<LegacyField>, i: nat)
    requires src.generateMappers && i < |fs|
    ensures ToDomainOf(src, source, fs)[i] == ToDomainStatement(src, source, fs[i])
    decreases |fs|
  {
    if i < |fs| - 1 {
      ToDomainOfAt(src, source, fs[..|fs| - 1], i);
    }
  }

  lemma FieldsStep(src: LegacySourceMeta, source: ClassName, fs: seq<LegacyField>, i: nat)
    requires i < |fs|
    ensures ParametersOf(src, fs[..i + 1]) == ParametersOf(src, fs[..i]) + [FieldParameter(src, fs[i])]
    ensures PropertiesOf(src, fs[..i + 1]) == PropertiesOf(src, fs[..i]) + [NullableCopyProperty(fs[i]), EmittedProperty(src, fs[i])]
    ensures ToDomainOf(src, source, fs[..i + 1]) == ToDomainOf(src, source, fs[..i]) + FieldToDomain(src, source, fs[i])
    ensures ToEntityOf(src, source, fs[..i + 1]) == ToEntityOf(src, source, fs[..i]) + FieldToEntity(src, source, fs[i])
  {
    assert fs[..i + 1][..i] == fs[..i];
  }

  /** One iteration of the older per-field loop. */
  method AddField(b: EntityBuilder, src: LegacySourceMeta, source: ClassName, f: LegacyField)
    modifies b
    ensures b.parameters == old(b.parameters) + [FieldParameter(src, f)]
    ensures b.properties == old(b.properties) + [NullableCopyProperty(f), EmittedProperty(src, f)]
    ensures b.toDomainStatements == old(b.toDomainStatements) + FieldToDomain(src, source, f)
    ensures b.toEntityStatements == old(b.toEntityStatements) + FieldToEntity(src, source, f)
  {
    var resultName, propName := f.meta.resultName, f.property.simpleName;
    var typ := f.property.ktype.typeName;
    var entityMapper := f.meta.mapper;
    var mappersClass := ECG.MappersClass(source);
    b.AddProperty(PropertySpec(resultName, Copy(typ, true), {}, Code(resultName, [])));
    if entityMapper.Some? && src.generateMappers {
      var mapperType := entityMapper.value.entityParameterType;
      var mapperName := ECG.ReplaceDots(entityMapper.value.className.CanonicalName());
      var resultType := if src.nullableValues && !f.meta.isNotNull then Copy(mapperType, true) else mapperType;
      b.AddParameter(ParameterSpec(resultName, resultType,
                                   if src.nullableValues && !f.meta.isNotNull then Some("null") else None));
      b.AddProperty(PropertySpec(resultName, resultType, {}, Code(resultName, [])));
      b.AddToDomainStatement(Code(propName + " = %T." + mapperName + ".mapEntityToDomain(" + resultName + "!!),",
                                  [mappersClass]));
      b.AddToEntityStatement(Code(resultName + " = %T." + mapperName + ".mapDomainToEntity(" + propName + "),",
                                  [mappersClass]));
    } else {
      var resultType := if src.nullableValues && !f.meta.isNotNull then Copy(typ, true) else typ;
      b.AddParameter(ParameterSpec(resultName, resultType,
                                   if src.nullableValues && !f.meta.isNotNull then Some("null") else None));
      b.AddProperty(PropertySpec(resultName, resultType, {}, Code(resultName, [])));
      if src.generateMappers {
        b.AddToDomainStatement(Code(propName + " = " + resultName + "!!,", [source]));
        b.AddToEntityStatement(Code(resultName + " = " + propName + ",", []));
      }
    }
  }

  /** What the older `generateEntities` writes for a domain class. */
  function GenerateSpec(source: ClassName, src: LegacySourceMeta, fields: seq<LegacyField>,
                        mappers: seq<MapperClass>): Generated {
    Generated(
      ECG.GenerateEntity(FlagsOf(src), ECG.EntityName(source), ECG.EntityPackage(source), ClassType(source, false),
                         ECG.EntityClass(source), ParametersOf(src, fields), PropertiesOf(src, fields),
                         ToDomainOf(src, source, fields), ToEntityOf(src, source, fields)),
      if src.generateMappers
      then Some(ECG.RegistryFileOf(src.isInternal, ECG.EntityPackage(source), ECG.MappersName(source),
                                   ECG.MappersClass(source), mappers))
      else None)
  }

  function FlagsOf(src: LegacySourceMeta): ECG.StructureFlags {
    ECG.StructureFlags(src.kotlinSerializable, src.generateMappers, src.isInternal)
  }

  /** The older `generateEntities`: the per-field loop, then the registry
      when conversions are generated, then the entity. */
  method GenerateEntities(source: ClassName, src: LegacySourceMeta, fields: seq<LegacyField>, mappers: seq<MapperClass>)
    returns (g: Generated)
    ensures g == GenerateSpec(source, src, fields, mappers)
    ensures g.entityFile.packageName == source.packageName + ".entity"
    ensures g.entityFile.entityClass.className == ClassName(source.packageName + ".entity", source.simpleName + "Entity")
    ensures g.registryFile.Some? <==> src.generateMappers
    ensures g.registryFile.Some? ==>
      g.registryFile.value.registry.className == ClassName(source.packageName + ".entity", source.simpleName + "Mappers")
    ensures |g.entityFile.entityClass.constructorParameters| == |fields|
    ensures |g.entityFile.entityClass.properties| == 2 * |fields|
  {
    var packageName := source.packageName + ".entity";
    var sourceName := source.simpleName;
    var entityName, mappersName := sourceName + "Entity", sourceName + "Mappers";
    var entityClass, mappersClass := ClassName(packageName, entityName), ClassName(packageName, mappersName);

    var b := new EntityBuilder();
    for i := 0 to |fields|
      invariant b.parameters == ParametersOf(src, fields[..i])
      invariant b.properties == PropertiesOf(src, fields[..i])
      invariant b.toDomainStatements == ToDomainOf(src, source, fields[..i])
      invariant b.toEntityStatements == ToEntityOf(src, source, fields[..i])
    {
      AddField(b, src, source, fields[i]);
      FieldsStep(src, source, fields, i);
    }
    assert fields[..|fields|] == fields;

    var registry: Option<RegistryFile> := None;
    if src.generateMappers {
      var file := ECG.GenerateObjectMappers(src.isInternal, packageName, mappersName, mappersClass, mappers);
      registry := Some(file);
    }
    var entityFile := ECG.GenerateEntity(FlagsOf(src), entityName, packageName, ClassType(source, false), entityClass,
                                         b.parameters, b.properties, b.toDomainStatements, b.toEntityStatements);
    g := Generated(entityFile, registry);
  }

  // ---------------------------------------------------------------------------
  // The older generator against the current one

  /** The current settings that behave like the older ones: nullable values
      on is the FULL mode, off is the NONE mode. */
  function Upgrade(src: LegacySourceMeta): SourceMeta {
    SourceMeta(src.kotlinSerializable, if src.nullableValues then FULL else NONE, src.generateMappers, src.isInternal)
  }

  /** The current meta of an older field: the non-null mark carries over; the
      entries the current generator does not read are taken from the declaration. */
  function UpgradeField(f: LegacyField): Field {
    Field(f.property, PropertyMeta(f.meta.resultName, f.property.ktype.typeName.nullable, f.meta.isNotNull, false,
                                   f.meta.mapper, f.property.ktype, f.property.ktype))
  }

  function UpgradeFields(fs: seq<LegacyField>): (r: seq<Field>)
    ensures |r| == |fs|
    decreases |fs|
  {
    if fs == [] then [] else UpgradeFields(fs[..|fs| - 1]) + [UpgradeField(fs[|fs| - 1])]
  }

  /** `nullableValues` is the FULL or the NONE mode of the current rule. */
  lemma NullableValuesIsFullOrNone(src: LegacySourceMeta, f: LegacyField)
    ensures EmitsNullable(src, f.meta) == ECG.IsNullableProperty(Upgrade(src), UpgradeField(f).meta)
    ensures src.nullableValues ==> Upgrade(src).nullability == FULL
    ensures !src.nullableValues ==> !ECG.IsNullableProperty(Upgrade(src), UpgradeField(f).meta)
  {
  }

  /** The `!!` form and the current suffix give the same text exactly when
      the suffix is `!!`. */
  lemma SuffixDecides(pre: string, sfx: string, post: string)
    requires sfx == "" || sfx == "!!" || (|sfx| > 0 && sfx[0] == ' ')
    ensures pre + "!!" + post == pre + sfx + post <==> sfx == "!!"
  {
    if sfx != "!!" && sfx != "" {
      assert (pre + "!!" + post)[|pre|] == '!';
      assert (pre + sfx + post)[|pre|] == ' ';
    }
  }

  /** Field by field, the two generators emit the same parameter, properties
      and `toEntity` statement; the `toDomain` statements agree exactly when
      the current generator falls back to `!!`. */
  lemma FieldAgrees(src: LegacySourceMeta, source: ClassName, f: LegacyField)
    ensures FieldParameter(src, f) == ECG.FieldParameter(Upgrade(src), UpgradeField(f))
    ensures NullableCopyProperty(f) == ECG.NullableCopyProperty(UpgradeField(f))
    ensures EmittedProperty(src, f) == ECG.EmittedProperty(Upgrade(src), UpgradeField(f))
    ensures ToEntityStatement(src, source, f) == ECG.ToEntityStatement(Upgrade(src), source, UpgradeField(f))
    ensures ToDomainStatement(src, source, f) == ECG.ToDomainStatement(Upgrade(src), source, UpgradeField(f))
            <==> ECG.NullabilityOption(EmitsNullable(src, f.meta), EmittedType(src, f)) == "!!"
  {
    var n, t := UpgradeField(f), EmittedType(src, f);
    assert EmittedType(src, f) == ECG.EmittedType(Upgrade(src), n);
    var sfx := ECG.NullabilityOption(EmitsNullable(src, f.meta), t);
    if TakesMapperBranch(src, f) {
      var pre := f.property.simpleName + " = %T." + ECG.MapperKey(f.meta.mapper.value) + ".mapEntityToDomain("
                 + f.meta.resultName;
      SuffixDecides(pre, sfx, "),");
    } else {
      SuffixDecides(f.property.simpleName + " = " + f.meta.resultName, sfx, ",");
    }
  }

  lemma {:induction false} UpgradeFieldsAt(fs: seq<LegacyField>, i: nat)
    requires i < |fs|
    ensures UpgradeFields(fs)[i] == UpgradeField(fs[i])
    decreases |fs|
  {
    if i < |fs| - 1 {
      UpgradeFieldsAt(fs[..|fs| - 1], i);
    }
  }

  /** The current generator's `toDomain` suffix for this field is `!!`. */
  predicate FallsBackToUnwrap(src: LegacySourceMeta, f: LegacyField) {
    ECG.NullabilityOption(EmitsNullable(src, f.meta), EmittedType(src, f)) == "!!"
  }

  /** Over all fields, the parameters, properties and `toEntity` statements of the two generators coincide. */
  lemma {:induction false} SequencesAgree(src: LegacySourceMeta, source: ClassName, fs: seq<LegacyField>)
    ensures ParametersOf(src, fs) == ECG.ParametersOf(Upgrade(src), UpgradeFields(fs))
    ensures PropertiesOf(src, fs) == ECG.PropertiesOf(Upgrade(src), UpgradeFields(fs))
    ensures ToEntityOf(src, source, fs) == ECG.ToEntityOf(Upgrade(src), source, UpgradeFields(fs))
    decreases |fs|
  {
    if fs != [] {
      var init, last := fs[..|fs| - 1], fs[|fs| - 1];
      SequencesAgree(src, source, init);
      FieldAgrees(src, source, last);
      var us := UpgradeFields(fs);
      assert us[..|fs| - 1] == UpgradeFields(init) && us[|fs| - 1] == UpgradeField(last);
    }
  }

  /** When every field falls back to `!!`, the `toDomain` statements coincide too. */
  lemma {:induction false} ToDomainAgrees(src: LegacySourceMeta, source: ClassName, fs: seq<LegacyField>)
    requires src.generateMappers ==> forall i :: 0 <= i < |fs| ==> FallsBackToUnwrap(src, fs[i])
    ensures ToDomainOf(src, source, fs) == ECG.ToDomainOf(Upgrade(src), source, UpgradeFields(fs))
    decreases |fs|
  {
    if fs != [] {
      var init, last := fs[..|fs| - 1], fs[|fs| - 1];
      assert forall i :: 0 <= i < |init| ==> init[i] == fs[i];
      ToDomainAgrees(src, source, init);
      FieldAgrees(src, source, last);
      var us := UpgradeFields(fs);
      assert us[..|fs| - 1] == UpgradeFields(init) && us[|fs| - 1] == UpgradeField(last);
    }
  }

  /** The `toDomain` statements coincide exactly when, with conversions
      generated, every field falls back to `!!` in the current generator. */
  lemma ToDomainAgreesIff(src: LegacySourceMeta, source: ClassName, fs: seq<LegacyField>)
    ensures ToDomainOf(src, source, fs) == ECG.ToDomainOf(Upgrade(src), source, UpgradeFields(fs))
            <==> (src.generateMappers ==> forall i :: 0 <= i < |fs| ==> FallsBackToUnwrap(src, fs[i]))
  {
    if src.generateMappers && exists i :: 0 <= i < |fs| && !FallsBackToUnwrap(src, fs[i]) {
      var i :| 0 <= i < |fs| && !FallsBackToUnwrap(src, fs[i]);
      ToDomainOfAt(src, source, fs, i);
      ECG.ToDomainOfAt(Upgrade(src), source, UpgradeFields(fs), i);
      UpgradeFieldsAt(fs, i);
      FieldAgrees(src, source, fs[i]);
    } else {
      ToDomainAgrees(src, source, fs);
    }
  }

  /** What the two generators write for the same class: the same registry,
      parameters, properties and `toEntity`; the whole output is the same
      exactly when the `toDomain` statements are. */
  lemma LegacyMatchesCurrent(source: ClassName, src: LegacySourceMeta, fs: seq<LegacyField>, ms: seq<MapperClass>)
    ensures var g, h := GenerateSpec(source, src, fs, ms), ECG.GenerateSpec(source, Upgrade(src), UpgradeFields(fs), ms);
      && g.registryFile == h.registryFile
      && g.entityFile.entityClass.constructorParameters == h.entityFile.entityClass.constructorParameters
      && g.entityFile.entityClass.properties == h.entityFile.entityClass.properties
      && g.entityFile.functions == h.entityFile.functions
      && (g == h <==> (src.generateMappers ==> forall i :: 0 <= i < |fs| ==> FallsBackToUnwrap(src, fs[i])))
  {
    SequencesAgree(src, source, fs);
    ToDomainAgreesIff(src, source, fs);
    assert FlagsOf(src) == ECG.FlagsOf(Upgrade(src));
  }
}
