/** The current generator: from a domain class, its class-level settings and
    its fields' meta it derives the `XEntity` data class with its primary
    constructor, properties, `toDomain` and `toEntity`, and the `XMappers`
    registry object. */
module EntityCodeGenerator {
  import opened Wrappers
  import opened Poet
  import opened Meta
  import EntityExt

  const SERIALIZABLE := ClassName("kotlinx.serialization", "Serializable")

  /** The canonical name of KotlinPoet's own `ClassName` class. */
  const POET_CLASS_NAME := "com.squareup.kotlinpoet.ClassName"

  /** The numeric and boolean types, whose entries in the generator's own
      default table never match them. */
  const NUMERIC_AND_BOOLEAN: set<string> := {
    EntityExt.U_BYTE, EntityExt.U_SHORT, EntityExt.U_INT, EntityExt.BYTE, EntityExt.SHORT, EntityExt.INT,
    EntityExt.U_LONG, EntityExt.LONG, EntityExt.FLOAT, EntityExt.DOUBLE, EntityExt.BOOLEAN}

  // ---------------------------------------------------------------------------
  // Naming

  function EntityPackage(source: ClassName): string { source.packageName + ".entity" }

  function EntityName(source: ClassName): string { source.simpleName + "Entity" }

  function MappersName(source: ClassName): string { source.simpleName + "Mappers" }

  function EntityClass(source: ClassName): ClassName { ClassName(EntityPackage(source), EntityName(source)) }

  function MappersClass(source: ClassName): ClassName { ClassName(EntityPackage(source), MappersName(source)) }

  /** `String.replaceDots()`: the string with every '.' removed. */
  function ReplaceDots(s: string): string {
    if s == [] then []
    else (if s[0] == '.' then [] else [s[0]]) + ReplaceDots(s[1..])
  }

  /** The result has no dots and is no longer than the input. */
  lemma {:induction false} ReplaceDotsRemovesDots(s: string)
    ensures '.' !in ReplaceDots(s)
    ensures |ReplaceDots(s)| <= |s|
  {
    if s != [] {
      ReplaceDotsRemovesDots(s[1..]);
    }
  }

  /** Every character other than '.' keeps its number of occurrences. */
  lemma {:induction false} ReplaceDotsKeepsOthers(s: string, c: char)
    requires c != '.'
    ensures multiset(ReplaceDots(s))[c] == multiset(s)[c]
  {
    if s != [] {
      assert s == [s[0]] + s[1..];
      ReplaceDotsKeepsOthers(s[1..], c);
    }
  }

  /** Removing dots keeps the order of everything else. */
  lemma {:induction false} ReplaceDotsAppend(a: string, b: string)
    ensures ReplaceDots(a + b) == ReplaceDots(a) + ReplaceDots(b)
  {
    if a == [] {
      assert a + b == b;
    } else {
      assert (a + b)[0] == a[0];
      assert (a + b)[1..] == a[1..] + b;
      ReplaceDotsAppend(a[1..], b);
    }
  }

  /** A string without dots is left as it is; in particular the function is idempotent. */
  lemma {:induction false} ReplaceDotsKeepsDotless(s: string)
    requires '.' !in s
    ensures ReplaceDots(s) == s
  {
    if s != [] {
      ReplaceDotsKeepsDotless(s[1..]);
    }
  }

  /** The key under which a mapper is registered and referenced. */
  function MapperKey(m: MapperClass): string { ReplaceDots(m.className.CanonicalName()) }

  // ---------------------------------------------------------------------------
  // Nullability

  /** The emitted-nullability table of the nullability option: NONE never,
      FULL unless forced non-null, TRANSIENT when declared nullable and not
      forced non-null. */
  predicate NullabilityTable(mode: Nullability, declaredNullable: bool, forcedNonNull: bool) {
    match mode
    case NONE => false
    case FULL => !forcedNonNull
    case TRANSIENT => declaredNullable && !forcedNonNull
  }

  /** `isNullableProperty`: whether a field is emitted nullable with a `null` default. */
  function IsNullableProperty(src: SourceMeta, meta: PropertyMeta): (r: bool)
    ensures r == NullabilityTable(src.nullability, meta.isNullable, meta.isNotNullAnnotated)
  {
    (src.nullability == FULL && !meta.isNotNullAnnotated)
    || (src.nullability == TRANSIENT && meta.isNullable && !meta.isNotNullAnnotated)
  }

  /** `Boolean.getNullabilityOption`: the option when the flag is set, else nothing. */
  function GetNullabilityOption(flag: bool, option: string): string {
    if flag then option else ""
  }

  /** The generator's own copy of `relaxedDefaultString`, on a class type's
      canonical name. Its numeric and boolean entries are written
      `X::class.asTypeName()`, and every `X` there is a KotlinPoet `ClassName`
      value, so all of them stand for the type `ClassName` itself; the first
      of them ("0") is the one that answers. */
  function GeneratorScalarLiteral(canonical: string): Option<string> {
    if canonical == EntityExt.CHAR then Some(EntityExt.CHAR_DEFAULT)
    else if canonical == EntityExt.CHAR_SEQUENCE || canonical == EntityExt.CHAR_ARRAY
         || canonical == EntityExt.STRING then Some(EntityExt.TEXT_DEFAULT)
    else if canonical == POET_CLASS_NAME then Some("0")
    else None
  }

  /** The private `TypeName.relaxedDefaultString()` the generator calls. Its
      collection table is the same as the shared one. */
  function GeneratorDefaultString(t: TypeName): Option<string> {
    match Copy(t, false)
    case ClassType(c, _) => GeneratorScalarLiteral(c.CanonicalName())
    case ParameterizedType(raw, _, _) => EntityExt.CollectionLiteral(raw.CanonicalName())
    case OtherType(_, _) => None
  }

  /** How the generator's table differs from the shared one: it has no
      literal for the numeric and boolean types, it answers "0" for the type
      `ClassName`, and it agrees everywhere else. */
  lemma GeneratorTableDiffers(t: TypeName)
    ensures t.ClassType? && t.className.CanonicalName() in NUMERIC_AND_BOOLEAN ==>
      GeneratorDefaultString(t).None? && EntityExt.RelaxedDefaultString(t).Some?
    ensures t.ClassType? && t.className.CanonicalName() == POET_CLASS_NAME ==>
      GeneratorDefaultString(t) == Some("0") && EntityExt.RelaxedDefaultString(t).None?
    ensures !(t.ClassType? && (t.className.CanonicalName() in NUMERIC_AND_BOOLEAN
                               || t.className.CanonicalName() == POET_CLASS_NAME)) ==>
      GeneratorDefaultString(t) == EntityExt.RelaxedDefaultString(t)
  {
  }

  /** The null-handling suffix of a `toDomain` value: nothing for a field not
      emitted nullable, otherwise an elvis with the table's literal, or a
      non-null assertion when the table has none. */
  function NullabilityOption(nullable: bool, resultType: TypeName): (r: string)
    ensures r == "" <==> !nullable
    ensures nullable && GeneratorDefaultString(resultType).None? ==> r == "!!"
    ensures nullable && GeneratorDefaultString(resultType).Some? ==> r == " ?: " + GeneratorDefaultString(resultType).value
  {
    GetNullabilityOption(nullable,
      match GeneratorDefaultString(resultType)
      case Some(l) => " ?: " + l
      case None => "!!")
  }

  // ---------------------------------------------------------------------------
  // What one field contributes

  /** The mapper branch is taken only for a field with a mapper when conversions are generated. */
  predicate TakesMapperBranch(src: SourceMeta, f: Field) {
    f.meta.mapper.Some? && src.generateMappers
  }

  /** The entity-side type of a field: the mapper's entity type in the mapper
      branch, the declared type otherwise; made nullable for a nullable property
      and left as it is otherwise. */
  function EmittedType(src: SourceMeta, f: Field): (r: TypeName)
    ensures r.nullable == (IsNullableProperty(src, f.meta)
      || (TakesMapperBranch(src, f) && f.meta.mapper.value.entityParameterType.nullable)
      || (!TakesMapperBranch(src, f) && f.property.ktype.typeName.nullable))
    ensures Copy(r, false) == Copy(if TakesMapperBranch(src, f) then f.meta.mapper.value.entityParameterType
                                   else f.property.ktype.typeName, false)
  {
    var base := if TakesMapperBranch(src, f) then f.meta.mapper.value.entityParameterType
                else f.property.ktype.typeName;
    if IsNullableProperty(src, f.meta) then Copy(base, true) else base
  }

  /** The constructor parameter of a field. */
  function FieldParameter(src: SourceMeta, f: Field): (p: ParameterSpec)
    ensures p.name == f.meta.resultName && p.typ == EmittedType(src, f)
    ensures p.defaultValue == Some("null") <==> IsNullableProperty(src, f.meta)
    ensures p.defaultValue.None? <==> !IsNullableProperty(src, f.meta)
    ensures IsNullableProperty(src, f.meta) ==> p.typ.nullable
  {
    ParameterSpec(f.meta.resultName, EmittedType(src, f),
      if IsNullableProperty(src, f.meta) then Some("null") else None)
  }

  /** The first property of a field: its declared type made nullable. */
  function NullableCopyProperty(f: Field): PropertySpec {
    PropertySpec(f.meta.resultName, Copy(f.property.ktype.typeName, true), {}, Code(f.meta.resultName, []))
  }

  /** The second property of a field: its emitted type. */
  function EmittedProperty(src: SourceMeta, f: Field): PropertySpec {
    PropertySpec(f.meta.resultName, EmittedType(src, f), {}, Code(f.meta.resultName, []))
  }

  /** The `toDomain` statement of a field. The mapper form decodes through
      the registry; the direct form copies the value; both apply the
      null-handling suffix to the entity-side value. */
  function ToDomainStatement(src: SourceMeta, source: ClassName, f: Field): Code {
    var suffix := NullabilityOption(IsNullableProperty(src, f.meta), EmittedType(src, f));
    if TakesMapperBranch(src, f) then
      Code(f.property.simpleName + " = %T." + MapperKey(f.meta.mapper.value) + ".mapEntityToDomain("
           + f.meta.resultName + suffix + "),", [MappersClass(source)])
    else
      Code(f.property.simpleName + " = " + f.meta.resultName + suffix + ",", [source])
  }

  /** The `toEntity` statement of a field. */
  function ToEntityStatement(src: SourceMeta, source: ClassName, f: Field): Code {
    if TakesMapperBranch(src, f) then
      Code(f.meta.resultName + " = %T." + MapperKey(f.meta.mapper.value) + ".mapDomainToEntity("
           + f.property.simpleName + "),", [MappersClass(source)])
    else
      Code(f.meta.resultName + " = " + f.property.simpleName + ",", [])
  }

  /** The `toDomain` statements a field adds: one when conversions are generated. */
  function FieldToDomain(src: SourceMeta, source: ClassName, f: Field): seq<Code> {
    if src.generateMappers then [ToDomainStatement(src, source, f)] else []
  }

  /** The `toEntity` statements a field adds: one when conversions are generated. */
  function FieldToEntity(src: SourceMeta, source: ClassName, f: Field): seq<Code> {
    if src.generateMappers then [ToEntityStatement(src, source, f)] else []
  }

  /** The texts of the two statements of a field, in the two branches. */
  lemma StatementForms(src: SourceMeta, source: ClassName, f: Field)
    requires src.generateMappers
    ensures var suffix := NullabilityOption(IsNullableProperty(src, f.meta), EmittedType(src, f));
      && (f.meta.mapper.Some? ==>
            var key := ReplaceDots(f.meta.mapper.value.className.CanonicalName());
            && ToDomainStatement(src, source, f).format
               == f.property.simpleName + " = %T." + key + ".mapEntityToDomain(" + f.meta.resultName + suffix + "),"
            && ToEntityStatement(src, source, f).format
               == f.meta.resultName + " = %T." + key + ".mapDomainToEntity(" + f.property.simpleName + "),"
            && ToDomainStatement(src, source, f).args == [MappersClass(source)]
            && ToEntityStatement(src, source, f).args == [MappersClass(source)])
      && (f.meta.mapper.None? ==>
            && ToDomainStatement(src, source, f).format == f.property.simpleName + " = " + f.meta.resultName + suffix + ","
            && ToEntityStatement(src, source, f).format == f.meta.resultName + " = " + f.property.simpleName + ",")
  {
  }

  /** One step of the per-field loop (`addMapperStatements`, after the caller
      added the nullable copy of the declared type). */
  method AddMapperStatements(b: EntityBuilder, src: SourceMeta, source: ClassName, f: Field)
    modifies b
    ensures b.parameters == old(b.parameters) + [FieldParameter(src, f)]
    ensures b.properties == old(b.properties) + [EmittedProperty(src, f)]
    ensures b.toDomainStatements == old(b.toDomainStatements) + FieldToDomain(src, source, f)
    ensures b.toEntityStatements == old(b.toEntityStatements) + FieldToEntity(src, source, f)
  {
    var isNullableProperty := IsNullableProperty(src, f.meta);
    var resultName, propName := f.meta.resultName, f.property.simpleName;
    if f.meta.mapper.Some? && src.generateMappers {
      var mapperType := f.meta.mapper.value.entityParameterType;
      var mapperName := ReplaceDots(f.meta.mapper.value.className.CanonicalName());
      var resultType := if isNullableProperty then Copy(mapperType, true) else mapperType;
      var nullabilityOption := NullabilityOption(isNullableProperty, resultType);
      b.AddParameter(ParameterSpec(resultName, resultType, if isNullableProperty then Some("null") else None));
      b.AddToDomainStatement(Code(propName + " = %T." + mapperName + ".mapEntityToDomain("
                                  + resultName + nullabilityOption + "),", [MappersClass(source)]));
      b.AddProperty(PropertySpec(resultName, resultType, {}, Code(resultName, [])));
      b.AddToEntityStatement(Code(resultName + " = %T." + mapperName + ".mapDomainToEntity(" + propName + "),",
                                  [MappersClass(source)]));
    } else {
      var typ := f.property.ktype.typeName;
      var resultType := if isNullableProperty then Copy(typ, true) else typ;
      var nullabilityOption := NullabilityOption(isNullableProperty, resultType);
      b.AddParameter(ParameterSpec(resultName, resultType, if isNullableProperty then Some("null") else None));
      b.AddProperty(PropertySpec(resultName, resultType, {}, Code(resultName, [])));
      if src.generateMappers {
        b.AddToDomainStatement(Code(propName + " = " + resultName + nullabilityOption + ",", [source]));
        b.AddToEntityStatement(Code(resultName + " = " + propName + ",", []));
      }
    }
  }

  // ---------------------------------------------------------------------------
  // What all fields contribute

  /** The constructor parameters: one per field, in field order. */
  function ParametersOf(src: SourceMeta, fs: seq<Field>): (r: seq<ParameterSpec>)
    ensures |r| == |fs|
    decreases |fs|
  {
    if fs == [] then []
    else ParametersOf(src, fs[..|fs| - 1]) + [FieldParameter(src, fs[|fs| - 1])]
  }

  /** The entity properties: two per field, the nullable copy first. */
  function PropertiesOf(src: SourceMeta, fs: seq<Field>): (r: seq<PropertySpec>)
    ensures |r| == 2 * |fs|
    decreases |fs|
  {
    if fs == [] then []
    else PropertiesOf(src, fs[..|fs| - 1]) + [NullableCopyProperty(fs[|fs| - 1]), EmittedProperty(src, fs[|fs| - 1])]
  }

  /** The `toDomain` statements: one per field, in field order, when
      conversions are generated, and none otherwise. */
  function ToDomainOf(src: SourceMeta, source: ClassName, fs: seq<Field>): (r: seq<Code>)
    ensures |r| == if src.generateMappers then |fs| else 0
    decreases |fs|
  {
    if fs == [] then []
    else ToDomainOf(src, source, fs[..|fs| - 1]) + FieldToDomain(src, source, fs[|fs| - 1])
  }

  /** The `toEntity` statements, likewise. */
  function ToEntityOf(src: SourceMeta, source: ClassName, fs: seq<Field>): (r: seq<Code>)
    ensures |r| == if src.generateMappers then |fs| else 0
    decreases |fs|
  {
    if fs == [] then []
    else ToEntityOf(src, source, fs[..|fs| - 1]) + FieldToEntity(src, source, fs[|fs| - 1])
  }

  /** The parameter at position `i` is the one of field `i`. */
  lemma {:induction false} ParametersOfAt(src: SourceMeta, fs: seq<Field>, i: nat)
    requires i < |fs|
    ensures ParametersOf(src, fs)[i] == FieldParameter(src, fs[i])
    decreases |fs|
  {
    if i < |fs| - 1 {
      ParametersOfAt(src, fs[..|fs| - 1], i);
    }
  }

  /** Properties `2i` and `2i + 1` are the nullable copy and the emitted
      property of field `i`. */
  lemma {:induction false} PropertiesOfAt(src: SourceMeta, fs: seq<Field>, i: nat)
    requires i < |fs|
    ensures PropertiesOf(src, fs)[2 * i] == NullableCopyProperty(fs[i])
    ensures PropertiesOf(src, fs)[2 * i + 1] == EmittedProperty(src, fs[i])
    decreases |fs|
  {
    if i < |fs| - 1 {
      PropertiesOfAt(src, fs[..|fs| - 1], i);
    }
  }

  /** With conversions generated, `toDomain` statement `i` is the one of field `i`. */
  lemma {:induction false} ToDomainOfAt(src: SourceMeta, source: ClassName, fs: seq<Field>, i: nat)
    requires src.generateMappers && i < |fs|
    ensures ToDomainOf(src, source, fs)[i] == ToDomainStatement(src, source, fs[i])
    decreases |fs|
  {
    if i < |fs| - 1 {
      ToDomainOfAt(src, source, fs[..|fs| - 1], i);
    }
  }

  /** With conversions generated, `toEntity` statement `i` is the one of field `i`. */
  lemma {:induction false} ToEntityOfAt(src: SourceMeta, source: ClassName, fs: seq<Field>, i: nat)
    requires src.generateMappers && i < |fs|
    ensures ToEntityOf(src, source, fs)[i] == ToEntityStatement(src, source, fs[i])
    decreases |fs|
  {
    if i < |fs| - 1 {
      ToEntityOfAt(src, source, fs[..|fs| - 1], i);
    }
  }

  // ---------------------------------------------------------------------------
  // The registry

  /** One `put` into the registry's hash map. */
  datatype Registration = Registration(key: string, className: ClassName)

  /** The registrations `generateObjectMappers` performs, in list order. */
  function Registrations(ms: seq<MapperClass>): (r: seq<Registration>)
    ensures |r| == |ms|
    decreases |ms|
  {
    if ms == [] then []
    else Registrations(ms[..|ms| - 1]) + [Registration(MapperKey(ms[|ms| - 1]), ms[|ms| - 1].className)]
  }

  lemma {:induction false} RegistrationsAt(ms: seq<MapperClass>, i: nat)
    requires i < |ms|
    ensures Registrations(ms)[i] == Registration(MapperKey(ms[i]), ms[i].className)
    decreases |ms|
  {
    if i < |ms| - 1 {
      RegistrationsAt(ms[..|ms| - 1], i);
    }
  }

  /** A hash map after the given `put`s, in order. */
  function MapOf(es: seq<Registration>): map<string, ClassName>
    decreases |es|
  {
    if es == [] then map[]
    else MapOf(es[..|es| - 1])[es[|es| - 1].key := es[|es| - 1].className]
  }

  /** The hash map after `generateObjectMappers` has put every mapper under its key. */
  function RegistryOf(ms: seq<MapperClass>): map<string, ClassName> {
    MapOf(Registrations(ms))
  }

  /** The position of the last registration under `k`, or -1 when there is none. */
  function LastIndexWithKey(es: seq<Registration>, k: string): (r: int)
    ensures -1 <= r < |es|
    decreases |es|
  {
    if es == [] then -1
    else if es[|es| - 1].key == k then |es| - 1
    else LastIndexWithKey(es[..|es| - 1], k)
  }

  /** `LastIndexWithKey` finds a registration under `k`, and no later one has that key. */
  lemma {:induction false} LastIndexWithKeyIsLast(es: seq<Registration>, k: string)
    ensures var r := LastIndexWithKey(es, k);
      && (r >= 0 ==> es[r].key == k)
      && forall j :: r < j < |es| ==> es[j].key != k
    decreases |es|
  {
    if es != [] && es[|es| - 1].key != k {
      var init := es[..|es| - 1];
      LastIndexWithKeyIsLast(init, k);
      var r := LastIndexWithKey(init, k);
      forall j | r < j < |es| ensures es[j].key != k {
        if j < |es| - 1 { assert es[j] == init[j]; }
      }
    }
  }

  /** A map has an entry for `k` exactly when some `put` used `k`, and the
      entry holds the value of the last such `put`. */
  lemma {:induction false} MapOfHoldsLast(es: seq<Registration>, k: string)
    ensures k in MapOf(es) <==> LastIndexWithKey(es, k) >= 0
    ensures k in MapOf(es) ==> MapOf(es)[k] == es[LastIndexWithKey(es, k)].className
    decreases |es|
  {
    if es != [] && es[|es| - 1].key != k {
      MapOfHoldsLast(es[..|es| - 1], k);
    }
  }

  /** The registry's keys are exactly the mappers' keys. */
  lemma RegistryKeys(ms: seq<MapperClass>, k: string)
    ensures k in RegistryOf(ms) <==> exists i :: 0 <= i < |ms| && MapperKey(ms[i]) == k
  {
    var es := Registrations(ms);
    MapOfHoldsLast(es, k);
    LastIndexWithKeyIsLast(es, k);
    if k in RegistryOf(ms) {
      var i := LastIndexWithKey(es, k);
      RegistrationsAt(ms, i);
    }
    forall i | 0 <= i < |ms| && MapperKey(ms[i]) == k ensures k in RegistryOf(ms) {
      RegistrationsAt(ms, i);
    }
  }

  /** A mapper that no later mapper shares its key with is the one
      registered under that key, whatever came before it. */
  lemma RegistryLastWins(ms: seq<MapperClass>, j: nat)
    requires j < |ms|
    requires forall l :: j < l < |ms| ==> MapperKey(ms[l]) != MapperKey(ms[j])
    ensures MapperKey(ms[j]) in RegistryOf(ms) && RegistryOf(ms)[MapperKey(ms[j])] == ms[j].className
  {
    var es, k := Registrations(ms), MapperKey(ms[j]);
    RegistrationsAt(ms, j);
    LastIndexWithKeyIsLast(es, k);
    MapOfHoldsLast(es, k);
    var r := LastIndexWithKey(es, k);
    if r != j {
      RegistrationsAt(ms, r);
    }
  }

  /** The registry object's properties: one singleton per key. */
  function RegistryProperties(isInternal: bool, m: map<string, ClassName>): (r: set<PropertySpec>)
    ensures forall p :: p in r ==> p.name in m && p.typ == ClassType(m[p.name], false)
                                   && (INTERNAL in p.modifiers <==> isInternal)
    ensures forall k :: k in m ==> exists p :: p in r && p.name == k
    ensures forall p, q :: p in r && q in r && p.name == q.name ==> p == q
  {
    var r := set k | k in m :: PropertySpec(k, ClassType(m[k], false), if isInternal then {INTERNAL} else {},
                                             Code("%T()", [m[k]]));
    assert forall k :: k in m ==> PropertySpec(k, ClassType(m[k], false), if isInternal then {INTERNAL} else {},
                                               Code("%T()", [m[k]])) in r;
    r
  }

  function RegistryFileOf(isInternal: bool, packageName: string, mappersName: string, mappersClass: ClassName,
                          ms: seq<MapperClass>): RegistryFile {
    RegistryFile(packageName, mappersName,
      ObjectSpec(mappersClass, if isInternal then {INTERNAL} else {}, RegistryProperties(isInternal, RegistryOf(ms))))
  }

  /** `generateObjectMappers`: fill the hash map from the mapper list, then build the object. */
  method GenerateObjectMappers(isInternal: bool, packageName: string, mappersName: string, mappersClass: ClassName,
                               mappersList: seq<MapperClass>) returns (file: RegistryFile)
    ensures file == RegistryFileOf(isInternal, packageName, mappersName, mappersClass, mappersList)
  {
    var resultMap: map<string, ClassName> := map[];
    for i := 0 to |mappersList|
      invariant resultMap == RegistryOf(mappersList[..i])
    {
      var className := mappersList[i].className;
      ghost var es := Registrations(mappersList[..i]);
      ghost var e := Registration(ReplaceDots(className.CanonicalName()), className);
      assert mappersList[..i + 1][..i] == mappersList[..i];
      assert Registrations(mappersList[..i + 1]) == es + [e];
      assert (es + [e])[..|es|] == es;
      resultMap := resultMap[ReplaceDots(className.CanonicalName()) := className];
    }
    assert mappersList[..|mappersList|] == mappersList;
    var modifiers := if isInternal then {INTERNAL} else {};
    file := RegistryFile(packageName, mappersName,
      ObjectSpec(mappersClass, modifiers, RegistryProperties(isInternal, resultMap)));
  }

  /** The keys of the two class names `a.bC` and `ab.C`. */
  lemma DottedKeys()
    ensures ReplaceDots("a.bC") == "abC" && ReplaceDots("ab.C") == "abC"
  {
  }

  /** Two mappers register in their order. */
  lemma RegistryOfTwo(a: MapperClass, b: MapperClass)
    ensures RegistryOf([a, b]) == map[MapperKey(a) := a.className][MapperKey(b) := b.className]
  {
    assert [a, b][..1] == [a] && [a][..0] == [];
    var ea, eb := Registration(MapperKey(a), a.className), Registration(MapperKey(b), b.className);
    assert Registrations([a, b]) == [ea, eb];
    assert [ea, eb][..1] == [ea] && [ea][..0] == [];
    assert MapOf([ea]) == map[][ea.key := ea.className];
    assert MapOf([ea, eb]) == MapOf([ea])[eb.key := eb.className];
  }

  /** Distinct mappers whose canonical names differ only in dots collide:
      the registry keeps only the later one. */
  lemma RegistryCollision()
    ensures var a := MapperClass(ClassName("a", "bC"), [], ClassType(ClassName("kotlin", "Int"), false));
            var b := MapperClass(ClassName("ab", "C"), [], ClassType(ClassName("kotlin", "Int"), false));
            a != b && RegistryOf([a, b]) == map["abC" := b.className]
  {
    var a := MapperClass(ClassName("a", "bC"), [], ClassType(ClassName("kotlin", "Int"), false));
    var b := MapperClass(ClassName("ab", "C"), [], ClassType(ClassName("kotlin", "Int"), false));
    DottedKeys();
    assert a.className.CanonicalName() == "a.bC" && b.className.CanonicalName() == "ab.C";
    assert MapperKey(a) == "abC" && MapperKey(b) == "abC";
    RegistryOfTwo(a, b);
  }

  // ---------------------------------------------------------------------------
  // The entity file

  /** The class-level settings that shape the generated files. */
  datatype StructureFlags = StructureFlags(kotlinSerializable: bool, generateMappers: bool, isInternal: bool)

  function FlagsOf(src: SourceMeta): StructureFlags {
    StructureFlags(src.kotlinSerializable, src.generateMappers, src.isInternal)
  }

  /** `generateEntity`: assemble the entity class and its file. */
  function GenerateEntity(flags: StructureFlags, entityName: string, packageName: string, sourceClass: TypeName,
                          entityClass: ClassName, parameters: seq<ParameterSpec>, properties: seq<PropertySpec>,
                          toDomain: seq<Code>, toEntity: seq<Code>): (f: EntityFile)
    ensures f.packageName == packageName && f.fileName == entityName
    ensures f.entityClass.className == entityClass
    ensures f.entityClass.constructorParameters == parameters && f.entityClass.properties == properties
    ensures DATA in f.entityClass.modifiers
    ensures INTERNAL in f.entityClass.modifiers <==> flags.isInternal
    ensures SERIALIZABLE in f.entityClass.annotations <==> flags.kotlinSerializable
    ensures |f.entityClass.functions| == |f.functions| == if flags.generateMappers then 1 else 0
    ensures flags.generateMappers ==>
      var toDomainFun := f.entityClass.functions[0];
      && toDomainFun.name == "toDomain" && toDomainFun.statements == toDomain
      && toDomainFun.receiver == None && toDomainFun.returnType == sourceClass
      && INTERNAL !in toDomainFun.modifiers
    ensures flags.generateMappers ==>
      var toEntityFun := f.functions[0];
      && toEntityFun.name == "toEntity" && toEntityFun.statements == toEntity
      && toEntityFun.receiver == Some(sourceClass) && toEntityFun.returnType == ClassType(entityClass, false)
      && (INTERNAL in toEntityFun.modifiers <==> flags.isInternal)
  {
    var internal: set<Modifier> := if flags.isInternal then {INTERNAL} else {};
    var toEntityMapper := FunSpec("toEntity", internal, Some(sourceClass), ClassType(entityClass, false),
                                  Code("return %T(\n", [entityClass]), toEntity, Code(")", []));
    var toDomainMapper := FunSpec("toDomain", {}, None, sourceClass,
                                  Code("return %T(\n", SourceArguments(sourceClass)), toDomain, Code(")", []));
    var entity := ClassSpec(entityClass, {DATA} + internal,
                            if flags.kotlinSerializable then [SERIALIZABLE] else [],
                            parameters,
                            if flags.generateMappers then [toDomainMapper] else [],
                            properties);
    EntityFile(packageName, entityName, entity, if flags.generateMappers then [toEntityMapper] else [])
  }

  /** The class bound to `%T` in `toDomain`'s opening line. */
  function SourceArguments(sourceClass: TypeName): seq<ClassName> {
    if sourceClass.ClassType? then [sourceClass.className] else []
  }

  // ---------------------------------------------------------------------------
  // The whole run

  lemma FieldsStep(src: SourceMeta, source: ClassName, fs: seq<Field>, i: nat)
    requires i < |fs|
    ensures ParametersOf(src, fs[..i + 1]) == ParametersOf(src, fs[..i]) + [FieldParameter(src, fs[i])]
    ensures PropertiesOf(src, fs[..i + 1]) == PropertiesOf(src, fs[..i]) + [NullableCopyProperty(fs[i]), EmittedProperty(src, fs[i])]
    ensures ToDomainOf(src, source, fs[..i + 1]) == ToDomainOf(src, source, fs[..i]) + FieldToDomain(src, source, fs[i])
    ensures ToEntityOf(src, source, fs[..i + 1]) == ToEntityOf(src, source, fs[..i]) + FieldToEntity(src, source, fs[i])
  {
    assert fs[..i + 1][..i] == fs[..i];
  }

  /** One iteration of the per-field loop of `generateEntities`: the
      nullable copy of the declared type, then `addMapperStatements`. */
  method AddField(b: EntityBuilder, src: SourceMeta, source: ClassName, f: Field)
    modifies b
    ensures b.parameters == old(b.parameters) + [FieldParameter(src, f)]
    ensures b.properties == old(b.properties) + [NullableCopyProperty(f), EmittedProperty(src, f)]
    ensures b.toDomainStatements == old(b.toDomainStatements) + FieldToDomain(src, source, f)
    ensures b.toEntityStatements == old(b.toEntityStatements) + FieldToEntity(src, source, f)
  {
    b.AddProperty(PropertySpec(f.meta.resultName, Copy(f.property.ktype.typeName, true), {}, Code(f.meta.resultName, [])));
    AddMapperStatements(b, src, source, f);
  }

  /** What `generateEntities` writes for a domain class. */
  function GenerateSpec(source: ClassName, src: SourceMeta, fields: seq<Field>, mappers: seq<MapperClass>): Generated {
    Generated(
      GenerateEntity(FlagsOf(src), EntityName(source), EntityPackage(source), ClassType(source, false),
                     EntityClass(source), ParametersOf(src, fields), PropertiesOf(src, fields),
                     ToDomainOf(src, source, fields), ToEntityOf(src, source, fields)),
      if src.generateMappers
      then Some(RegistryFileOf(src.isInternal, EntityPackage(source), MappersName(source), MappersClass(source), mappers))
      else None)
  }

  /** `generateEntities`: run the per-field loop over the builders, write the
      registry when conversions are generated, then the entity. */
  method GenerateEntities(source: ClassName, src: SourceMeta, fields: seq<Field>, mappers: seq<MapperClass>)
    returns (g: Generated)
    ensures g == GenerateSpec(source, src, fields, mappers)
    ensures g.entityFile.packageName == source.packageName + ".entity"
    ensures g.entityFile.entityClass.className == ClassName(source.packageName + ".entity", source.simpleName + "Entity")
    ensures g.registryFile.Some? <==> src.generateMappers
    ensures g.registryFile.Some? ==>
      g.registryFile.value.registry.className == ClassName(source.packageName + ".entity", source.simpleName + "Mappers")
    ensures var params := g.entityFile.entityClass.constructorParameters;
      |params| == |fields| && forall i :: 0 <= i < |fields| ==> params[i] == FieldParameter(src, fields[i])
    ensures |g.entityFile.entityClass.properties| == 2 * |fields|
    ensures src.generateMappers ==> g.entityFile.entityClass.functions[0].statements == ToDomainOf(src, source, fields)
  {
    var packageName := source.packageName + ".entity";
    var sourceName := source.simpleName;
    var entityName := sourceName + "Entity";
    var mappersName := sourceName + "Mappers";
    var entityClass := ClassName(packageName, entityName);
    var mappersClass := ClassName(packageName, mappersName);

    var b := new EntityBuilder();
    for i := 0 to |fields|
      invariant b.parameters == ParametersOf(src, fields[..i])
      invariant b.properties == PropertiesOf(src, fields[..i])
      invariant b.toDomainStatements == ToDomainOf(src, source, fields[..i])
      invariant b.toEntityStatements == ToEntityOf(src, source, fields[..i])
    {
      AddField(b, src, source, fields[i]);
      FieldsStep(src, source, fields, i);
    }
    assert fields[..|fields|] == fields;
    var parameters, properties := b.parameters, b.properties;
    var toDomain, toEntity := b.toDomainStatements, b.toEntityStatements;

    var registry: Option<RegistryFile> := None;
    if src.generateMappers {
      var file := GenerateObjectMappers(src.isInternal, packageName, mappersName, mappersClass, mappers);
      registry := Some(file);
    }
    var entityFile := GenerateEntity(FlagsOf(src), entityName, packageName, ClassType(source, false), entityClass,
                                     parameters, properties, toDomain, toEntity);
    g := Generated(entityFile, registry);
    forall i | 0 <= i < |fields| ensures parameters[i] == FieldParameter(src, fields[i]) {
      ParametersOfAt(src, fields, i);
    }
  }
}
