/** The annotation processor: it splits the annotated symbols into those that
    validated and those deferred to a later round, derives the class-level
    settings and every property's meta from the already-resolved
    declarations, collects the mappers, and hands each class to the current
    generator. A thrown exception is a `Failure`. */
module EntityItProcessor {
  import opened Wrappers
  import opened Poet
  import opened Meta
  import EntityExt
  import ECG = EntityCodeGenerator

  // Short names of the annotation and its nested annotations, and the
  // qualified name of the mapper interface.
  const ENTITY := "Entity"
  const NAMED := "Named"
  const MAP_WITH := "MapWith"
  const NOT_NULL := "NotNull"
  const ENTITY_MAPPER := "io.github.yushman.entityit.mapper.EntityMapper"

  // ---------------------------------------------------------------------------
  // Lookups

  /** `firstOrNull { it.shortName.asString() == shortName }` over annotations. */
  function FindAnnotation(anns: seq<Annotation>, shortName: string): (r: Option<Annotation>)
    ensures r.None? <==> forall i :: 0 <= i < |anns| ==> anns[i].shortName != shortName
    ensures r.Some? ==> exists i :: 0 <= i < |anns| && anns[i] == r.value && IsFirstAnnotation(anns, shortName, i)
  {
    if anns == [] then None
    else if anns[0].shortName == shortName then
      assert IsFirstAnnotation(anns, shortName, 0);
      Some(anns[0])
    else
      var r := FindAnnotation(anns[1..], shortName);
      assert r.Some? ==> exists i :: 0 <= i < |anns[1..]| && anns[1..][i] == r.value
                                     && IsFirstAnnotation(anns[1..], shortName, i);
      assert forall i :: 0 <= i < |anns[1..]| && IsFirstAnnotation(anns[1..], shortName, i)
                         ==> IsFirstAnnotation(anns, shortName, i + 1);
      r
  }

  /** Annotation `i` is the first one with this short name. */
  predicate IsFirstAnnotation(anns: seq<Annotation>, shortName: string, i: nat) {
    i < |anns| && anns[i].shortName == shortName && forall j :: 0 <= j < i ==> anns[j].shortName != shortName
  }

  /** `any { it.shortName.asString() == shortName }` over annotations. */
  predicate HasAnnotation(anns: seq<Annotation>, shortName: string) {
    exists i :: 0 <= i < |anns| && anns[i].shortName == shortName
  }

  /** `first { it.name?.asString() == name }` over annotation arguments, with
      None where `first` throws. */
  function FindArgument(args: seq<AnnotationArgument>, name: string): (r: Option<AnnotationArgument>)
    ensures r.None? <==> forall i :: 0 <= i < |args| ==> args[i].name != Some(name)
    ensures r.Some? ==> exists i :: 0 <= i < |args| && args[i] == r.value && IsFirstArgument(args, name, i)
  {
    if args == [] then None
    else if args[0].name == Some(name) then
      assert IsFirstArgument(args, name, 0);
      Some(args[0])
    else
      var r := FindArgument(args[1..], name);
      assert r.Some? ==> exists i :: 0 <= i < |args[1..]| && args[1..][i] == r.value
                                     && IsFirstArgument(args[1..], name, i);
      assert forall i :: 0 <= i < |args[1..]| && IsFirstArgument(args[1..], name, i)
                         ==> IsFirstArgument(args, name, i + 1);
      r
  }

  predicate IsFirstArgument(args: seq<AnnotationArgument>, name: string, i: nat) {
    i < |args| && args[i].name == Some(name) && forall j :: 0 <= j < i ==> args[j].name != Some(name)
  }

  /** The qualified name of a supertype's declaration, or "" when it has none. */
  function QualifiedNameOrEmpty(t: SuperType): string {
    match t.qualifiedName
    case Some(n) => n
    case None => ""
  }

  /** `firstOrNull` over the resolved supertypes, for the mapper interface. */
  function FindMapperSuper(ts: seq<SuperType>): (r: Option<SuperType>)
    ensures r.None? <==> forall i :: 0 <= i < |ts| ==> QualifiedNameOrEmpty(ts[i]) != ENTITY_MAPPER
    ensures r.Some? ==> exists i :: 0 <= i < |ts| && ts[i] == r.value && IsFirstMapperSuper(ts, i)
  {
    if ts == [] then None
    else if QualifiedNameOrEmpty(ts[0]) == ENTITY_MAPPER then
      assert IsFirstMapperSuper(ts, 0);
      Some(ts[0])
    else
      var r := FindMapperSuper(ts[1..]);
      assert r.Some? ==> exists i :: 0 <= i < |ts[1..]| && ts[1..][i] == r.value && IsFirstMapperSuper(ts[1..], i);
      assert forall i :: 0 <= i < |ts[1..]| && IsFirstMapperSuper(ts[1..], i) ==> IsFirstMapperSuper(ts, i + 1);
      r
  }

  predicate IsFirstMapperSuper(ts: seq<SuperType>, i: nat) {
    i < |ts| && QualifiedNameOrEmpty(ts[i]) == ENTITY_MAPPER
    && forall j :: 0 <= j < i ==> QualifiedNameOrEmpty(ts[j]) != ENTITY_MAPPER
  }

  /** At most one position is the first mapper interface. */
  lemma FirstMapperSuperUnique(ts: seq<SuperType>)
    ensures forall i: nat, j: nat :: IsFirstMapperSuper(ts, i) && IsFirstMapperSuper(ts, j) ==> i == j
  {
  }

  /** The supertype found is the one at the first matching position, and
      nothing found means no position matches. */
  lemma FindMapperSuperIsFirst(ts: seq<SuperType>)
    ensures FindMapperSuper(ts).Some? ==>
      forall i: nat :: IsFirstMapperSuper(ts, i) ==> ts[i] == FindMapperSuper(ts).value
    ensures FindMapperSuper(ts).None? ==> forall i: nat :: !IsFirstMapperSuper(ts, i)
  {
    FirstMapperSuperUnique(ts);
  }

  // ---------------------------------------------------------------------------
  // Property meta

  /** `getName`: the first argument of the first `Named` annotation, which
      must be a string, or the property's simple name when there is no such
      annotation. */
  function GetName(p: PropertyDecl): (r: Result<string, Failure>)
    ensures FindAnnotation(p.annotations, NAMED).None? ==> r == Success(p.simpleName)
    ensures FindAnnotation(p.annotations, NAMED).Some? ==>
      var args := FindAnnotation(p.annotations, NAMED).value.arguments;
      && (r.Success? <==> |args| > 0 && args[0].value.StringValue?)
      && (r.Success? ==> r.value == args[0].value.s)
      && (|args| == 0 ==> r.Failure? && r.error.NoSuchElement?)
      && (|args| > 0 && !args[0].value.StringValue? ==> r.Failure? && r.error.ClassCast?)
  {
    match FindAnnotation(p.annotations, NAMED)
    case None => Success(p.simpleName)
    case Some(a) =>
      if |a.arguments| == 0 then Failure(NoSuchElement("Named: no arguments"))
      else match a.arguments[0].value
        case StringValue(s) => Success(s)
        case _ => Failure(ClassCast("Named: the first argument is not a String"))
  }

  /** `getMapper`: the class named by the first argument of the first
      `MapWith` annotation; nothing when there is no such annotation or the
      argument does not name a class. */
  function GetMapper(p: PropertyDecl): (r: Result<Option<MapperClass>, Failure>)
    ensures FindAnnotation(p.annotations, MAP_WITH).None? ==> r == Success(None)
    ensures FindAnnotation(p.annotations, MAP_WITH).Some? ==>
      var args := FindAnnotation(p.annotations, MAP_WITH).value.arguments;
      && (r.Failure? <==> |args| == 0)
      && (r.Success? && r.value.Some? <==>
            |args| > 0 && args[0].value.TypeValue? && args[0].value.declaration.ClassDeclaration?)
      && (r.Success? && r.value.Some? ==> r.value.value == args[0].value.declaration.mapper)
  {
    match FindAnnotation(p.annotations, MAP_WITH)
    case None => Success(None)
    case Some(a) =>
      if |a.arguments| == 0 then Failure(NoSuchElement("MapWith: no arguments"))
      else match a.arguments[0].value
        case TypeValue(ClassDeclaration(m)) => Success(Some(m))
        case _ => Success(None)
  }

  /** `getMapperType`: the second type argument of the first supertype that
      is the mapper interface. A missing supertype, a missing second argument
      or a star projection fails the non-null assertion. */
  function GetMapperType(m: MapperClass): (r: Result<KType, Failure>)
    ensures r.Success? <==> exists i :: 0 <= i < |m.superTypes| && IsFirstMapperSuper(m.superTypes, i)
                                        && |m.superTypes[i].arguments| >= 2 && m.superTypes[i].arguments[1].Argument?
    ensures r.Success? ==> forall i :: 0 <= i < |m.superTypes| && IsFirstMapperSuper(m.superTypes, i)
                                       ==> r.value == m.superTypes[i].arguments[1].typ
    ensures r.Failure? ==> r.error.NullPointer?
  {
    FindMapperSuperIsFirst(m.superTypes);
    match FindMapperSuper(m.superTypes)
    case None => Failure(NullPointer("no EntityMapper supertype"))
    case Some(t) =>
      if |t.arguments| < 2 then Failure(NullPointer("EntityMapper supertype has no second type argument"))
      else match t.arguments[1]
        case Star => Failure(NullPointer("EntityMapper second type argument is a star projection"))
        case Argument(k) => Success(k)
  }

  /** `isEntity`: the type's declaration carries the entity annotation. */
  predicate IsEntity(t: KType) {
    ENTITY in t.declarationAnnotations
  }

  /** `validateProp`. With a mapper only the mapper's entity type is checked;
      without one the property's own type must be an entity or primitive. */
  function ValidateProp(p: PropertyDecl, isEntity: bool, ksType: KType, mapperType: Option<KType>): (r: Outcome<Failure>)
    ensures mapperType.Some? ==>
      && (r.Pass? <==> EntityExt.IsPrimitive(mapperType.value.typeName) || IsEntity(mapperType.value))
      && (r.Fail? ==> r.error == MapperTargetIneligible(mapperType.value.typeName))
    ensures mapperType.None? ==>
      && (r.Pass? <==> isEntity || EntityExt.IsPrimitive(ksType.typeName))
      && (r.Fail? ==> r.error == PropertyIneligible(p.simpleName, p.ktype.typeName))
  {
    match mapperType
    case Some(t) =>
      if EntityExt.IsPrimitive(t.typeName) then Pass
      else if IsEntity(t) then Pass
      else Fail(MapperTargetIneligible(t.typeName))
    case None =>
      if isEntity then Pass
      else if EntityExt.IsPrimitive(ksType.typeName) then Pass
      else Fail(PropertyIneligible(p.simpleName, p.ktype.typeName))
  }

  /** With a mapper, the property's own type plays no part in validation. */
  lemma MapperValidationIgnoresProperty(p: PropertyDecl, q: PropertyDecl, e1: bool, e2: bool, k1: KType, k2: KType, t: KType)
    ensures ValidateProp(p, e1, k1, Some(t)) == ValidateProp(q, e2, k2, Some(t))
  {
  }

  /** A rejected property's exception message names the offending type and,
      without a mapper, the property. */
  lemma ValidationMessageNamesOffender(p: PropertyDecl, isEntity: bool, ksType: KType, mapperType: Option<KType>)
    requires ValidateProp(p, isEntity, ksType, mapperType).Fail?
    ensures var msg := Message(ValidateProp(p, isEntity, ksType, mapperType).error);
      && (mapperType.Some? ==> Contains(msg, Render(mapperType.value.typeName)))
      && (mapperType.None? ==> Contains(msg, p.simpleName) && Contains(msg, Render(p.ktype.typeName)))
  {
    MessageNamesOffender(ValidateProp(p, isEntity, ksType, mapperType).error);
  }

  /** The mapper's entity type, when there is a mapper. */
  function GetMapperTypeOf(mapper: Option<MapperClass>): (r: Result<Option<KType>, Failure>)
    ensures mapper.None? ==> r == Success(None)
    ensures r.Success? ==> (r.value.Some? <==> mapper.Some?)
    ensures mapper.Some? ==> (r.Success? <==> GetMapperType(mapper.value).Success?)
    ensures mapper.Some? && r.Success? ==> r.value.value == GetMapperType(mapper.value).value
  {
    match mapper
    case None => Success(None)
    case Some(m) =>
      var t :- GetMapperType(m);
      Success(Some(t))
  }

  /** The property-level `getMeta`: name, then mapper, then mapper type, then
      validation; the first of them that throws decides the failure. */
  function PropertyGetMeta(p: PropertyDecl): Result<PropertyMeta, Failure>
  {
    var isNotNull := HasAnnotation(p.annotations, NOT_NULL);
    var ksType := p.ktype;
    var isNullable := ksType.typeName.nullable;
    var isEntity := IsEntity(ksType);
    var name :- GetName(p);
    var mapper :- GetMapper(p);
    var mapperType :- GetMapperTypeOf(mapper);
    match ValidateProp(p, isEntity, ksType, mapperType)
    case Fail(e) => Failure(e)
    case Pass =>
      Success(PropertyMeta(name, isNullable, isNotNull, isEntity, mapper, ksType,
                           match mapperType case Some(t) => t case None => ksType))
  }

  /** When the property meta is built, and what it holds. */
  lemma PropertyGetMetaFacts(p: PropertyDecl)
    ensures PropertyGetMeta(p).Success? <==>
      && GetName(p).Success? && GetMapper(p).Success? && GetMapperTypeOf(GetMapper(p).value).Success?
      && ValidateProp(p, IsEntity(p.ktype), p.ktype, GetMapperTypeOf(GetMapper(p).value).value).Pass?
    ensures PropertyGetMeta(p).Success? ==>
      && PropertyGetMeta(p).value.resultName == GetName(p).value
      && PropertyGetMeta(p).value.isNullable == p.ktype.typeName.nullable
      && PropertyGetMeta(p).value.isNotNullAnnotated == HasAnnotation(p.annotations, NOT_NULL)
      && PropertyGetMeta(p).value.isEntityAnnotated == IsEntity(p.ktype)
      && PropertyGetMeta(p).value.mapper == GetMapper(p).value
      && PropertyGetMeta(p).value.ksType == p.ktype
      && PropertyGetMeta(p).value.resultType == match GetMapperTypeOf(GetMapper(p).value).value
                               case Some(t) => t
                               case None => p.ktype
    ensures GetName(p).Failure? ==> PropertyGetMeta(p) == Failure(GetName(p).error)
    ensures GetName(p).Success? && GetMapper(p).Failure? ==> PropertyGetMeta(p) == Failure(GetMapper(p).error)
    ensures GetName(p).Success? && GetMapper(p).Success? && GetMapperTypeOf(GetMapper(p).value).Failure? ==>
      PropertyGetMeta(p) == Failure(GetMapperTypeOf(GetMapper(p).value).error)
    ensures GetName(p).Success? && GetMapper(p).Success? && GetMapperTypeOf(GetMapper(p).value).Success? &&
            ValidateProp(p, IsEntity(p.ktype), p.ktype, GetMapperTypeOf(GetMapper(p).value).value).Fail? ==>
      PropertyGetMeta(p) == Failure(ValidateProp(p, IsEntity(p.ktype), p.ktype, GetMapperTypeOf(GetMapper(p).value).value).error)
  {
  }

  /** A property that gets its meta is one the generator can handle: its
      entity-side type is primitive or an entity. */
  lemma AcceptedPropertyIsEligible(p: PropertyDecl)
    requires PropertyGetMeta(p).Success?
    ensures var m := PropertyGetMeta(p).value;
      EntityExt.IsPrimitive(m.resultType.typeName) || IsEntity(m.resultType)
  {
    PropertyGetMetaFacts(p);
  }

  /** `getMeta` of each property, in order. */
  function MetaResults(ps: seq<PropertyDecl>): (r: seq<Result<PropertyMeta, Failure>>)
    ensures |r| == |ps|
    decreases |ps|
  {
    if ps == [] then [] else MetaResults(ps[..|ps| - 1]) + [PropertyGetMeta(ps[|ps| - 1])]
  }

  lemma {:induction false} MetaResultsAt(ps: seq<PropertyDecl>, i: nat)
    requires i < |ps|
    ensures MetaResults(ps)[i] == PropertyGetMeta(ps[i])
    decreases |ps|
  {
    if i < |ps| - 1 {
      MetaResultsAt(ps[..|ps| - 1], i);
    }
  }

  /** `associateWith` over the properties and their meta, in order; the
      first meta that throws ends it. */
  function Associate(ps: seq<PropertyDecl>, rs: seq<Result<PropertyMeta, Failure>>): (r: Result<seq<Field>, Failure>)
    requires |rs| == |ps|
    ensures r.Success? ==> |r.value| == |ps|
    decreases |ps|
  {
    if ps == [] then Success([])
    else
      var init :- Associate(ps[..|ps| - 1], rs[..|ps| - 1]);
      var m :- rs[|ps| - 1];
      Success(init + [Field(ps[|ps| - 1], m)])
  }

  /** `associateWith { it.getMeta() }` over the properties. */
  function PropertiesMeta(ps: seq<PropertyDecl>): (r: Result<seq<Field>, Failure>)
    ensures r.Success? ==> |r.value| == |ps|
  {
    Associate(ps, MetaResults(ps))
  }

  lemma {:induction false} AssociateSucceeds(ps: seq<PropertyDecl>, rs: seq<Result<PropertyMeta, Failure>>)
    requires |rs| == |ps|
    ensures Associate(ps, rs).Success? <==> forall i :: 0 <= i < |rs| ==> rs[i].Success?
    ensures Associate(ps, rs).Success? ==>
      forall i :: 0 <= i < |ps| ==> Associate(ps, rs).value[i] == Field(ps[i], rs[i].value)
    decreases |ps|
  {
    if ps != [] {
      var n := |ps|;
      AssociateSucceeds(ps[..n - 1], rs[..n - 1]);
      assert forall i :: 0 <= i < n - 1 ==> rs[..n - 1][i] == rs[i] && ps[..n - 1][i] == ps[i];
    }
  }

  lemma {:induction false} AssociateFailsFirst(ps: seq<PropertyDecl>, rs: seq<Result<PropertyMeta, Failure>>)
    requires |rs| == |ps| && Associate(ps, rs).Failure?
    ensures exists i :: 0 <= i < |rs| && rs[i] == Failure(Associate(ps, rs).error)
                        && forall j :: 0 <= j < i ==> rs[j].Success?
    decreases |ps|
  {
    var n := |ps|;
    var ps', rs' := ps[..n - 1], rs[..n - 1];
    assert forall i :: 0 <= i < n - 1 ==> rs'[i] == rs[i];
    if Associate(ps', rs').Failure? {
      AssociateFailsFirst(ps', rs');
      var i :| 0 <= i < |rs'| && rs'[i] == Failure(Associate(ps', rs').error)
               && forall j :: 0 <= j < i ==> rs'[j].Success?;
      assert rs[i] == Failure(Associate(ps, rs).error);
    } else {
      AssociateSucceeds(ps', rs');
    }
  }

  /** The properties' meta is built exactly when every property's is, and
      then entry `i` is property `i` with its meta. */
  lemma PropertiesMetaSucceeds(ps: seq<PropertyDecl>)
    ensures PropertiesMeta(ps).Success? <==> forall i :: 0 <= i < |ps| ==> PropertyGetMeta(ps[i]).Success?
    ensures PropertiesMeta(ps).Success? ==>
      forall i :: 0 <= i < |ps| ==> PropertiesMeta(ps).value[i] == Field(ps[i], PropertyGetMeta(ps[i]).value)
  {
    var rs := MetaResults(ps);
    AssociateSucceeds(ps, rs);
    forall i | 0 <= i < |ps| ensures rs[i] == PropertyGetMeta(ps[i]) {
      MetaResultsAt(ps, i);
    }
  }

  /** A failure is the one of the first property whose meta throws. */
  lemma PropertiesMetaFailsFirst(ps: seq<PropertyDecl>)
    requires PropertiesMeta(ps).Failure?
    ensures exists i :: 0 <= i < |ps| && PropertyGetMeta(ps[i]) == Failure(PropertiesMeta(ps).error)
                        && forall j :: 0 <= j < i ==> PropertyGetMeta(ps[j]).Success?
  {
    var rs := MetaResults(ps);
    AssociateFailsFirst(ps, rs);
    forall i | 0 <= i < |ps| ensures rs[i] == PropertyGetMeta(ps[i]) {
      MetaResultsAt(ps, i);
    }
  }

  // ---------------------------------------------------------------------------
  // The mapper list

  /** `mapNotNull { it.mapper }` over the fields' meta: each field's mapper in
      field order, skipping fields without one and keeping repeats. */
  function MapperList(fs: seq<Field>): (r: seq<MapperClass>)
    ensures |r| <= |fs|
    decreases |fs|
  {
    if fs == [] then []
    else MapperList(fs[..|fs| - 1]) + match fs[|fs| - 1].meta.mapper case Some(m) => [m] case None => []
  }

  lemma {:induction false} MapperListAppend(a: seq<Field>, b: seq<Field>)
    ensures MapperList(a + b) == MapperList(a) + MapperList(b)
    decreases |b|
  {
    if b == [] {
      assert a + b == a;
    } else {
      var b' := b[..|b| - 1];
      MapperListAppend(a, b');
      assert (a + b)[..|a + b| - 1] == a + b';
    }
  }

  /** A mapper is in the list exactly when some field has it. */
  lemma {:induction false} MapperListHolds(fs: seq<Field>, m: MapperClass)
    ensures m in MapperList(fs) <==> exists i :: 0 <= i < |fs| && fs[i].meta.mapper == Some(m)
    decreases |fs|
  {
    if fs != [] {
      var init := fs[..|fs| - 1];
      MapperListHolds(init, m);
      assert forall i :: 0 <= i < |init| ==> init[i] == fs[i];
    }
  }

  /** Two fields with the same mapper put it in the list twice. */
  lemma MapperListKeepsRepeats(f: Field, g: Field)
    requires f.meta.mapper.Some? && g.meta.mapper == f.meta.mapper
    ensures MapperList([f, g]) == [f.meta.mapper.value, f.meta.mapper.value]
  {
    assert [f, g][..1] == [f] && [f][..0] == [];
  }

  /** Every mapper a field uses is registered under its key. */
  lemma MappedFieldIsRegistered(fs: seq<Field>, i: nat)
    requires i < |fs| && fs[i].meta.mapper.Some?
    ensures ECG.MapperKey(fs[i].meta.mapper.value) in ECG.RegistryOf(MapperList(fs))
  {
    var m := fs[i].meta.mapper.value;
    MapperListHolds(fs, m);
    var ms := MapperList(fs);
    var j :| 0 <= j < |ms| && ms[j] == m;
    ECG.RegistryKeys(ms, ECG.MapperKey(m));
  }

  // ---------------------------------------------------------------------------
  // Class meta

  /** A boolean annotation argument found by name. */
  function BoolArgument(args: seq<AnnotationArgument>, name: string): (r: Result<bool, Failure>)
    ensures r.Success? <==> FindArgument(args, name).Some? && FindArgument(args, name).value.value.BoolValue?
    ensures r.Success? ==> r.value == FindArgument(args, name).value.value.b
    ensures FindArgument(args, name).None? ==> r == Failure(NoSuchElement(name))
    ensures FindArgument(args, name).Some? && !FindArgument(args, name).value.value.BoolValue? ==>
      r == Failure(ClassCast(name))
  {
    match FindArgument(args, name)
    case None => Failure(NoSuchElement(name))
    case Some(a) =>
      match a.value
      case BoolValue(b) => Success(b)
      case _ => Failure(ClassCast(name))
  }

  /** The simple name of the enum entry an annotation argument names. */
  function EnumArgumentName(args: seq<AnnotationArgument>, name: string): (r: Result<string, Failure>)
    ensures r.Success? <==> FindArgument(args, name).Some? && FindArgument(args, name).value.value.TypeValue?
    ensures r.Success? ==> r.value == DeclarationSimpleName(FindArgument(args, name).value.value.declaration)
    ensures FindArgument(args, name).None? ==> r == Failure(NoSuchElement(name))
    ensures FindArgument(args, name).Some? && !FindArgument(args, name).value.value.TypeValue? ==>
      r == Failure(ClassCast(name))
  {
    match FindArgument(args, name)
    case None => Failure(NoSuchElement(name))
    case Some(a) =>
      match a.value
      case TypeValue(d) => Success(DeclarationSimpleName(d))
      case _ => Failure(ClassCast(name))
  }

  /** The class-level `getMeta`: the arguments of the first entity
      annotation, read in the order serializable, nullability, mappers. */
  function ClassMeta(d: ClassDecl): (r: Result<SourceMeta, Failure>)
    ensures FindAnnotation(d.annotations, ENTITY).None? ==> r.Failure? && r.error.NoSuchElement?
    ensures r.Success? ==> FindAnnotation(d.annotations, ENTITY).Some?
    ensures r.Success? && FindAnnotation(d.annotations, ENTITY).Some? ==>
      var args := FindAnnotation(d.annotations, ENTITY).value.arguments;
      && BoolArgument(args, "kotlinSerializable").Success?
      && r.value.kotlinSerializable == BoolArgument(args, "kotlinSerializable").value
      && EnumArgumentName(args, "nullability").Success?
      && r.value.nullability == EntityExt.ToMeta(EnumArgumentName(args, "nullability").value)
      && BoolArgument(args, "generateMappers").Success?
      && r.value.generateMappers == BoolArgument(args, "generateMappers").value
      && r.value.isInternal == d.isInternal
    ensures FindAnnotation(d.annotations, ENTITY).Some? ==>
      var args := FindAnnotation(d.annotations, ENTITY).value.arguments;
      && (r.Success? <==> BoolArgument(args, "kotlinSerializable").Success?
                          && EnumArgumentName(args, "nullability").Success?
                          && BoolArgument(args, "generateMappers").Success?)
      && (BoolArgument(args, "kotlinSerializable").Failure? ==> r == Failure(BoolArgument(args, "kotlinSerializable").error))
      && (BoolArgument(args, "kotlinSerializable").Success? && EnumArgumentName(args, "nullability").Failure? ==>
            r == Failure(EnumArgumentName(args, "nullability").error))
      && ((BoolArgument(args, "kotlinSerializable").Success? && EnumArgumentName(args, "nullability").Success?
           && BoolArgument(args, "generateMappers").Failure?) ==> r == Failure(BoolArgument(args, "generateMappers").error))
    ensures r.Success? ==> r.value.nullability != NONE
  {
    match FindAnnotation(d.annotations, ENTITY)
    case None => Failure(NoSuchElement("Entity annotation"))
    case Some(a) =>
      var params := a.arguments;
      var kotlinSerializable :- BoolArgument(params, "kotlinSerializable");
      var nullability :- EnumArgumentName(params, "nullability");
      var generateMappers :- BoolArgument(params, "generateMappers");
      Success(SourceMeta(kotlinSerializable, EntityExt.ToMeta(nullability), generateMappers, d.isInternal))
  }

  // ---------------------------------------------------------------------------
  // Processing

  /** The generator's name for the domain class. */
  function SourceClassName(d: ClassDecl): ClassName {
    ClassName(d.packageName, d.simpleName)
  }

  /** What `processInternal` writes for a class, or the exception it throws. */
  function ProcessInternalSpec(d: ClassDecl): Result<Generated, Failure> {
    var sourceMeta :- ClassMeta(d);
    var fields :- PropertiesMeta(d.properties);
    Success(ECG.GenerateSpec(SourceClassName(d), sourceMeta, fields, MapperList(fields)))
  }

  /** `processInternal`: class meta, then property meta, then the mapper list, then generation. */
  method ProcessInternal(d: ClassDecl) returns (r: Result<Generated, Failure>)
    ensures r == ProcessInternalSpec(d)
    ensures r.Success? ==> ClassMeta(d).Success? && PropertiesMeta(d.properties).Success?
    ensures r.Success? ==> (r.value.registryFile.Some? <==> ClassMeta(d).value.generateMappers)
  {
    var sourceMeta := ClassMeta(d);
    if sourceMeta.Failure? {
      return Failure(sourceMeta.error);
    }
    var propertiesToMeta := PropertiesMeta(d.properties);
    if propertiesToMeta.Failure? {
      return Failure(propertiesToMeta.error);
    }
    var mappers := MapperList(propertiesToMeta.value);
    var g := ECG.GenerateEntities(SourceClassName(d), sourceMeta.value, propertiesToMeta.value, mappers);
    return Success(g);
  }

  /** Every mapper that a generated statement refers to is in the registry
      written beside it. */
  lemma StatementMappersAreRegistered(d: ClassDecl, i: nat)
    requires ProcessInternalSpec(d).Success?
    requires i < |d.properties|
    ensures var fs := PropertiesMeta(d.properties).value;
      && i < |fs| && fs[i].property == d.properties[i]
      && (fs[i].meta.mapper.Some? && ClassMeta(d).value.generateMappers ==>
            ProcessInternalSpec(d).value.registryFile.Some?
            && ECG.MapperKey(fs[i].meta.mapper.value) in ECG.RegistryOf(MapperList(fs)))
  {
    var fs := PropertiesMeta(d.properties).value;
    PropertiesMetaSucceeds(d.properties);
    if fs[i].meta.mapper.Some? {
      MappedFieldIsRegistered(fs, i);
    }
  }

  /** The symbols that validated, in order. */
  function Valid(ss: seq<Symbol>): (r: seq<Symbol>)
    ensures forall s :: s in r ==> s.valid
    decreases |ss|
  {
    if ss == [] then []
    else Valid(ss[..|ss| - 1]) + if ss[|ss| - 1].valid then [ss[|ss| - 1]] else []
  }

  /** Keeping the valid symbols preserves their order: the valid symbols
      of two runs of symbols are those of the first, then the second. */
  lemma {:induction false} ValidAppend(a: seq<Symbol>, b: seq<Symbol>)
    ensures Valid(a + b) == Valid(a) + Valid(b)
    decreases |b|
  {
    if b == [] {
      assert a + b == a;
    } else {
      var init := b[..|b| - 1];
      var x := b[|b| - 1];
      ValidAppend(a, init);
      assert a + b == (a + init) + [x];
      assert (a + b)[..|a + b| - 1] == a + init && (a + b)[|a + b| - 1] == x;
      assert b[..|b| - 1] == init;
      assert Valid(a + b) == Valid(a + init) + (if x.valid then [x] else []);
      assert Valid(b) == Valid(init) + (if x.valid then [x] else []);
    }
  }

  /** The symbols that did not validate, in order. */
  function Invalid(ss: seq<Symbol>): (r: seq<Symbol>)
    ensures forall s :: s in r ==> !s.valid
    decreases |ss|
  {
    if ss == [] then []
    else Invalid(ss[..|ss| - 1]) + if ss[|ss| - 1].valid then [] else [ss[|ss| - 1]]
  }

  /** `partition` loses and invents nothing. */
  lemma {:induction false} PartitionIsPermutation(ss: seq<Symbol>)
    ensures multiset(Valid(ss)) + multiset(Invalid(ss)) == multiset(ss)
    decreases |ss|
  {
    if ss != [] {
      var init, x := ss[..|ss| - 1], ss[|ss| - 1];
      PartitionIsPermutation(init);
      assert ss == init + [x];
      assert multiset(ss) == multiset(init) + multiset{x};
      if x.valid {
        assert Valid(ss) == Valid(init) + [x] && Invalid(ss) == Invalid(init);
      } else {
        assert Valid(ss) == Valid(init) && Invalid(ss) == Invalid(init) + [x];
      }
    }
  }

  /** The class declarations among the symbols, in order. */
  function ClassesOf(ss: seq<Symbol>): (r: seq<ClassDecl>)
    ensures |r| <= |ss|
    decreases |ss|
  {
    if ss == [] then []
    else ClassesOf(ss[..|ss| - 1]) + match ss[|ss| - 1] case ClassSymbol(d, _) => [d] case OtherSymbol(_, _) => []
  }

  /** A declaration is processed exactly when it is the declaration of one
      of the class symbols. */
  lemma {:induction false} ClassesOfHolds(ss: seq<Symbol>, d: ClassDecl)
    ensures d in ClassesOf(ss) <==> exists i :: 0 <= i < |ss| && ss[i].ClassSymbol? && ss[i].decl == d
    decreases |ss|
  {
    if ss != [] {
      var init := ss[..|ss| - 1];
      ClassesOfHolds(init, d);
      assert forall i :: 0 <= i < |init| ==> init[i] == ss[i];
    }
  }

  lemma {:induction false} ClassesOfAppend(a: seq<Symbol>, b: seq<Symbol>)
    ensures ClassesOf(a + b) == ClassesOf(a) + ClassesOf(b)
    decreases |b|
  {
    if b == [] {
      assert a + b == a;
    } else {
      var b' := b[..|b| - 1];
      ClassesOfAppend(a, b');
      assert (a + b)[..|a + b| - 1] == a + b';
    }
  }

  /** The result of `processInternal` for each class, in order. */
  function Outcomes(ds: seq<ClassDecl>): (r: seq<Result<Generated, Failure>>)
    ensures |r| == |ds|
    decreases |ds|
  {
    if ds == [] then [] else Outcomes(ds[..|ds| - 1]) + [ProcessInternalSpec(ds[|ds| - 1])]
  }

  lemma {:induction false} OutcomesAt(ds: seq<ClassDecl>, i: nat)
    requires i < |ds|
    ensures Outcomes(ds)[i] == ProcessInternalSpec(ds[i])
    decreases |ds|
  {
    if i < |ds| - 1 {
      OutcomesAt(ds[..|ds| - 1], i);
    }
  }

  lemma {:induction false} OutcomesAppend(a: seq<ClassDecl>, b: seq<ClassDecl>)
    ensures Outcomes(a + b) == Outcomes(a) + Outcomes(b)
    decreases |b|
  {
    if b == [] {
      assert a + b == a;
    } else {
      var b', x := b[..|b| - 1], b[|b| - 1];
      OutcomesAppend(a, b');
      assert (a + b)[..|a + b| - 1] == a + b' && (a + b)[|a + b| - 1] == x;
      assert Outcomes(a + b) == Outcomes(a + b') + [ProcessInternalSpec(x)];
      assert Outcomes(b) == Outcomes(b') + [ProcessInternalSpec(x)];
    }
  }

  /** The files written so far, and the exception that stopped the run, if any. */
  datatype RunState = RunState(written: seq<Generated>, failure: Option<Failure>)

  /** Taking the classes' results one after another; an exception stops the
      run, and the classes after it are not processed. */
  function Run(rs: seq<Result<Generated, Failure>>): (r: RunState)
    ensures |r.written| <= |rs|
    decreases |rs|
  {
    if rs == [] then RunState([], None)
    else
      var prev := Run(rs[..|rs| - 1]);
      if prev.failure.Some? then prev
      else match rs[|rs| - 1]
        case Success(g) => RunState(prev.written + [g], None)
        case Failure(e) => RunState(prev.written, Some(e))
  }

  lemma RunStep(rs: seq<Result<Generated, Failure>>, x: Result<Generated, Failure>)
    ensures Run(rs + [x]) == if Run(rs).failure.Some? then Run(rs)
                             else match x
                               case Success(g) => RunState(Run(rs).written + [g], None)
                               case Failure(e) => RunState(Run(rs).written, Some(e))
  {
    assert (rs + [x])[..|rs|] == rs;
  }

  /** Nothing runs after an exception. */
  lemma {:induction false} RunStopsAtFailure(a: seq<Result<Generated, Failure>>, b: seq<Result<Generated, Failure>>)
    requires Run(a).failure.Some?
    ensures Run(a + b) == Run(a)
    decreases |b|
  {
    if b == [] {
      assert a + b == a;
    } else {
      var b' := b[..|b| - 1];
      RunStopsAtFailure(a, b');
      assert (a + b)[..|a + b| - 1] == a + b';
    }
  }

  /** A run without exception writes one result per class, in order. */
  lemma {:induction false} RunWritesAll(rs: seq<Result<Generated, Failure>>)
    ensures Run(rs).failure.None? <==> forall i :: 0 <= i < |rs| ==> rs[i].Success?
    ensures Run(rs).failure.None? ==>
      |Run(rs).written| == |rs| && forall i :: 0 <= i < |rs| ==> Run(rs).written[i] == rs[i].value
    decreases |rs|
  {
    if rs != [] {
      var init := rs[..|rs| - 1];
      RunWritesAll(init);
      assert forall i :: 0 <= i < |init| ==> init[i] == rs[i];
      if Run(init).failure.Some? {
        var i :| 0 <= i < |init| && !init[i].Success?;
        assert !rs[i].Success?;
      }
    }
  }

  /** A run that throws has written the results of exactly the classes
      before the first one that throws, and carries that class's exception. */
  lemma {:induction false} RunFailsAtFirst(rs: seq<Result<Generated, Failure>>)
    requires Run(rs).failure.Some?
    ensures exists i :: 0 <= i < |rs| && rs[i] == Failure(Run(rs).failure.value)
                        && (forall j :: 0 <= j < i ==> rs[j].Success?)
                        && Run(rs).written == Run(rs[..i]).written
    decreases |rs|
  {
    var init := rs[..|rs| - 1];
    assert forall i :: 0 <= i < |init| ==> init[i] == rs[i];
    if Run(init).failure.Some? {
      RunFailsAtFirst(init);
      var i :| 0 <= i < |init| && init[i] == Failure(Run(init).failure.value)
               && (forall j :: 0 <= j < i ==> init[j].Success?)
               && Run(init).written == Run(init[..i]).written;
      assert init[..i] == rs[..i];
    } else {
      RunWritesAll(init);
      assert init == rs[..|rs| - 1];
    }
  }

  /** One more symbol adds the outcome of its class, when it is one. */
  lemma {:induction false} OutcomesStep(vs: seq<Symbol>, i: nat)
    requires i < |vs|
    ensures Outcomes(ClassesOf(vs[..i + 1])) ==
      Outcomes(ClassesOf(vs[..i])) + (if vs[i].ClassSymbol? then [ProcessInternalSpec(vs[i].decl)] else [])
  {
    assert vs[..i + 1] == vs[..i] + [vs[i]];
    ClassesOfAppend(vs[..i], [vs[i]]);
    assert [vs[i]][..0] == [];
    OutcomesAppend(ClassesOf(vs[..i]), ClassesOf([vs[i]]));
    if vs[i].ClassSymbol? {
      assert [vs[i].decl][..0] == [];
    }
  }

  /** A symbol that is not a class declaration leaves the round as it is. */
  lemma ProcessSkips(vs: seq<Symbol>, i: nat, written: seq<Generated>)
    requires i < |vs| && vs[i].OtherSymbol?
    requires Run(Outcomes(ClassesOf(vs[..i]))) == RunState(written, None)
    ensures Run(Outcomes(ClassesOf(vs[..i + 1]))) == RunState(written, None)
  {
    OutcomesStep(vs, i);
    assert Outcomes(ClassesOf(vs[..i])) + [] == Outcomes(ClassesOf(vs[..i]));
  }

  /** A class declaration adds its files, or ends the round with its exception. */
  lemma ProcessRuns(vs: seq<Symbol>, i: nat, written: seq<Generated>, r: Result<Generated, Failure>)
    requires i < |vs|
    requires Outcomes(ClassesOf(vs[..i + 1])) == Outcomes(ClassesOf(vs[..i])) + [r]
    requires Run(Outcomes(ClassesOf(vs[..i]))) == RunState(written, None)
    ensures r.Success? ==> Run(Outcomes(ClassesOf(vs[..i + 1]))) == RunState(written + [r.value], None)
    ensures r.Failure? ==> Run(Outcomes(ClassesOf(vs[..i + 1]))) == RunState(written, Some(r.error))
  {
    RunStep(Outcomes(ClassesOf(vs[..i])), r);
  }

  /** A round that has thrown by symbol i ends as it stood then. */
  lemma {:induction false} ProcessStopsAt(vs: seq<Symbol>, i: nat)
    requires i <= |vs|
    requires Run(Outcomes(ClassesOf(vs[..i]))).failure.Some?
    ensures Run(Outcomes(ClassesOf(vs))) == Run(Outcomes(ClassesOf(vs[..i])))
  {
    assert vs[..i] + vs[i..] == vs;
    ClassesOfAppend(vs[..i], vs[i..]);
    OutcomesAppend(ClassesOf(vs[..i]), ClassesOf(vs[i..]));
    RunStopsAtFailure(Outcomes(ClassesOf(vs[..i])), Outcomes(ClassesOf(vs[i..])));
  }

  /** How `process` ends: it returns the deferred symbols, or an exception
      escapes it; either way the files written before stay written. */
  datatype ProcessOutcome =
    | Returned(deferred: seq<Symbol>, written: seq<Generated>)
    | Threw(failure: Failure, written: seq<Generated>)

  function ProcessSpec(symbols: seq<Symbol>): ProcessOutcome {
    var r := Run(Outcomes(ClassesOf(Valid(symbols))));
    match r.failure
    case None => Returned(Invalid(symbols), r.written)
    case Some(e) => Threw(e, r.written)
  }

  /** `process`: run every valid class declaration, in order, and return
      the symbols that did not validate. */
  method Process(symbols: seq<Symbol>) returns (out: ProcessOutcome)
    ensures out == ProcessSpec(symbols)
    ensures out.Returned? ==> out.deferred == Invalid(symbols)
                              && |out.written| == |ClassesOf(Valid(symbols))|
  {
    var validSymbols, invalidSymbols := Valid(symbols), Invalid(symbols);
    var written: seq<Generated> := [];
    for i := 0 to |validSymbols|
      invariant Run(Outcomes(ClassesOf(validSymbols[..i]))) == RunState(written, None)
    {
      var symbol := validSymbols[i];
      if symbol.ClassSymbol? {
        var r := ProcessInternal(symbol.decl);
        OutcomesStep(validSymbols, i);
        ProcessRuns(validSymbols, i, written, r);
        if r.Failure? {
          ProcessStopsAt(validSymbols, i + 1);
          return Threw(r.error, written);
        }
        written := written + [r.value];
      } else {
        ProcessSkips(validSymbols, i, written);
      }
    }
    assert validSymbols[..|validSymbols|] == validSymbols;
    RunWritesAll(Outcomes(ClassesOf(validSymbols)));
    return Returned(invalidSymbols, written);
  }
}
