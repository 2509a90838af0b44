/** The already-resolved metadata the processor reads and the records it
    hands to the generator: resolved types, annotations and their arguments,
    property and class declarations, the per-property and per-class meta
    records, and the exceptions the processor can throw. */
module Meta {
  import opened Wrappers
  import opened Poet

  /** Values of the class-level `nullability` option. */
  datatype Nullability = NONE | TRANSIENT | FULL

  /** The class-level settings the generator consumes. */
  datatype SourceMeta = SourceMeta(
    kotlinSerializable: bool,
    nullability: Nullability,
    generateMappers: bool,
    isInternal: bool)

  /** A resolved type: its type name and the short names of the annotations
      on its declaration. */
  datatype KType = KType(typeName: TypeName, declarationAnnotations: seq<string>)

  /** A type argument of a resolved supertype; a star projection has no type. */
  datatype TypeArgument = Star | Argument(typ: KType)

  /** A resolved supertype of a mapper class. */
  datatype SuperType = SuperType(qualifiedName: Option<string>, arguments: seq<TypeArgument>)

  /** A class declared as a mapper: its name, its resolved supertypes, and the
      type of the first parameter of its second declared function, which the
      generators emit as the entity-side type of a mapped property. */
  datatype MapperClass = MapperClass(className: ClassName, superTypes: seq<SuperType>, entityParameterType: TypeName)

  /** The declaration behind a type-valued annotation argument. */
  datatype Declaration = ClassDeclaration(mapper: MapperClass) | OtherDeclaration(simpleName: string)

  function DeclarationSimpleName(d: Declaration): string {
    match d
    case ClassDeclaration(m) => m.className.simpleName
    case OtherDeclaration(n) => n
  }

  datatype ArgValue = StringValue(s: string) | BoolValue(b: bool) | TypeValue(declaration: Declaration) | OtherValue

  datatype AnnotationArgument = AnnotationArgument(name: Option<string>, value: ArgValue)

  /** An annotation use, known by its short name. */
  datatype Annotation = Annotation(shortName: string, arguments: seq<AnnotationArgument>)

  /** A property of the domain class. */
  datatype PropertyDecl = PropertyDecl(simpleName: string, ktype: KType, annotations: seq<Annotation>)

  /** The domain class. */
  datatype ClassDecl = ClassDecl(
    packageName: string,
    simpleName: string,
    isInternal: bool,
    annotations: seq<Annotation>,
    properties: seq<PropertyDecl>)

  /** A symbol carrying the entity annotation and whether it validated. */
  datatype Symbol = ClassSymbol(decl: ClassDecl, valid: bool) | OtherSymbol(name: string, valid: bool)

  /** What the processor resolves for one property. */
  datatype PropertyMeta = PropertyMeta(
    resultName: string,
    isNullable: bool,
    isNotNullAnnotated: bool,
    isEntityAnnotated: bool,
    mapper: Option<MapperClass>,
    ksType: KType,
    resultType: KType)

  /** A property together with its meta: one entry of the map the processor
      passes to the generator, in property order. */
  datatype Field = Field(property: PropertyDecl, meta: PropertyMeta)

  /** The exceptions the processor can throw while resolving a class. */
  datatype Failure =
    | MapperTargetIneligible(mapperType: TypeName)
    | PropertyIneligible(propName: string, propClass: TypeName)
    | NoSuchElement(context: string)
    | ClassCast(context: string)
    | NullPointer(context: string)

  /** The exception message; the two validation failures carry the texts
      of their IllegalArgumentException. */
  function Message(e: Failure): string {
    match e
    case MapperTargetIneligible(t) =>
      "EntityMapper (" + Render(t) + ") must return a class marked with \"Entity\" annotation or a primitive type"
    case PropertyIneligible(p, t) =>
      "Property [" + p + "] has class [" + Render(t) + "] that is not marked with \"Entity\" annotation"
      + " or it has no \"Entity.MapWith\" annotation or it not a primitive"
    case NoSuchElement(c) => c
    case ClassCast(c) => c
    case NullPointer(c) => c
  }

  /** `sub` occurs in `s` at position `k`. */
  predicate OccursAt(s: string, sub: string, k: nat) {
    k + |sub| <= |s| && s[k..k + |sub|] == sub
  }

  /** `sub` occurs in `s` at some position. */
  ghost predicate Contains(s: string, sub: string) {
    exists k: nat :: OccursAt(s, sub, k)
  }

  lemma MessageNamesOffender(e: Failure)
    requires e.MapperTargetIneligible? || e.PropertyIneligible?
    ensures e.MapperTargetIneligible? ==> Contains(Message(e), Render(e.mapperType))
    ensures e.PropertyIneligible? ==> Contains(Message(e), e.propName) && Contains(Message(e), Render(e.propClass))
  {
    if e.MapperTargetIneligible? {
      var prefix, t := "EntityMapper (", Render(e.mapperType);
      var rest := ") must return a class marked with \"Entity\" annotation or a primitive type";
      assert Message(e) == prefix + t + rest;
      assert OccursAt(prefix + t + rest, t, |prefix|);
    } else {
      var prefix, p, mid, t := "Property [", e.propName, "] has class [", Render(e.propClass);
      var rest := "] that is not marked with \"Entity\" annotation"
        + " or it has no \"Entity.MapWith\" annotation or it not a primitive";
      assert Message(e) == prefix + p + mid + t + rest;
      assert OccursAt(prefix + p + mid + t + rest, p, |prefix|);
      assert OccursAt(prefix + p + mid + t + rest, t, |prefix| + |p| + |mid|);
    }
  }
}
