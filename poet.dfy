/** The part of KotlinPoet that the generators use, as plain values: class
    and type names, parameter, property and function specifications, the
    two kinds of generated file, and the builder state that the per-field
    loop fills. Rendering to source text and writing files are not modelled. */
module Poet {
  import opened Wrappers

  /** A class name: its package and its (dot-separated, when nested) simple name. */
  datatype ClassName = ClassName(packageName: string, simpleName: string) {
    /** The fully qualified name; a class in the root package has no leading dot. */
    function CanonicalName(): string {
      if packageName == "" then simpleName else packageName + "." + simpleName
    }
  }

  /** A type name as KotlinPoet builds it from a resolved type. `OtherType`
      stands for lambda types, type variables, wildcards and the like, which
      never equal a class or a parameterized type. */
  datatype TypeName =
    | ClassType(className: ClassName, nullable: bool)
    | ParameterizedType(rawType: ClassName, typeArguments: seq<TypeName>, nullable: bool)
    | OtherType(text: string, nullable: bool)

  /** `copy(nullable = b)`: the same type with only its nullability replaced. */
  function Copy(t: TypeName, nullable: bool): (r: TypeName)
    ensures r.nullable == nullable
    ensures r.(nullable := t.nullable) == t
  {
    t.(nullable := nullable)
  }

  /** The text of `toString()` on a type name: qualified names, type
      arguments in angle brackets separated by ", ", and a trailing '?'. */
  function Render(t: TypeName): string
    decreases t, 1
  {
    var base := match t
      case ClassType(c, _) => c.CanonicalName()
      case ParameterizedType(raw, args, _) => raw.CanonicalName() + "<" + RenderArguments(args) + ">"
      case OtherType(text, _) => text;
    if t.nullable then base + "?" else base
  }

  function RenderArguments(ts: seq<TypeName>): string
    decreases ts, 0
  {
    if ts == [] then ""
    else if |ts| == 1 then Render(ts[0])
    else Render(ts[0]) + ", " + RenderArguments(ts[1..])
  }

  datatype Modifier = DATA | INTERNAL

  /** A format string with `%T` placeholders and the class names bound to
      them, as passed to `addCode`, `addStatement` or `initializer`. */
  datatype Code = Code(format: string, args: seq<ClassName>)

  datatype ParameterSpec = ParameterSpec(name: string, typ: TypeName, defaultValue: Option<string>)

  datatype PropertySpec = PropertySpec(name: string, typ: TypeName, modifiers: set<Modifier>, initializer: Code)

  /** A function whose body is `opening`, then the statements, then `closing`. */
  datatype FunSpec = FunSpec(
    name: string,
    modifiers: set<Modifier>,
    receiver: Option<TypeName>,
    returnType: TypeName,
    opening: Code,
    statements: seq<Code>,
    closing: Code)

  /** The generated `XEntity` class. */
  datatype ClassSpec = ClassSpec(
    className: ClassName,
    modifiers: set<Modifier>,
    annotations: seq<ClassName>,
    constructorParameters: seq<ParameterSpec>,
    functions: seq<FunSpec>,
    properties: seq<PropertySpec>)

  /** The generated `XMappers` object; its properties come out of a hash map,
      so they form a set. */
  datatype ObjectSpec = ObjectSpec(className: ClassName, modifiers: set<Modifier>, properties: set<PropertySpec>)

  datatype EntityFile = EntityFile(packageName: string, fileName: string, entityClass: ClassSpec, functions: seq<FunSpec>)

  datatype RegistryFile = RegistryFile(packageName: string, fileName: string, registry: ObjectSpec)

  /** What one run of a generator writes: the entity file and, when
      conversions are generated, the mapper registry file. */
  datatype Generated = Generated(entityFile: EntityFile, registryFile: Option<RegistryFile>)

  /** The four builders that the per-field loop of a generator fills: the
      primary constructor's parameters, the class properties, and the
      statements of `toDomain` and of `toEntity`. */
  class EntityBuilder {
    var parameters: seq<ParameterSpec>
    var properties: seq<PropertySpec>
    var toDomainStatements: seq<Code>
    var toEntityStatements: seq<Code>

    constructor ()
      ensures parameters == [] && properties == []
      ensures toDomainStatements == [] && toEntityStatements == []
    {
      parameters := [];
      properties := [];
      toDomainStatements := [];
      toEntityStatements := [];
    }

    /** `entityConstructorBuilder.addParameter(p)` */
    method AddParameter(p: ParameterSpec)
      modifies this
      ensures parameters == old(parameters) + [p]
      ensures properties == old(properties)
      ensures toDomainStatements == old(toDomainStatements) && toEntityStatements == old(toEntityStatements)
    {
      parameters := parameters + [p];
    }

    /** `entityProperties.add(p)` */
    method AddProperty(p: PropertySpec)
      modifies this
      ensures properties == old(properties) + [p]
      ensures parameters == old(parameters)
      ensures toDomainStatements == old(toDomainStatements) && toEntityStatements == old(toEntityStatements)
    {
      properties := properties + [p];
    }

    /** `toDomainMapperStatements.addStatement(c)` */
    method AddToDomainStatement(c: Code)
      modifies this
      ensures toDomainStatements == old(toDomainStatements) + [c]
      ensures parameters == old(parameters) && properties == old(properties)
      ensures toEntityStatements == old(toEntityStatements)
    {
      toDomainStatements := toDomainStatements + [c];
    }

    /** `toEntityStatements.addStatement(c)` */
    method AddToEntityStatement(c: Code)
      modifies this
      ensures toEntityStatements == old(toEntityStatements) + [c]
      ensures parameters == old(parameters) && properties == old(properties)
      ensures toDomainStatements == old(toDomainStatements)
    {
      toEntityStatements := toEntityStatements + [c];
    }
  }
}
