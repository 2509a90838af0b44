/** The extension functions shared by the processor: the mapping of the
    nullability option's name, the default literal used to collapse a
    nullable value, and the "primitive" classification (which also admits
    the standard collections). */
module EntityExt {
  import opened Wrappers
  import opened Poet
  import opened Meta

  // Canonical names of the KotlinPoet constants the tables compare against.
  const CHAR := "kotlin.Char"
  const CHAR_SEQUENCE := "kotlin.CharSequence"
  const CHAR_ARRAY := "kotlin.CharArray"
  const STRING := "kotlin.String"
  const U_BYTE := "kotlin.UByte"
  const U_SHORT := "kotlin.UShort"
  const U_INT := "kotlin.UInt"
  const BYTE := "kotlin.Byte"
  const SHORT := "kotlin.Short"
  const INT := "kotlin.Int"
  const U_LONG := "kotlin.ULong"
  const LONG := "kotlin.Long"
  const FLOAT := "kotlin.Float"
  const DOUBLE := "kotlin.Double"
  const BOOLEAN := "kotlin.Boolean"

  const ARRAY := "kotlin.Array"
  const COLLECTION := "kotlin.collections.Collection"
  const MUTABLE_COLLECTION := "kotlin.collections.MutableCollection"
  const ITERABLE := "kotlin.collections.Iterable"
  const MUTABLE_ITERABLE := "kotlin.collections.MutableIterable"
  const LIST := "kotlin.collections.List"
  const MUTABLE_LIST := "kotlin.collections.MutableList"
  const MAP := "kotlin.collections.Map"
  const MUTABLE_MAP := "kotlin.collections.MutableMap"
  const SET := "kotlin.collections.Set"
  const MUTABLE_SET := "kotlin.collections.MutableSet"

  // The default literals, as the text they are emitted with.
  const CHAR_DEFAULT := "'\\u0000'"
  const TEXT_DEFAULT := "\"\""

  /** `String.toMeta()`: the simple name of the annotation's nullability
      entry mapped to the class-level setting. */
  function ToMeta(name: string): (r: Nullability)
    ensures r == FULL <==> name == "FULL"
    ensures r == TRANSIENT <==> name != "FULL"
    ensures r != NONE
  {
    if name == "TRANSIENT" then TRANSIENT
    else if name == "FULL" then FULL
    else TRANSIENT
  }

  /** The first `when` of `relaxedDefaultString`: a class type by its canonical name. */
  function ScalarLiteral(canonical: string): Option<string> {
    if canonical == CHAR then Some(CHAR_DEFAULT)
    else if canonical == CHAR_SEQUENCE || canonical == CHAR_ARRAY || canonical == STRING then Some(TEXT_DEFAULT)
    else if canonical == U_BYTE || canonical == U_SHORT || canonical == U_INT
         || canonical == BYTE || canonical == SHORT || canonical == INT then Some("0")
    else if canonical == U_LONG || canonical == LONG then Some("0L")
    else if canonical == FLOAT then Some("0f")
    else if canonical == DOUBLE then Some("0.0")
    else if canonical == BOOLEAN then Some("false")
    else None
  }

  /** The second `when`: a parameterized type by its raw type alone. */
  function CollectionLiteral(raw: string): Option<string> {
    if raw == ARRAY then Some("emptyArray()")
    else if raw == COLLECTION || raw == MUTABLE_COLLECTION || raw == ITERABLE
         || raw == MUTABLE_ITERABLE || raw == LIST || raw == MUTABLE_LIST then Some("ArrayList()")
    else if raw == MAP || raw == MUTABLE_MAP then Some("HashMap()")
    else if raw == SET || raw == MUTABLE_SET then Some("HashSet()")
    else None
  }

  /** `TypeName.relaxedDefaultString()`: the literal that replaces a null
      value of type `t`, or None when there is none. A class type never
      equals a parameterized one, so only one of the two tables can match. */
  function RelaxedDefaultString(t: TypeName): Option<string> {
    match Copy(t, false)
    case ClassType(c, _) => ScalarLiteral(c.CanonicalName())
    case ParameterizedType(raw, _, _) => CollectionLiteral(raw.CanonicalName())
    case OtherType(_, _) => None
  }

  /** `KSType.isPrimitive` on the type's name. */
  function IsPrimitive(t: TypeName): bool {
    match Copy(t, false)
    case ClassType(c, _) =>
      var n := c.CanonicalName();
      n == CHAR || n == CHAR_SEQUENCE || n == CHAR_ARRAY || n == STRING || n == U_BYTE || n == U_SHORT
      || n == U_INT || n == BYTE || n == SHORT || n == INT || n == U_LONG || n == LONG || n == FLOAT
      || n == DOUBLE || n == BOOLEAN
    case ParameterizedType(raw, _, _) =>
      var n := raw.CanonicalName();
      n == ARRAY || n == COLLECTION || n == MUTABLE_COLLECTION || n == ITERABLE || n == MUTABLE_ITERABLE
      || n == LIST || n == MUTABLE_LIST || n == MAP || n == MUTABLE_MAP || n == SET || n == MUTABLE_SET
    case OtherType(_, _) => false
  }

  /** The default literals as a table, one entry per scalar type. */
  const ScalarDefaults: map<string, string> := map[
    CHAR := CHAR_DEFAULT,
    CHAR_SEQUENCE := TEXT_DEFAULT, CHAR_ARRAY := TEXT_DEFAULT, STRING := TEXT_DEFAULT,
    U_BYTE := "0", U_SHORT := "0", U_INT := "0", BYTE := "0", SHORT := "0", INT := "0",
    U_LONG := "0L", LONG := "0L",
    FLOAT := "0f",
    DOUBLE := "0.0",
    BOOLEAN := "false"]

  /** The empty-instance literals as a table, one entry per raw collection type. */
  const CollectionDefaults: map<string, string> := map[
    ARRAY := "emptyArray()",
    COLLECTION := "ArrayList()", MUTABLE_COLLECTION := "ArrayList()", ITERABLE := "ArrayList()",
    MUTABLE_ITERABLE := "ArrayList()", LIST := "ArrayList()", MUTABLE_LIST := "ArrayList()",
    MAP := "HashMap()", MUTABLE_MAP := "HashMap()",
    SET := "HashSet()", MUTABLE_SET := "HashSet()"]

  /** The literal a type gets according to the two tables. */
  function TableDefault(t: TypeName): Option<string> {
    match Copy(t, false)
    case ClassType(c, _) =>
      if c.CanonicalName() in ScalarDefaults then Some(ScalarDefaults[c.CanonicalName()]) else None
    case ParameterizedType(raw, _, _) =>
      if raw.CanonicalName() in CollectionDefaults then Some(CollectionDefaults[raw.CanonicalName()]) else None
    case OtherType(_, _) => None
  }

  lemma ScalarLiteralMatchesTable(n: string)
    ensures ScalarLiteral(n) == if n in ScalarDefaults then Some(ScalarDefaults[n]) else None
  {
  }

  lemma CollectionLiteralMatchesTable(n: string)
    ensures CollectionLiteral(n) == if n in CollectionDefaults then Some(CollectionDefaults[n]) else None
  {
  }

  /** The `when` chains of `relaxedDefaultString` give exactly the literals of the tables. */
  lemma RelaxedDefaultMatchesTable(t: TypeName)
    ensures RelaxedDefaultString(t) == TableDefault(t)
  {
    match Copy(t, false)
    case ClassType(c, _) => ScalarLiteralMatchesTable(c.CanonicalName());
    case ParameterizedType(raw, _, _) => CollectionLiteralMatchesTable(raw.CanonicalName());
    case OtherType(_, _) =>
  }

  /** `isPrimitive` holds exactly for the types that have a default literal:
      the fifteen scalar types and the eleven raw collection types. */
  lemma PrimitiveIffDefault(t: TypeName)
    ensures IsPrimitive(t) <==> RelaxedDefaultString(t).Some?
    ensures IsPrimitive(t) <==> ((t.ClassType? && t.className.CanonicalName() in ScalarDefaults)
                                 || (t.ParameterizedType? && t.rawType.CanonicalName() in CollectionDefaults))
  {
    RelaxedDefaultMatchesTable(t);
  }

  /** Neither function looks at the nullability of its argument. */
  lemma IgnoresNullability(t: TypeName, nullable: bool)
    ensures RelaxedDefaultString(Copy(t, nullable)) == RelaxedDefaultString(t)
    ensures IsPrimitive(Copy(t, nullable)) == IsPrimitive(t)
  {
    assert Copy(Copy(t, nullable), false) == Copy(t, false);
  }

  /** A parameterized type is decided by its raw type alone: its type
      arguments are never inspected. */
  lemma ArgumentsNotInspected(raw: ClassName, args1: seq<TypeName>, args2: seq<TypeName>, n1: bool, n2: bool)
    ensures RelaxedDefaultString(ParameterizedType(raw, args1, n1)) == RelaxedDefaultString(ParameterizedType(raw, args2, n2))
    ensures IsPrimitive(ParameterizedType(raw, args1, n1)) == IsPrimitive(ParameterizedType(raw, args2, n2))
  {
  }
}
