/** Cassandra's marshal ("validation") classes as the mapper sees them: their
    simple and qualified names, Java's Class.toString of them, and an abstract
    stand-in for Cassandra's type descriptors (TypeParser, ListType/SetType/
    MapType.getInstance and their toString). */
module MarshalTypes {

  /** The conventional success/failure wrapper, used for the exceptions the
      source lets escape. */
  datatype Result<+T, +E> = Success(value: T) | Failure(error: E)

  datatype Option<+T> = None | Some(value: T)

  /** The classes of org.apache.cassandra.db.marshal that the mapper names. */
  datatype MarshalType =
    | BytesType | AsciiType | UTF8Type | Int32Type | IntegerType | LongType
    | UUIDType | DateType | BooleanType | FloatType | DoubleType | DecimalType
    | CounterColumnType | TimestampType | ListType | SetType | MapType

  /** The parameterised collection types, which TypeParser cannot build from a bare name. */
  predicate IsCollection(m: MarshalType) {
    m == ListType || m == SetType || m == MapType
  }

  /** Class.getSimpleName() of a marshal class. */
  function SimpleName(m: MarshalType): string {
    match m
    case BytesType => "BytesType"
    case AsciiType => "AsciiType"
    case UTF8Type => "UTF8Type"
    case Int32Type => "Int32Type"
    case IntegerType => "IntegerType"
    case LongType => "LongType"
    case UUIDType => "UUIDType"
    case DateType => "DateType"
    case BooleanType => "BooleanType"
    case FloatType => "FloatType"
    case DoubleType => "DoubleType"
    case DecimalType => "DecimalType"
    case CounterColumnType => "CounterColumnType"
    case TimestampType => "TimestampType"
    case ListType => "ListType"
    case SetType => "SetType"
    case MapType => "MapType"
  }

  /** The package every marshal class lives in; Cassandra's type parser
      resolves a name without a dot against it. */
  const MarshalPackage: string := "org.apache.cassandra.db.marshal."

  /** Class.getName() of a marshal class. */
  function QualifiedName(m: MarshalType): string {
    MarshalPackage + SimpleName(m)
  }

  /** Class.toString() of a marshal class: "class " followed by its qualified name. */
  function ClassToString(m: MarshalType): string {
    "class " + QualifiedName(m)
  }

  /** The marshal class a simple name denotes, if any: the class lookup that
      Cassandra's type parser performs for a bare identifier. */
  function MarshalOfName(s: string): (r: Option<MarshalType>)
    ensures r.Some? ==> SimpleName(r.value) == s
  {
    if s == "BytesType" then Some(BytesType)
    else if s == "AsciiType" then Some(AsciiType)
    else if s == "UTF8Type" then Some(UTF8Type)
    else if s == "Int32Type" then Some(Int32Type)
    else if s == "IntegerType" then Some(IntegerType)
    else if s == "LongType" then Some(LongType)
    else if s == "UUIDType" then Some(UUIDType)
    else if s == "DateType" then Some(DateType)
    else if s == "BooleanType" then Some(BooleanType)
    else if s == "FloatType" then Some(FloatType)
    else if s == "DoubleType" then Some(DoubleType)
    else if s == "DecimalType" then Some(DecimalType)
    else if s == "CounterColumnType" then Some(CounterColumnType)
    else if s == "TimestampType" then Some(TimestampType)
    else if s == "ListType" then Some(ListType)
    else if s == "SetType" then Some(SetType)
    else if s == "MapType" then Some(MapType)
    else None
  }

  /** Every simple name is recognised again as the class it came from. */
  lemma NameRoundTrip(m: MarshalType)
    ensures MarshalOfName(SimpleName(m)) == Some(m)
  {
    match m
    case BytesType =>
    case AsciiType =>
    case UTF8Type =>
    case Int32Type =>
    case IntegerType =>
    case LongType =>
    case UUIDType =>
    case DateType =>
    case BooleanType =>
    case FloatType =>
    case DoubleType =>
    case DecimalType =>
    case CounterColumnType =>
    case TimestampType =>
    case ListType =>
    case SetType =>
    case MapType =>
  }

  /** Distinct marshal classes have distinct simple names. */
  lemma SimpleNameInjective(a: MarshalType, b: MarshalType)
    ensures SimpleName(a) == SimpleName(b) <==> a == b
  {
    NameRoundTrip(a);
    NameRoundTrip(b);
  }

  /** A concrete Cassandra type: a marshal class by itself, or a collection
      type built around its parameters. */
  datatype Descriptor =
    | Simple(marshal: MarshalType)
    | ListOf(element: Descriptor)
    | SetOf(element: Descriptor)
    | MapOf(key: Descriptor, value: Descriptor)

  /** AbstractType.toString(): the qualified class name, followed for a
      collection by its parameters in parentheses, separated by commas. */
  function Render(d: Descriptor): string {
    match d
    case Simple(m) => QualifiedName(m)
    case ListOf(e) => QualifiedName(ListType) + "(" + Render(e) + ")"
    case SetOf(e) => QualifiedName(SetType) + "(" + Render(e) + ")"
    case MapOf(k, v) => QualifiedName(MapType) + "(" + Render(k) + "," + Render(v) + ")"
  }

  /** The SyntaxException / ConfigurationException that TypeParser.parse may
      throw, kept abstract: only the text that failed to parse is recorded. */
  datatype ParseError = ParseFailure(text: string)

  /** `new TypeParser(s).parse()` on a bare identifier: a known scalar class
      parses to itself; a collection class without parameters, or an unknown
      name, fails. */
  function ParseName(s: string): (r: Result<Descriptor, ParseError>)
    ensures r.Success? ==> r.value.Simple? && !IsCollection(r.value.marshal) && SimpleName(r.value.marshal) == s
    ensures r.Failure? ==> r.error == ParseFailure(s)
  {
    match MarshalOfName(s)
    case Some(m) => if IsCollection(m) then Failure(ParseFailure(s)) else Success(Simple(m))
    case None => Failure(ParseFailure(s))
  }

  /** The type parser accepts a bare name exactly when it is the simple name
      of a scalar marshal class, and then yields the class of that name. */
  lemma ParseNameSucceedsExactly(s: string)
    ensures ParseName(s).Success? <==> exists m :: !IsCollection(m) && SimpleName(m) == s
    ensures ParseName(s).Success? ==> ParseName(s).value.Simple? && SimpleName(ParseName(s).value.marshal) == s
  {
    if exists m :: !IsCollection(m) && SimpleName(m) == s {
      var m :| !IsCollection(m) && SimpleName(m) == s;
      NameRoundTrip(m);
    }
  }

  /** Parsing the simple name of a marshal class succeeds exactly for the
      scalar classes, and then yields that class. */
  lemma ParseSimpleName(m: MarshalType)
    ensures ParseName(SimpleName(m)) == if IsCollection(m) then Failure(ParseFailure(SimpleName(m))) else Success(Simple(m))
  {
    NameRoundTrip(m);
  }
}
