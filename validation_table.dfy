/** The mapper's table and lists as values: what the static initializer
    puts into them, the two override sets that the reset routines write, and
    the results a lookup, a name lookup and a value-type-name computation
    have in each mode. The class in module Mapper is proved against these. */
module ValidationTable {
  import opened HostTypes
  import opened MarshalTypes

  /** The table as the static initializer leaves it. */
  function InitialTable(): map<HostType, MarshalType> {
    map[
      StringClass := UTF8Type,
      CharacterClass := UTF8Type,
      CharPrim := UTF8Type,
      SqlTimeClass := DateType,
      IntegerClass := Int32Type,
      IntPrim := Int32Type,
      SqlTimestampClass := DateType,
      ShortClass := IntegerType,
      ShortPrim := IntegerType,
      BigDecimalClass := DecimalType,
      SqlDateClass := DateType,
      UtilDateClass := DateType,
      BigIntegerClass := IntegerType,
      DoubleClass := DoubleType,
      DoublePrim := DoubleType,
      BooleanPrim := BooleanType,
      BooleanClass := BooleanType,
      LongClass := LongType,
      LongPrim := LongType,
      ByteClass := BytesType,
      BytePrim := BytesType,
      FloatClass := FloatType,
      FloatPrim := FloatType,
      UuidClass := UUIDType,
      CalendarClass := DateType,
      ListClass := ListType,
      SetClass := SetType,
      MapClass := MapType
    ]
  }

  /** The eight host types whose entry the two reset routines rewrite. */
  function OverriddenKeys(): set<HostType> {
    {ByteClass, BytePrim, ShortClass, ShortPrim, SqlTimeClass, SqlDateClass, UtilDateClass, SqlTimestampClass}
  }

  /** The entries resetMapperForCQL3 writes when CQL3 is enabled. */
  function Cql3Overrides(): map<HostType, MarshalType> {
    map[
      ByteClass := Int32Type,
      BytePrim := Int32Type,
      ShortClass := Int32Type,
      ShortPrim := Int32Type,
      SqlTimeClass := TimestampType,
      SqlDateClass := TimestampType,
      UtilDateClass := TimestampType,
      SqlTimestampClass := TimestampType
    ]
  }

  /** The entries resetMapperForThrift writes when CQL3 is enabled. */
  function ThriftOverrides(): map<HostType, MarshalType> {
    map[
      ByteClass := BytesType,
      BytePrim := BytesType,
      ShortClass := IntegerType,
      ShortPrim := IntegerType,
      SqlTimeClass := DateType,
      SqlDateClass := DateType,
      UtilDateClass := DateType,
      SqlTimestampClass := DateType
    ]
  }

  /** One read of the table: the entry for t, or BytesType when t has none. */
  function Lookup(table: map<HostType, MarshalType>, t: HostType): MarshalType {
    if t in table then table[t] else BytesType
  }

  /** The table a lookup in the given mode reads: the resting table, with the
      CQL3 overrides written over it when CQL3 is enabled. */
  function ModeTable(cql3: bool): map<HostType, MarshalType> {
    if cql3 then InitialTable() + Cql3Overrides() else InitialTable()
  }

  /** What getValidationClassInstance returns for t in the given mode. */
  function Resolve(t: HostType, cql3: bool): MarshalType {
    Lookup(ModeTable(cql3), t)
  }

  /** Host type by host type, the marshal class each mode is meant to give:
      an independent statement of the mapping, grouped by kind of host type. */
  function Documented(t: HostType, cql3: bool): MarshalType {
    match t
    case StringClass | CharacterClass | CharPrim => UTF8Type
    case IntegerClass | IntPrim => Int32Type
    case ShortClass | ShortPrim => if cql3 then Int32Type else IntegerType
    case ByteClass | BytePrim => if cql3 then Int32Type else BytesType
    case LongClass | LongPrim => LongType
    case BigIntegerClass => IntegerType
    case BigDecimalClass => DecimalType
    case DoubleClass | DoublePrim => DoubleType
    case FloatClass | FloatPrim => FloatType
    case BooleanClass | BooleanPrim => BooleanType
    case UuidClass => UUIDType
    case SqlTimeClass | SqlDateClass | UtilDateClass | SqlTimestampClass =>
      if cql3 then TimestampType else DateType
    case CalendarClass => DateType
    case ListClass => ListType
    case SetClass => SetType
    case MapClass => MapType
    case OtherClass(_) => BytesType
  }

  /** The override maps rewrite exactly the eight overridden keys, all of
      which the initializer fills. */
  lemma OverrideKeys()
    ensures Cql3Overrides().Keys == OverriddenKeys()
    ensures ThriftOverrides().Keys == OverriddenKeys()
    ensures OverriddenKeys() <= InitialTable().Keys
  {
  }

  /** The three text entries (String, Character, char) hold UTF8Type. */
  lemma InitialTextEntries(t: HostType)
    requires t.StringClass? || t.CharacterClass? || t.CharPrim?
    ensures t in InitialTable() && InitialTable()[t] == Documented(t, false)
  {
  }

  /** The integer, decimal, date and time entries hold their documented classes. */
  lemma InitialNumberAndDateEntries(t: HostType)
    requires || t.SqlTimeClass? || t.IntegerClass? || t.IntPrim? || t.SqlTimestampClass?
             || t.ShortClass? || t.ShortPrim? || t.BigDecimalClass? || t.SqlDateClass?
             || t.UtilDateClass? || t.BigIntegerClass?
    ensures t in InitialTable() && InitialTable()[t] == Documented(t, false)
  {
  }

  /** The double, boolean, long and byte entries hold their documented classes. */
  lemma InitialPrimitiveEntries(t: HostType)
    requires || t.DoubleClass? || t.DoublePrim? || t.BooleanPrim? || t.BooleanClass?
             || t.LongClass? || t.LongPrim? || t.ByteClass? || t.BytePrim?
    ensures t in InitialTable() && InitialTable()[t] == Documented(t, false)
  {
  }

  /** The float, UUID, calendar and collection entries hold their documented classes. */
  lemma InitialRemainingEntries(t: HostType)
    requires || t.FloatClass? || t.FloatPrim? || t.UuidClass? || t.CalendarClass?
             || t.ListClass? || t.SetClass? || t.MapClass?
    ensures t in InitialTable() && InitialTable()[t] == Documented(t, false)
  {
  }

  /** Outside CQL3 mode every host type resolves to its documented class:
      the 28 host types through their entries, any other through the fallback. */
  lemma ThriftResolutionIsDocumented(t: HostType)
    ensures Resolve(t, false) == Documented(t, false)
  {
    if t.StringClass? || t.CharacterClass? || t.CharPrim? {
      InitialTextEntries(t);
    } else if || t.SqlTimeClass? || t.IntegerClass? || t.IntPrim? || t.SqlTimestampClass?
              || t.ShortClass? || t.ShortPrim? || t.BigDecimalClass? || t.SqlDateClass?
              || t.UtilDateClass? || t.BigIntegerClass? {
      InitialNumberAndDateEntries(t);
    } else if || t.DoubleClass? || t.DoublePrim? || t.BooleanPrim? || t.BooleanClass?
              || t.LongClass? || t.LongPrim? || t.ByteClass? || t.BytePrim? {
      InitialPrimitiveEntries(t);
    } else if || t.FloatClass? || t.FloatPrim? || t.UuidClass? || t.CalendarClass?
              || t.ListClass? || t.SetClass? || t.MapClass? {
      InitialRemainingEntries(t);
    } else {
      assert t.OtherClass?;
      assert t !in InitialTable();
    }
  }

  /** The CQL3 overrides hold the documented CQL3 classes. */
  lemma Cql3OverrideEntries(t: HostType)
    requires t in Cql3Overrides()
    ensures Cql3Overrides()[t] == Documented(t, true)
  {
  }

  /** Documented classes differ between the modes only on the overridden keys. */
  lemma DocumentedModesAgreeOutsideOverrides(t: HostType)
    requires t !in OverriddenKeys()
    ensures Documented(t, true) == Documented(t, false)
  {
  }

  /** On each overridden key the documented classes of the two modes differ. */
  lemma DocumentedModesDifferOnOverrides(t: HostType)
    requires t in OverriddenKeys()
    ensures Documented(t, true) != Documented(t, false)
  {
  }

  /** In CQL3 mode every host type resolves to its documented class: the
      overridden ones through the CQL3 overrides, the others as outside CQL3. */
  lemma Cql3ResolutionIsDocumented(t: HostType)
    ensures Resolve(t, true) == Documented(t, true)
  {
    OverrideKeys();
    if t in Cql3Overrides() {
      assert Resolve(t, true) == Cql3Overrides()[t];
      Cql3OverrideEntries(t);
    } else {
      assert Resolve(t, true) == Resolve(t, false);
      ThriftResolutionIsDocumented(t);
      DocumentedModesAgreeOutsideOverrides(t);
    }
  }

  /** Every host type resolves, in each mode, to its documented marshal class. */
  lemma ResolveIsDocumented(t: HostType, cql3: bool)
    ensures Resolve(t, cql3) == Documented(t, cql3)
  {
    if cql3 { Cql3ResolutionIsDocumented(t); } else { ThriftResolutionIsDocumented(t); }
  }

  /** A host type the table has no entry for resolves to BytesType in both modes. */
  lemma UnknownResolvesToBytes(t: HostType, cql3: bool)
    requires t !in InitialTable()
    ensures Resolve(t, cql3) == BytesType
  {
    OverrideKeys();
  }

  /** BytesType is the result exactly for host types the table does not
      know, and for the byte types outside CQL3 mode. */
  lemma ResolvesToBytesExactly(t: HostType, cql3: bool)
    ensures Resolve(t, cql3) == BytesType <==> t.OtherClass? || (!cql3 && (t == ByteClass || t == BytePrim))
  {
    ResolveIsDocumented(t, cql3);
  }

  /** The two modes disagree exactly on the eight overridden host types. */
  lemma ModesDifferExactlyOnOverrides(t: HostType)
    ensures Resolve(t, true) != Resolve(t, false) <==> t in OverriddenKeys()
  {
    ResolveIsDocumented(t, true);
    ResolveIsDocumented(t, false);
    if t in OverriddenKeys() {
      DocumentedModesDifferOnOverrides(t);
    } else {
      DocumentedModesAgreeOutsideOverrides(t);
    }
  }

  /** In CQL3 mode the byte and short types join the int types on Int32Type,
      and the four date and time types, alone, resolve to TimestampType. */
  lemma Cql3Resolution(t: HostType)
    ensures Resolve(t, true) == Int32Type <==> t in {IntegerClass, IntPrim, ByteClass, BytePrim, ShortClass, ShortPrim}
    ensures Resolve(t, true) == TimestampType <==> t in {SqlTimeClass, SqlDateClass, UtilDateClass, SqlTimestampClass}
  {
    ResolveIsDocumented(t, true);
  }

  /** Outside CQL3 mode no host type resolves to TimestampType. */
  lemma ThriftNeverTimestamp(t: HostType)
    ensures Resolve(t, false) != TimestampType
  {
    ResolveIsDocumented(t, false);
  }

  /** The Thrift values hold the documented classes outside CQL3 mode. */
  lemma ThriftOverrideEntries(t: HostType)
    requires t in ThriftOverrides()
    ensures ThriftOverrides()[t] == Documented(t, false)
  {
  }

  /** Writing overrides o over m and then restores r over the result gives m
      back when r covers the same keys as o and agrees with m on them. */
  lemma {:induction false} OverrideThenRestore(m: map<HostType, MarshalType>, o: map<HostType, MarshalType>, r: map<HostType, MarshalType>)
    requires o.Keys == r.Keys
    requires forall k :: k in r ==> k in m && m[k] == r[k]
    ensures (m + o) + r == m
  {
    var n := (m + o) + r;
    assert n.Keys == m.Keys;
    forall k | k in m ensures n[k] == m[k] {
      if k in r { assert n[k] == r[k]; } else { assert k !in o; }
    }
  }

  /** resetMapperForThrift writes back, on exactly the keys resetMapperForCQL3
      changed, the values the static initializer put there. */
  lemma ThriftRestoresInitialTable()
    ensures (InitialTable() + Cql3Overrides()) + ThriftOverrides() == InitialTable()
  {
    OverrideKeys();
    forall k | k in ThriftOverrides()
      ensures k in InitialTable() && InitialTable()[k] == ThriftOverrides()[k]
    {
      ThriftOverrideEntries(k);
      ThriftResolutionIsDocumented(k);
    }
    OverrideThenRestore(InitialTable(), Cql3Overrides(), ThriftOverrides());
  }

  /** A java.lang.IndexOutOfBoundsException from genericClasses.get(index),
      or a failure of Cassandra's type parser on an element's name. */
  datatype ValueTypeError = MissingGenericClass(index: nat) | UnparsableElement(error: ParseError)

  /** What getValueTypeName returns for host type t with generic argument
      classes generics: Class.toString of the resolved class, or for a List,
      Set or Map the rendering of the collection type built from the parsed
      names of its element classes, resolved in the same mode. */
  function ValueTypeName(t: HostType, generics: seq<HostType>, cql3: bool): Result<string, ValueTypeError> {
    var c := Resolve(t, cql3);
    if c == ListType || c == SetType then
      if |generics| < 1 then Failure(MissingGenericClass(0))
      else
        match ParseName(SimpleName(Resolve(generics[0], cql3)))
        case Failure(e) => Failure(UnparsableElement(e))
        case Success(d) => Success(Render(if c == ListType then ListOf(d) else SetOf(d)))
    else if c == MapType then
      if |generics| < 2 then Failure(MissingGenericClass(|generics|))
      else
        match ParseName(SimpleName(Resolve(generics[0], cql3)))
        case Failure(e) => Failure(UnparsableElement(e))
        case Success(kd) =>
          match ParseName(SimpleName(Resolve(generics[1], cql3)))
          case Failure(e) => Failure(UnparsableElement(e))
          case Success(vd) => Success(Render(MapOf(kd, vd)))
    else Success(ClassToString(c))
  }

  /** A host type that does not resolve to a collection yields the string
      form of its own marshal class, whatever the generic arguments. */
  lemma ValueTypeNameOfScalar(t: HostType, generics: seq<HostType>, cql3: bool)
    requires !IsCollection(Resolve(t, cql3))
    ensures ValueTypeName(t, generics, cql3) == Success(ClassToString(Resolve(t, cql3)))
  {
  }

  /** A List yields the list type over the descriptor of its first generic
      argument's marshal class, resolved in the same mode. */
  lemma ValueTypeNameOfList(t: HostType, generics: seq<HostType>, cql3: bool)
    requires Resolve(t, cql3) == ListType
    requires |generics| >= 1 && !IsCollection(Resolve(generics[0], cql3))
    ensures ValueTypeName(t, generics, cql3) == Success(Render(ListOf(Simple(Resolve(generics[0], cql3)))))
  {
    ParseSimpleName(Resolve(generics[0], cql3));
  }

  /** A Set yields the set type over the descriptor of its first generic
      argument's marshal class, resolved in the same mode. */
  lemma ValueTypeNameOfSet(t: HostType, generics: seq<HostType>, cql3: bool)
    requires Resolve(t, cql3) == SetType
    requires |generics| >= 1 && !IsCollection(Resolve(generics[0], cql3))
    ensures ValueTypeName(t, generics, cql3) == Success(Render(SetOf(Simple(Resolve(generics[0], cql3)))))
  {
    ParseSimpleName(Resolve(generics[0], cql3));
  }

  /** A Map yields the map type whose key is the first generic argument and
      whose value is the second, in that order. */
  lemma ValueTypeNameOfMap(t: HostType, generics: seq<HostType>, cql3: bool)
    requires Resolve(t, cql3) == MapType
    requires |generics| >= 2
    requires !IsCollection(Resolve(generics[0], cql3)) && !IsCollection(Resolve(generics[1], cql3))
    ensures ValueTypeName(t, generics, cql3) ==
            Success(Render(MapOf(Simple(Resolve(generics[0], cql3)), Simple(Resolve(generics[1], cql3)))))
  {
    ParseSimpleName(Resolve(generics[0], cql3));
    ParseSimpleName(Resolve(generics[1], cql3));
  }

  /** For a Map, getValueTypeName fails exactly when fewer than two generic
      arguments are given or the key or value class resolves to a collection. */
  lemma MapValueTypeNameFails(t: HostType, generics: seq<HostType>, cql3: bool)
    requires Resolve(t, cql3) == MapType
    ensures ValueTypeName(t, generics, cql3).Failure? <==>
            |generics| < 2 || IsCollection(Resolve(generics[0], cql3)) || IsCollection(Resolve(generics[1], cql3))
  {
    if |generics| >= 2 {
      ParseSimpleName(Resolve(generics[0], cql3));
      ParseSimpleName(Resolve(generics[1], cql3));
    }
  }

  /** For a List or Set, getValueTypeName fails exactly when no generic
      argument is given or the element class resolves to a collection. */
  lemma ListOrSetValueTypeNameFails(t: HostType, generics: seq<HostType>, cql3: bool)
    requires Resolve(t, cql3) == ListType || Resolve(t, cql3) == SetType
    ensures ValueTypeName(t, generics, cql3).Failure? <==>
            |generics| < 1 || IsCollection(Resolve(generics[0], cql3))
  {
    if |generics| >= 1 {
      ParseSimpleName(Resolve(generics[0], cql3));
    }
  }

  /** A list of Integer, outside CQL3 mode, is the list type of Int32Type. */
  lemma ListOfIntegerExample()
    ensures ValueTypeName(ListClass, [IntegerClass], false) == Success(Render(ListOf(Simple(Int32Type))))
  {
    ValueTypeNameOfList(ListClass, [IntegerClass], false);
  }

  /** A map from String to Long, in CQL3 mode, is the map type of UTF8Type to LongType. */
  lemma MapOfStringToLongExample()
    ensures ValueTypeName(MapClass, [StringClass, LongClass], true) ==
            Success(Render(MapOf(Simple(UTF8Type), Simple(LongType))))
  {
    var generics := [StringClass, LongClass];
    assert Resolve(generics[0], true) == UTF8Type;
    assert Resolve(generics[1], true) == LongType;
    ValueTypeNameOfMap(MapClass, generics, true);
  }

  /** In CQL3 mode the element classes are resolved in CQL3 mode too: a set
      of Short is the set type of Int32Type ... */
  lemma SetOfShortCql3Example()
    ensures ValueTypeName(SetClass, [ShortClass], true) == Success(Render(SetOf(Simple(Int32Type))))
  {
    ValueTypeNameOfSet(SetClass, [ShortClass], true);
  }

  /** ... and outside CQL3 mode the set type of IntegerType. */
  lemma SetOfShortThriftExample()
    ensures ValueTypeName(SetClass, [ShortClass], false) == Success(Render(SetOf(Simple(IntegerType))))
  {
    ValueTypeNameOfSet(SetClass, [ShortClass], false);
  }

  /** Class.getName() of the two replication strategies the mapper knows. */
  const SimpleStrategyName: string := "org.apache.cassandra.locator.SimpleStrategy"
  const NetworkTopologyStrategyName: string := "org.apache.cassandra.locator.NetworkTopologyStrategy"

  /** The replication strategy list as the static initializer fills it. */
  function ReplicationStrategies(): seq<string> {
    [SimpleStrategyName, NetworkTopologyStrategyName]
  }

  /** The marshal classes of the validator and comparator list, in the order
      the static initializer adds them. */
  function ValidatorTypes(): seq<MarshalType> {
    [BytesType, AsciiType, UTF8Type, Int32Type, IntegerType, LongType, UUIDType,
     DateType, BooleanType, FloatType, DoubleType, DecimalType, CounterColumnType]
  }

  /** The validator and comparator list: the simple names of ValidatorTypes. */
  function ValidatorsAndComparators(): seq<string> {
    seq(|ValidatorTypes()|, i requires 0 <= i < |ValidatorTypes()| => SimpleName(ValidatorTypes()[i]))
  }

  /** The list as literal names: thirteen of them, BytesType first and
      CounterColumnType last. */
  lemma ValidatorNames()
    ensures ValidatorsAndComparators() ==
            ["BytesType", "AsciiType", "UTF8Type", "Int32Type", "IntegerType", "LongType", "UUIDType",
             "DateType", "BooleanType", "FloatType", "DoubleType", "DecimalType", "CounterColumnType"]
  {
  }

  /** The list names exactly the scalar marshal classes other than
      TimestampType. */
  lemma ValidatorsAndComparatorsExactly(m: MarshalType)
    ensures SimpleName(m) in ValidatorsAndComparators() <==> !IsCollection(m) && m != TimestampType
  {
    var v, ts := ValidatorsAndComparators(), ValidatorTypes();
    assert m in ts <==> !IsCollection(m) && m != TimestampType;
    if SimpleName(m) in v {
      var i :| 0 <= i < |v| && v[i] == SimpleName(m);
      SimpleNameInjective(m, ts[i]);
    }
    if m in ts {
      assert |v| == |ts|;
      var i :| 0 <= i < |ts| && ts[i] == m;
      assert v[i] == SimpleName(m);
    }
  }
}
