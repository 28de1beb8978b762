/** The validation class mapper itself: one object stands for the class's
    static state (the table and the two lists), its constructor for the
    static initializer, and its methods for the static methods, which
    rewrite the table in place around every lookup. */
module Mapper {
  import opened HostTypes
  import opened MarshalTypes
  import opened ValidationTable

  class ValidationClassMapper {
    var table: map<HostType, MarshalType>
    var replicationStrategies: seq<string>
    var validatorsAndComparators: seq<string>

    /** The resting state: the table and lists hold what the static
        initializer put there. Every public method keeps it. */
    ghost predicate Valid()
      reads this
    {
      && table == InitialTable()
      && replicationStrategies == ReplicationStrategies()
      && validatorsAndComparators == ValidatorsAndComparators()
    }

    /** The static initializer: fill both lists, then the table. */
    constructor ()
      ensures Valid()
    {
      var strategies: seq<string> := [];
      strategies := strategies + [SimpleStrategyName];
      strategies := strategies + [NetworkTopologyStrategyName];
      assert strategies == ReplicationStrategies();
      replicationStrategies := strategies;

      var validators: seq<string> := [];
      validators := validators + [SimpleName(BytesType)];
      validators := validators + [SimpleName(AsciiType)];
      validators := validators + [SimpleName(UTF8Type)];
      validators := validators + [SimpleName(Int32Type)];
      validators := validators + [SimpleName(IntegerType)];
      validators := validators + [SimpleName(LongType)];
      validators := validators + [SimpleName(UUIDType)];
      validators := validators + [SimpleName(DateType)];
      validators := validators + [SimpleName(BooleanType)];
      validators := validators + [SimpleName(FloatType)];
      validators := validators + [SimpleName(DoubleType)];
      validators := validators + [SimpleName(DecimalType)];
      validators := validators + [SimpleName(CounterColumnType)];
      assert validators == ValidatorsAndComparators();
      validatorsAndComparators := validators;

      var m: map<HostType, MarshalType> := map[];
      m := m[StringClass := UTF8Type];
      m := m[CharacterClass := UTF8Type];
      m := m[CharPrim := UTF8Type];
      m := m[SqlTimeClass := DateType];
      m := m[IntegerClass := Int32Type];
      m := m[IntPrim := Int32Type];
      m := m[SqlTimestampClass := DateType];
      m := m[ShortClass := IntegerType];
      m := m[ShortPrim := IntegerType];
      m := m[BigDecimalClass := DecimalType];
      m := m[SqlDateClass := DateType];
      m := m[UtilDateClass := DateType];
      m := m[BigIntegerClass := IntegerType];
      m := m[DoubleClass := DoubleType];
      m := m[DoublePrim := DoubleType];
      m := m[BooleanPrim := BooleanType];
      m := m[BooleanClass := BooleanType];
      m := m[LongClass := LongType];
      m := m[LongPrim := LongType];
      m := m[ByteClass := BytesType];
      m := m[BytePrim := BytesType];
      m := m[FloatClass := FloatType];
      m := m[FloatPrim := FloatType];
      m := m[UuidClass := UUIDType];
      m := m[CalendarClass := DateType];
      m := m[ListClass := ListType];
      m := m[SetClass := SetType];
      m := m[MapClass := MapType];
      assert m == InitialTable();
      table := m;
    }

    /** resetMapperForCQL3: with CQL3 enabled, write the CQL3 overrides into
        the table; otherwise leave it alone. */
    method ResetMapperForCql3(isCql3Enabled: bool)
      modifies this`table
      ensures table == if isCql3Enabled then old(table) + Cql3Overrides() else old(table)
    {
      if isCql3Enabled {
        var m := table;
        m := m[ByteClass := Int32Type];
        m := m[BytePrim := Int32Type];
        m := m[ShortClass := Int32Type];
        m := m[ShortPrim := Int32Type];
        m := m[SqlTimeClass := TimestampType];
        m := m[SqlDateClass := TimestampType];
        m := m[UtilDateClass := TimestampType];
        m := m[SqlTimestampClass := TimestampType];
        table := m;
      }
    }

    /** resetMapperForThrift: with CQL3 enabled, write the Thrift values back
        into the table; otherwise leave it alone. */
    method ResetMapperForThrift(isCql3Enabled: bool)
      modifies this`table
      ensures table == if isCql3Enabled then old(table) + ThriftOverrides() else old(table)
    {
      if isCql3Enabled {
        var m := table;
        m := m[ByteClass := BytesType];
        m := m[BytePrim := BytesType];
        m := m[ShortClass := IntegerType];
        m := m[ShortPrim := IntegerType];
        m := m[SqlTimeClass := DateType];
        m := m[SqlDateClass := DateType];
        m := m[UtilDateClass := DateType];
        m := m[SqlTimestampClass := DateType];
        table := m;
      }
    }

    /** getValidationClassInstance: override for CQL3, read the table with
        BytesType as the fallback, restore the Thrift values. The result is
        the documented class for the mode, and the table is back at rest. */
    method GetValidationClassInstance(dataType: HostType, isCql3Enabled: bool) returns (validationClass: MarshalType)
      requires Valid()
      modifies this`table
      ensures Valid()
      ensures table == old(table)
      ensures validationClass == Resolve(dataType, isCql3Enabled)
      ensures validationClass == Documented(dataType, isCql3Enabled)
    {
      ResetMapperForCql3(isCql3Enabled);
      assert table == ModeTable(isCql3Enabled);
      if dataType in table {
        validationClass := table[dataType];
      } else {
        validationClass := BytesType;
      }
      ResetMapperForThrift(isCql3Enabled);
      ThriftRestoresInitialTable();
      ResolveIsDocumented(dataType, isCql3Enabled);
    }

    /** getValidationClass: the simple name of the class
        getValidationClassInstance returns for the same arguments. */
    method GetValidationClass(dataType: HostType, isCql3Enabled: bool) returns (name: string)
      requires Valid()
      modifies this`table
      ensures Valid()
      ensures table == old(table)
      ensures name == SimpleName(Resolve(dataType, isCql3Enabled))
    {
      var validationClass := GetValidationClassInstance(dataType, isCql3Enabled);
      name := SimpleName(validationClass);
    }

    /** getValueTypeName: the string form of the resolved class, or for a
        List, Set or Map the collection type built from its element classes;
        an exception of the source is a Failure here. */
    method GetValueTypeName(dataType: HostType, genericClasses: seq<HostType>, isCql3Enabled: bool)
      returns (valueType: Result<string, ValueTypeError>)
      requires Valid()
      modifies this`table
      ensures Valid()
      ensures table == old(table)
      ensures valueType == ValueTypeName(dataType, genericClasses, isCql3Enabled)
    {
      var validationClass := GetValidationClassInstance(dataType, isCql3Enabled);
      valueType := Success(ClassToString(validationClass));
      if validationClass == ListType || validationClass == SetType {
        if |genericClasses| < 1 {
          return Failure(MissingGenericClass(0));
        }
        var name := GetValidationClass(genericClasses[0], isCql3Enabled);
        match ParseName(name)
        case Failure(e) =>
          return Failure(UnparsableElement(e));
        case Success(d) =>
          if validationClass == ListType {
            valueType := Success(Render(ListOf(d)));
          } else {
            valueType := Success(Render(SetOf(d)));
          }
      } else if validationClass == MapType {
        if |genericClasses| < 1 {
          return Failure(MissingGenericClass(0));
        }
        var keyName := GetValidationClass(genericClasses[0], isCql3Enabled);
        if |genericClasses| < 2 {
          return Failure(MissingGenericClass(1));
        }
        var valueName := GetValidationClass(genericClasses[1], isCql3Enabled);
        match ParseName(keyName)
        case Failure(e) =>
          return Failure(UnparsableElement(e));
        case Success(kd) =>
          match ParseName(valueName)
          case Failure(e) =>
            return Failure(UnparsableElement(e));
          case Success(vd) =>
            valueType := Success(Render(MapOf(kd, vd)));
      }
    }

    /** getReplicationStrategies: the two known strategy class names, in order. */
    method GetReplicationStrategies() returns (strategies: seq<string>)
      requires Valid()
      ensures strategies == [SimpleStrategyName, NetworkTopologyStrategyName]
    {
      strategies := replicationStrategies;
    }

    /** getValidatorsAndComparators: the thirteen known validator names, in
        declaration order from BytesType to CounterColumnType. */
    method GetValidatorsAndComparators() returns (names: seq<string>)
      requires Valid()
      ensures |names| == 13
      ensures names[0] == "BytesType" && names[12] == "CounterColumnType"
      ensures forall i :: 0 <= i < |names| ==> names[i] == SimpleName(ValidatorTypes()[i])
      ensures "TimestampType" !in names
    {
      names := validatorsAndComparators;
      ValidatorsAndComparatorsExactly(TimestampType);
    }
  }

  /** A CQL3 lookup followed by a Thrift lookup: the second sees the Thrift
      table, whatever the first overrode. */
  method ThriftLookupAfterCql3Lookup(mapper: ValidationClassMapper, first: HostType, second: HostType)
    returns (cql3Class: MarshalType, thriftClass: MarshalType)
    requires mapper.Valid()
    modifies mapper`table
    ensures mapper.Valid()
    ensures cql3Class == Documented(first, true)
    ensures thriftClass == Documented(second, false)
  {
    cql3Class := mapper.GetValidationClassInstance(first, true);
    thriftClass := mapper.GetValidationClassInstance(second, false);
  }
}
