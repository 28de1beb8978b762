# Cassandra validation class mapper, modelled in Dafny

This project models Kundera's `CassandraValidationClassMapper`. The class maps
the Java type of an entity attribute to the Cassandra marshal class (the
column "validation class") used for it.

Its state is static and set up once by a static initializer:

- a `HashMap` from Java class to marshal class, with 28 entries;
- the two known replication strategies;
- the thirteen known validator and comparator names.

Every lookup (`getValidationClassInstance`) runs three steps on the shared map:

1. With CQL3 enabled, `resetMapperForCQL3` overwrites eight entries. The
   byte and short types get `Int32Type`. The four date and time types get
   `TimestampType`.
2. The map is read. `BytesType` is the fallback for a class with no entry.
3. With CQL3 enabled, `resetMapperForThrift` writes the Thrift values back.

`getValidationClass` returns the simple name of the result.
`getValueTypeName` builds a collection type for `List`, `Set` and `Map` from
the resolved names of the generic argument classes.

The project has four modules:

- `MarshalTypes` (`marshal_types.dfy`) holds the marshal classes and their
  names. It also holds an abstract descriptor datatype, with `Render` and a
  bare-name parser `ParseName`. These stand in for Cassandra's `TypeParser`,
  for `ListType`/`SetType`/`MapType.getInstance` and for their `toString`.
- `HostTypes` (`host_types.dfy`) holds the Java classes the table knows,
  plus `OtherClass(name)` for every other class.
- `ValidationTable` (`validation_table.dfy`) is the specification, written
  as values:
  - the initial table and the two override maps;
  - `Resolve`, the result of a lookup in each mode;
  - `Documented`, an independent per-type statement of the mapping;
  - `ValueTypeName`, the result of `getValueTypeName`;
  - the two lists;
  - the lemmas relating all of these.
- `Mapper` (`mapper.dfy`) holds the class `ValidationClassMapper`:
  - a `table: map` field and the two list fields;
  - the static initializer as its constructor;
  - the two reset routines as methods that update `table` in place;
  - the lookups as methods proved against `ValidationTable`.

  `Valid()` says the table and lists hold their post-initializer contents.
  Every lookup requires `Valid()` and ensures it again. This is the property
  that a lookup in either mode leaves the table as it found it.

Two places where the code differs from a plain reading of the design:

- When the resolved class is not a collection, `getValueTypeName` returns
  Java's `Class.toString()` of it. That is `"class "` followed by the
  qualified name. A collection instead yields Cassandra's `AbstractType`
  form, the qualified name with parameters in parentheses. The model
  follows the code (`ClassToString` against `Render`).
- Element classes are resolved in the caller's mode. A `Set<Short>` under
  CQL3 therefore becomes a set of `Int32Type`.

## Model

| member | source | states |
|---|---|---|
| `MarshalTypes.MarshalOfName` | src/kundera-cassandra/cassandra-core/src/main/java/com/impetus/client/cassandra/schemamanager/CassandraValidationClassMapper.java:160-161 | the class the type parser finds for a bare name, when it finds one, has that simple name |
| `MarshalTypes.NameRoundTrip` | src/kundera-cassandra/cassandra-core/src/main/java/com/impetus/client/cassandra/schemamanager/CassandraValidationClassMapper.java:134 | looking up the simple name of any marshal class finds that same class again |
| `MarshalTypes.SimpleNameInjective` | src/kundera-cassandra/cassandra-core/src/main/java/com/impetus/client/cassandra/schemamanager/CassandraValidationClassMapper.java:134 | two marshal classes have the same simple name if and only if they are the same class |
| `MarshalTypes.ParseName` | src/kundera-cassandra/cassandra-core/src/main/java/com/impetus/client/cassandra/schemamanager/CassandraValidationClassMapper.java:160-172 | a successful parse of an element name yields a scalar marshal class whose simple name is that name; a failed parse reports the text it could not parse |
| `MarshalTypes.ParseSimpleName` | src/kundera-cassandra/cassandra-core/src/main/java/com/impetus/client/cassandra/schemamanager/CassandraValidationClassMapper.java:160-172 | parsing the simple name of a scalar class gives that class; parsing a bare `ListType`, `SetType` or `MapType` fails |
| `MarshalTypes.ParseNameSucceedsExactly` | src/kundera-cassandra/cassandra-core/src/main/java/com/impetus/client/cassandra/schemamanager/CassandraValidationClassMapper.java:160-172 | the type parser accepts an element name if and only if it is the simple name of some scalar marshal class, and then yields the class of that name |
| `ValidationTable.OverrideKeys` | src/kundera-cassandra/cassandra-core/src/main/java/com/impetus/client/cassandra/schemamanager/CassandraValidationClassMapper.java:190-219 | both reset routines write exactly the same eight keys, and the initializer fills all eight |
| `ValidationTable.InitialTextEntries` | src/kundera-cassandra/cassandra-core/src/main/java/com/impetus/client/cassandra/schemamanager/CassandraValidationClassMapper.java:86-88 | `String`, `Character` and `char` have entries, and each holds `UTF8Type` |
| `ValidationTable.InitialNumberAndDateEntries` | src/kundera-cassandra/cassandra-core/src/main/java/com/impetus/client/cassandra/schemamanager/CassandraValidationClassMapper.java:90-99 | `Integer`/`int` hold `Int32Type`; `Short`/`short` and `BigInteger` hold `IntegerType`; `BigDecimal` holds `DecimalType`; the SQL time, timestamp and date types and `java.util.Date` hold `DateType` |
| `ValidationTable.InitialPrimitiveEntries` | src/kundera-cassandra/cassandra-core/src/main/java/com/impetus/client/cassandra/schemamanager/CassandraValidationClassMapper.java:101-111 | the double, boolean and long types hold `DoubleType`, `BooleanType` and `LongType`; `Byte`/`byte` hold `BytesType` |
| `ValidationTable.InitialRemainingEntries` | src/kundera-cassandra/cassandra-core/src/main/java/com/impetus/client/cassandra/schemamanager/CassandraValidationClassMapper.java:113-122 | the float types hold `FloatType`, `UUID` holds `UUIDType`, `Calendar` holds `DateType`, and `List`, `Set`, `Map` hold `ListType`, `SetType`, `MapType` |
| `ValidationTable.ThriftResolutionIsDocumented` | src/kundera-cassandra/cassandra-core/src/main/java/com/impetus/client/cassandra/schemamanager/CassandraValidationClassMapper.java:86-145 | with CQL3 off, every host type resolves to its documented class, through its entry or through the fallback |
| `ValidationTable.Cql3OverrideEntries` | src/kundera-cassandra/cassandra-core/src/main/java/com/impetus/client/cassandra/schemamanager/CassandraValidationClassMapper.java:194-201 | each value the CQL3 reset writes is the documented CQL3 class of its key |
| `ValidationTable.DocumentedModesAgreeOutsideOverrides` | src/kundera-cassandra/cassandra-core/src/main/java/com/impetus/client/cassandra/schemamanager/CassandraValidationClassMapper.java:190-203 | outside the eight overridden keys, the documented class is the same in both modes |
| `ValidationTable.DocumentedModesDifferOnOverrides` | src/kundera-cassandra/cassandra-core/src/main/java/com/impetus/client/cassandra/schemamanager/CassandraValidationClassMapper.java:194-217 | on each of the eight overridden keys, the documented CQL3 class differs from the Thrift one |
| `ValidationTable.Cql3ResolutionIsDocumented` | src/kundera-cassandra/cassandra-core/src/main/java/com/impetus/client/cassandra/schemamanager/CassandraValidationClassMapper.java:139-145 | with CQL3 on, every host type resolves to its documented CQL3 class |
| `ValidationTable.ResolveIsDocumented` | src/kundera-cassandra/cassandra-core/src/main/java/com/impetus/client/cassandra/schemamanager/CassandraValidationClassMapper.java:137-148 | in either mode, the lookup result equals the independent per-type mapping `Documented` |
| `ValidationTable.UnknownResolvesToBytes` | src/kundera-cassandra/cassandra-core/src/main/java/com/impetus/client/cassandra/schemamanager/CassandraValidationClassMapper.java:141-145 | a host type with no entry resolves to `BytesType` in both modes, and nothing fails |
| `ValidationTable.ResolvesToBytesExactly` | src/kundera-cassandra/cassandra-core/src/main/java/com/impetus/client/cassandra/schemamanager/CassandraValidationClassMapper.java:110-145 | the result is `BytesType` if and only if the host type is unknown, or is `Byte`/`byte` with CQL3 off |
| `ValidationTable.ModesDifferExactlyOnOverrides` | src/kundera-cassandra/cassandra-core/src/main/java/com/impetus/client/cassandra/schemamanager/CassandraValidationClassMapper.java:190-219 | the two modes give different results if and only if the host type is one of the eight overridden keys, so `Calendar`, the text types and the collections resolve the same in both |
| `ValidationTable.Cql3Resolution` | src/kundera-cassandra/cassandra-core/src/main/java/com/impetus/client/cassandra/schemamanager/CassandraValidationClassMapper.java:194-201 | with CQL3 on, the result is `Int32Type` exactly for the int, byte and short types, and `TimestampType` exactly for the four date and time types |
| `ValidationTable.ThriftNeverTimestamp` | src/kundera-cassandra/cassandra-core/src/main/java/com/impetus/client/cassandra/schemamanager/CassandraValidationClassMapper.java:86-122 | with CQL3 off, no host type resolves to `TimestampType` |
| `ValidationTable.ThriftOverrideEntries` | src/kundera-cassandra/cassandra-core/src/main/java/com/impetus/client/cassandra/schemamanager/CassandraValidationClassMapper.java:210-217 | each value the Thrift reset writes is the documented Thrift class of its key |
| `ValidationTable.OverrideThenRestore` | src/kundera-cassandra/cassandra-core/src/main/java/com/impetus/client/cassandra/schemamanager/CassandraValidationClassMapper.java:139-146 | writing overrides and then restoring values gives back the original map, provided the restore covers the same keys and writes back the original values |
| `ValidationTable.ThriftRestoresInitialTable` | src/kundera-cassandra/cassandra-core/src/main/java/com/impetus/client/cassandra/schemamanager/CassandraValidationClassMapper.java:206-219 | the initial table with the CQL3 overrides and then the Thrift values written over it equals the initial table |
| `ValidationTable.ValueTypeNameOfScalar` | src/kundera-cassandra/cassandra-core/src/main/java/com/impetus/client/cassandra/schemamanager/CassandraValidationClassMapper.java:155-157 | a host type that resolves to a non-collection yields `Class.toString()` of its class, whatever the generic arguments |
| `ValidationTable.ValueTypeNameOfList` | src/kundera-cassandra/cassandra-core/src/main/java/com/impetus/client/cassandra/schemamanager/CassandraValidationClassMapper.java:158-162 | a `List` yields the rendered list type over the class of `genericClasses[0]`, resolved in the same mode |
| `ValidationTable.ValueTypeNameOfSet` | src/kundera-cassandra/cassandra-core/src/main/java/com/impetus/client/cassandra/schemamanager/CassandraValidationClassMapper.java:163-167 | a `Set` yields the rendered set type over the class of `genericClasses[0]`, resolved in the same mode |
| `ValidationTable.ValueTypeNameOfMap` | src/kundera-cassandra/cassandra-core/src/main/java/com/impetus/client/cassandra/schemamanager/CassandraValidationClassMapper.java:168-173 | a `Map` yields the rendered map type, with `genericClasses[0]` as key and `genericClasses[1]` as value, in that order |
| `ValidationTable.ListOrSetValueTypeNameFails` | src/kundera-cassandra/cassandra-core/src/main/java/com/impetus/client/cassandra/schemamanager/CassandraValidationClassMapper.java:158-167 | for a `List` or `Set`, the result is a failure if and only if no generic argument is given or the element resolves to a collection |
| `ValidationTable.MapValueTypeNameFails` | src/kundera-cassandra/cassandra-core/src/main/java/com/impetus/client/cassandra/schemamanager/CassandraValidationClassMapper.java:168-173 | for a `Map`, the result is a failure if and only if fewer than two generic arguments are given, or the key or the value resolves to a collection |
| `ValidationTable.ListOfIntegerExample` | src/kundera-cassandra/cassandra-core/src/main/java/com/impetus/client/cassandra/schemamanager/CassandraValidationClassMapper.java:158-162 | `List<Integer>` with CQL3 off renders as the list type of `Int32Type` |
| `ValidationTable.MapOfStringToLongExample` | src/kundera-cassandra/cassandra-core/src/main/java/com/impetus/client/cassandra/schemamanager/CassandraValidationClassMapper.java:168-173 | `Map<String, Long>` with CQL3 on renders as the map type of `UTF8Type` to `LongType` |
| `ValidationTable.SetOfShortCql3Example` | src/kundera-cassandra/cassandra-core/src/main/java/com/impetus/client/cassandra/schemamanager/CassandraValidationClassMapper.java:163-167 | `Set<Short>` with CQL3 on renders as the set type of `Int32Type` |
| `ValidationTable.SetOfShortThriftExample` | src/kundera-cassandra/cassandra-core/src/main/java/com/impetus/client/cassandra/schemamanager/CassandraValidationClassMapper.java:163-167 | `Set<Short>` with CQL3 off renders as the set type of `IntegerType` |
| `ValidationTable.ValidatorNames` | src/kundera-cassandra/cassandra-core/src/main/java/com/impetus/client/cassandra/schemamanager/CassandraValidationClassMapper.java:71-83 | the validator list is exactly the thirteen names `BytesType`, `AsciiType`, `UTF8Type`, `Int32Type`, `IntegerType`, `LongType`, `UUIDType`, `DateType`, `BooleanType`, `FloatType`, `DoubleType`, `DecimalType`, `CounterColumnType`, in that order |
| `ValidationTable.ValidatorsAndComparatorsExactly` | src/kundera-cassandra/cassandra-core/src/main/java/com/impetus/client/cassandra/schemamanager/CassandraValidationClassMapper.java:71-83 | a marshal class's name is in the validator list if and only if the class is scalar and is not `TimestampType` |
| `Mapper.ValidationClassMapper.constructor` | src/kundera-cassandra/cassandra-core/src/main/java/com/impetus/client/cassandra/schemamanager/CassandraValidationClassMapper.java:64-123 | the static initializer leaves the table and both lists in their resting state |
| `Mapper.ValidationClassMapper.ResetMapperForCql3` | src/kundera-cassandra/cassandra-core/src/main/java/com/impetus/client/cassandra/schemamanager/CassandraValidationClassMapper.java:190-204 | with CQL3 on, the new table is the old one with the eight CQL3 overrides written over it; with CQL3 off, it is unchanged |
| `Mapper.ValidationClassMapper.ResetMapperForThrift` | src/kundera-cassandra/cassandra-core/src/main/java/com/impetus/client/cassandra/schemamanager/CassandraValidationClassMapper.java:206-219 | with CQL3 on, the new table is the old one with the eight Thrift values written over it; with CQL3 off, it is unchanged |
| `Mapper.ValidationClassMapper.GetValidationClassInstance` | src/kundera-cassandra/cassandra-core/src/main/java/com/impetus/client/cassandra/schemamanager/CassandraValidationClassMapper.java:137-148 | returns the documented class for the host type and mode, and leaves the table equal to its post-initializer contents |
| `Mapper.ValidationClassMapper.GetValidationClass` | src/kundera-cassandra/cassandra-core/src/main/java/com/impetus/client/cassandra/schemamanager/CassandraValidationClassMapper.java:132-135 | returns the simple name of the class the lookup gives for the same arguments, and leaves the table at rest |
| `Mapper.ValidationClassMapper.GetValueTypeName` | src/kundera-cassandra/cassandra-core/src/main/java/com/impetus/client/cassandra/schemamanager/CassandraValidationClassMapper.java:150-175 | returns `ValueTypeName` for its arguments, including the index and parse failures, and leaves the table at rest |
| `Mapper.ValidationClassMapper.GetReplicationStrategies` | src/kundera-cassandra/cassandra-core/src/main/java/com/impetus/client/cassandra/schemamanager/CassandraValidationClassMapper.java:177-180 | returns exactly `SimpleStrategy` then `NetworkTopologyStrategy` |
| `Mapper.ValidationClassMapper.GetValidatorsAndComparators` | src/kundera-cassandra/cassandra-core/src/main/java/com/impetus/client/cassandra/schemamanager/CassandraValidationClassMapper.java:185-188 | returns the thirteen names in declaration order, from `BytesType` to `CounterColumnType`, without `TimestampType` |
| `Mapper.ThriftLookupAfterCql3Lookup` | src/kundera-cassandra/cassandra-core/src/main/java/com/impetus/client/cassandra/schemamanager/CassandraValidationClassMapper.java:137-148 | a lookup with CQL3 off after a lookup with CQL3 on gets the Thrift class, because the first lookup restored the table |

## Left out

- Java reflection and `Class<?>` identity. These are replaced by the finite datatypes `HostType` and `MarshalType`. A class outside the table is `OtherClass(name)`, identified by its name. A `null` data type is not modelled.
- The concurrency hazard. The static map is shared and mutated in place with no lock, so concurrent callers can see each other's overrides. Only the single-threaded override, lookup and restore sequence is modelled.
- Cassandra's `TypeParser`, `ListType`/`SetType`/`MapType.getInstance` and their `toString` are foreign library code. They stand in as the `Descriptor` datatype, `ParseName` and `Render`. `ParseName` is defined here on bare names only, which are the only input the mapper gives it. The rendering follows Cassandra's format of qualified name and parenthesised parameters, but nothing here checks it against Cassandra's own code.
- `SyntaxException` and `ConfigurationException` are one abstract `ParseFailure`. Java's `IndexOutOfBoundsException` from `genericClasses.get(i)` is `MissingGenericClass(i)`. Both are `Failure` results, not exceptions.
- Qualified class names such as `SimpleStrategy.class.getName()` are string constants. Marshal class names are built from the package name and the simple name.
- `Mapper.ValidationClassMapper.GetReplicationStrategies` and `Mapper.ValidationClassMapper.GetValidatorsAndComparators` return the lists as values. The Java methods return the mutable list objects themselves, so a caller could alter the shared lists. That aliasing is not modelled, so `Valid()` assumes the lists stay as the initializer left them.
