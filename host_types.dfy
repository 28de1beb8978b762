/** The Java classes an entity attribute can have, as far as the validation
    class mapper distinguishes them. Java's Class<?> identity is replaced by
    one constructor per class the mapper's table mentions, boxed and
    primitive kept apart, and OtherClass for every other class. */
module HostTypes {

  datatype HostType =
    | StringClass        // java.lang.String
    | CharacterClass     // java.lang.Character
    | CharPrim           // char
    | SqlTimeClass       // java.sql.Time
    | IntegerClass       // java.lang.Integer
    | IntPrim            // int
    | SqlTimestampClass  // java.sql.Timestamp
    | ShortClass         // java.lang.Short
    | ShortPrim          // short
    | BigDecimalClass    // java.math.BigDecimal
    | SqlDateClass       // java.sql.Date
    | UtilDateClass      // java.util.Date
    | BigIntegerClass    // java.math.BigInteger
    | DoubleClass        // java.lang.Double
    | DoublePrim         // double
    | BooleanPrim        // boolean
    | BooleanClass       // java.lang.Boolean
    | LongClass          // java.lang.Long
    | LongPrim           // long
    | ByteClass          // java.lang.Byte
    | BytePrim           // byte
    | FloatClass         // java.lang.Float
    | FloatPrim          // float
    | UuidClass          // java.util.UUID
    | CalendarClass      // java.util.Calendar
    | ListClass          // java.util.List
    | SetClass           // java.util.Set
    | MapClass           // java.util.Map
    | OtherClass(name: string)  // any other class, identified by its name
}
