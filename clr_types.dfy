/** The .NET types the lookup tables and resolvers compare against, as a closed enumeration. */
module ClrTypes {
  datatype ClrType =
    | Object
    | Byte | Short | Int | Long | Float | Double | Decimal | BigInteger
    | String | CharArray | Char | ArraySegmentOfChar | JsonDocument
    | DateTime | NpgsqlDateTime | DateTimeOffset | NpgsqlDate | DateOnly | TimeOnly | TimeSpan | NpgsqlTimeSpan
    | IPAddress | ReadOnlyIPAddress | IPAddressWithSubnet | NpgsqlInet | PhysicalAddress
    | NpgsqlTsQuery | NpgsqlTsVector
    | NpgsqlBox | NpgsqlCircle | NpgsqlLine | NpgsqlLSeg | NpgsqlPath | NpgsqlPoint | NpgsqlPolygon
    | Bool | ByteArray | ArraySegmentOfByte | ReadOnlyMemoryOfByte | MemoryOfByte | Guid | BitArray | BitVector32
    | DictionaryOfStringString | IDictionaryOfStringString | ImmutableDictionaryOfStringString
    | NpgsqlLogSequenceNumber | NpgsqlTid | DBNull
    // NodaTime
    | Instant | LocalDateTime | ZonedDateTime | OffsetDateTime | LocalDate | LocalTime | OffsetTime | Period | Duration
    // NetTopologySuite
    | Geometry | GeometryCollection
    /** A user enum type. */
    | EnumType(name: string)
    /** Any other class, with its direct base type. */
    | ClassType(name: string, baseType: ClrType)
  {
    predicate IsEnum() { EnumType? }

    /** `Type.BaseType`: `GeometryCollection` derives from `Geometry`; the other named types are taken to derive from `Object`. */
    function BaseType(): ClrType
    {
      if ClassType? then baseType
      else if GeometryCollection? then Geometry
      else Object
    }
  }
}
