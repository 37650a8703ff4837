/**
 * `BuiltInTypeHandlerResolver`: the fixed tables from well-known OIDs,
 * `NpgsqlDbType` values, data type names and CLR types to the built-in handlers,
 * the lazily created handlers themselves, and the two caches (extension types by
 * OID, handlers by CLR type).
 */
module BuiltInResolvers {
  import opened Wrappers
  import TH = TypeHandlers
  import C = ClrTypes

  /** One value per handler accessor (`Int16()`, `Text()`, …). */
  datatype BuiltInKind =
    | Int16 | Int32 | Int64 | Single | Double | Numeric | Money
    | Text | Xml | Varchar | Char | Name | Refcursor | Citext | Jsonb | Json | JsonPath
    | Timestamp | TimestampTz | Date | Time | TimeTz | Interval
    | Cidr | Inet | Macaddr | Macaddr8 | TsQuery | TsVector
    | Box | Circle | Line | LineSegment | Path | Point | Polygon
    | LQuery | LTree | LTxtQuery
    | OID | Xid | Xid8 | Cid | Regtype | Regconfig
    | Bool | Bytea | Uuid | Varbit | Bit | Record | Void | Hstore | Unknown
    | Int2Vector | OIDVector | PgLsn | Tid | InternalChar

  /** The handlers the constructor creates eagerly. */
  const Eager: set<BuiltInKind> :=
    {Int16, Int32, Int64, Double, Numeric, Text, Timestamp, TimestampTz, Date, Bool, Uuid, Jsonb}

  // Well-known type OIDs of the PostgreSQL system catalogue.
  const Int2Oid := 21
  const Int4Oid := 23
  const Int8Oid := 20
  const Float4Oid := 700
  const Float8Oid := 701
  const NumericOid := 1700
  const MoneyOid := 790
  const TextOid := 25
  const XmlOid := 142
  const VarcharOid := 1043
  const BPCharOid := 1042
  const NameOid := 19
  const RefcursorOid := 1790
  const JsonbOid := 3802
  const JsonOid := 114
  const JsonPathOid := 4072
  const TimestampOid := 1114
  const TimestampTzOid := 1184
  const DateOid := 1082
  const TimeOid := 1083
  const TimeTzOid := 1266
  const IntervalOid := 1186
  const CidrOid := 650
  const InetOid := 869
  const MacaddrOid := 829
  const Macaddr8Oid := 774
  const TsQueryOid := 3615
  const TsVectorOid := 3614
  const BoxOid := 603
  const CircleOid := 718
  const LineOid := 628
  const LSegOid := 601
  const PathOid := 602
  const PointOid := 600
  const PolygonOid := 604
  const OidOid := 26
  const XidOid := 28
  const Xid8Oid := 5069
  const CidOid := 29
  const RegtypeOid := 2206
  const RegconfigOid := 3734
  const BoolOid := 16
  const ByteaOid := 17
  const UuidOid := 2950
  const VarbitOid := 1562
  const BitOid := 1560
  const RecordOid := 2249
  const VoidOid := 2278
  const Int2vectorOid := 22
  const OidvectorOid := 30
  const PgLsnOid := 3220
  const TidOid := 27
  const CharOid := 18

  /** The well-known OID switch of `ResolveOID`; None sends the OID down the extension path. */
  function OidKind(oid: nat): Option<BuiltInKind>
  {
    if oid == Int2Oid then Some(Int16)
    else if oid == Int4Oid then Some(Int32)
    else if oid == Int8Oid then Some(Int64)
    else if oid == Float4Oid then Some(Single)
    else if oid == Float8Oid then Some(Double)
    else if oid == NumericOid then Some(Numeric)
    else if oid == MoneyOid then Some(Money)
    else if oid == TextOid then Some(Text)
    else if oid == XmlOid then Some(Xml)
    else if oid == VarcharOid then Some(Varchar)
    else if oid == BPCharOid then Some(Char)
    else if oid == NameOid then Some(Name)
    else if oid == RefcursorOid then Some(Refcursor)
    else if oid == JsonbOid then Some(Jsonb)
    else if oid == JsonOid then Some(Json)
    else if oid == JsonPathOid then Some(JsonPath)
    else if oid == TimestampOid then Some(Timestamp)
    else if oid == TimestampTzOid then Some(TimestampTz)
    else if oid == DateOid then Some(Date)
    else if oid == TimeOid then Some(Time)
    else if oid == TimeTzOid then Some(TimeTz)
    else if oid == IntervalOid then Some(Interval)
    else if oid == CidrOid then Some(Cidr)
    else if oid == InetOid then Some(Inet)
    else if oid == MacaddrOid then Some(Macaddr)
    else if oid == Macaddr8Oid then Some(Macaddr8)
    else if oid == TsQueryOid then Some(TsQuery)
    else if oid == TsVectorOid then Some(TsVector)
    else if oid == BoxOid then Some(Box)
    else if oid == CircleOid then Some(Circle)
    else if oid == LineOid then Some(Line)
    else if oid == LSegOid then Some(LineSegment)
    else if oid == PathOid then Some(Path)
    else if oid == PointOid then Some(Point)
    else if oid == PolygonOid then Some(Polygon)
    else if oid == OidOid then Some(OID)
    else if oid == XidOid then Some(Xid)
    else if oid == Xid8Oid then Some(Xid8)
    else if oid == CidOid then Some(Cid)
    else if oid == RegtypeOid then Some(Regtype)
    else if oid == RegconfigOid then Some(Regconfig)
    else if oid == BoolOid then Some(Bool)
    else if oid == ByteaOid then Some(Bytea)
    else if oid == UuidOid then Some(Uuid)
    else if oid == VarbitOid then Some(Varbit)
    else if oid == BitOid then Some(Bit)
    else if oid == RecordOid then Some(Record)
    else if oid == VoidOid then Some(Void)
    else if oid == Int2vectorOid then Some(Int2Vector)
    else if oid == OidvectorOid then Some(OIDVector)
    else if oid == PgLsnOid then Some(PgLsn)
    else if oid == TidOid then Some(Tid)
    else if oid == CharOid then Some(InternalChar)
    else None
  }

  /** The `NpgsqlDbType` switch of `ResolveNpgsqlDbType`: only unflagged values, and not the spatial ones. */
  function DbTypeKind(t: TH.NpgsqlDbType): Option<BuiltInKind>
  {
    if !t.IsPlain() then None
    else
      match t.base
      case Smallint => Some(Int16)
      case Integer => Some(Int32)
      case Bigint => Some(Int64)
      case Real => Some(Single)
      case Double => Some(Double)
      case Numeric => Some(Numeric)
      case Money => Some(Money)
      case Text => Some(Text)
      case Xml => Some(Xml)
      case Varchar => Some(Varchar)
      case Char => Some(Char)
      case Name => Some(Name)
      case Refcursor => Some(Refcursor)
      case Citext => Some(Citext)
      case Jsonb => Some(Jsonb)
      case Json => Some(Json)
      case JsonPath => Some(JsonPath)
      case Timestamp => Some(Timestamp)
      case TimestampTz => Some(TimestampTz)
      case Date => Some(Date)
      case Time => Some(Time)
      case TimeTz => Some(TimeTz)
      case Interval => Some(Interval)
      case Cidr => Some(Cidr)
      case Inet => Some(Inet)
      case MacAddr => Some(Macaddr)
      case MacAddr8 => Some(Macaddr8)
      case TsQuery => Some(TsQuery)
      case TsVector => Some(TsVector)
      case Box => Some(Box)
      case Circle => Some(Circle)
      case Line => Some(Line)
      case LSeg => Some(LineSegment)
      case Path => Some(Path)
      case Point => Some(Point)
      case Polygon => Some(Polygon)
      case LQuery => Some(LQuery)
      case LTree => Some(LTree)
      case LTxtQuery => Some(LTxtQuery)
      case Oid => Some(OID)
      case Xid => Some(Xid)
      case Xid8 => Some(Xid8)
      case Cid => Some(Cid)
      case Regtype => Some(Regtype)
      case Regconfig => Some(Regconfig)
      case Boolean => Some(Bool)
      case Bytea => Some(Bytea)
      case Uuid => Some(Uuid)
      case Varbit => Some(Varbit)
      case Bit => Some(Bit)
      case Hstore => Some(Hstore)
      case Int2Vector => Some(Int2Vector)
      case Oidvector => Some(OIDVector)
      case PgLsn => Some(PgLsn)
      case Tid => Some(Tid)
      case InternalChar => Some(InternalChar)
      case Unknown => Some(Unknown)
      case Geometry => None
      case Geography => None
  }

  /**
   * The data type name switch of `ResolveDataTypeName`, aliases included. Each arm
   * tests the length before the characters; the two tests together are string equality.
   */
  function NameKind(name: string): Option<BuiltInKind>
  {
    if |name| == 8 && name == "smallint" then Some(Int16)
    else if (|name| == 7 && name == "integer") || (|name| == 3 && name == "int") then Some(Int32)
    else if |name| == 6 && name == "bigint" then Some(Int64)
    else if |name| == 4 && name == "real" then Some(Single)
    else if |name| == 16 && name == "double precision" then Some(Double)
    else if (|name| == 7 && name == "numeric") || (|name| == 7 && name == "decimal") then Some(Numeric)
    else if |name| == 5 && name == "money" then Some(Money)
    else if |name| == 4 && name == "text" then Some(Text)
    else if |name| == 3 && name == "xml" then Some(Xml)
    else if (|name| == 7 && name == "varchar") || (|name| == 17 && name == "character varying") then Some(Varchar)
    else if |name| == 9 && name == "character" then Some(Char)
    else if |name| == 4 && name == "name" then Some(Name)
    else if |name| == 9 && name == "refcursor" then Some(Refcursor)
    else if |name| == 6 && name == "citext" then Some(Citext)
    else if |name| == 5 && name == "jsonb" then Some(Jsonb)
    else if |name| == 4 && name == "json" then Some(Json)
    else if |name| == 8 && name == "jsonpath" then Some(JsonPath)
    else if (|name| == 9 && name == "timestamp") || (|name| == 27 && name == "timestamp without time zone") then Some(Timestamp)
    else if (|name| == 11 && name == "timestamptz") || (|name| == 24 && name == "timestamp with time zone") then Some(TimestampTz)
    else if |name| == 4 && name == "date" then Some(Date)
    else if |name| == 4 && name == "time" then Some(Time)
    else if |name| == 6 && name == "timetz" then Some(TimeTz)
    else if |name| == 8 && name == "interval" then Some(Interval)
    else if |name| == 4 && name == "cidr" then Some(Cidr)
    else if |name| == 4 && name == "inet" then Some(Inet)
    else if |name| == 7 && name == "macaddr" then Some(Macaddr)
    else if |name| == 8 && name == "macaddr8" then Some(Macaddr8)
    else if |name| == 7 && name == "tsquery" then Some(TsQuery)
    else if |name| == 8 && name == "tsvector" then Some(TsVector)
    else if |name| == 3 && name == "box" then Some(Box)
    else if |name| == 6 && name == "circle" then Some(Circle)
    else if |name| == 4 && name == "line" then Some(Line)
    else if |name| == 4 && name == "lseg" then Some(LineSegment)
    else if |name| == 4 && name == "path" then Some(Path)
    else if |name| == 5 && name == "point" then Some(Point)
    else if |name| == 7 && name == "polygon" then Some(Polygon)
    else if |name| == 6 && name == "lquery" then Some(LQuery)
    else if |name| == 5 && name == "ltree" then Some(LTree)
    else if |name| == 9 && name == "ltxtquery" then Some(LTxtQuery)
    else if |name| == 3 && name == "oid" then Some(OID)
    else if |name| == 3 && name == "xid" then Some(Xid)
    else if |name| == 4 && name == "xid8" then Some(Xid8)
    else if |name| == 3 && name == "cid" then Some(Cid)
    else if |name| == 7 && name == "regtype" then Some(Regtype)
    else if |name| == 9 && name == "regconfig" then Some(Regconfig)
    else if (|name| == 4 && name == "bool") || (|name| == 7 && name == "boolean") then Some(Bool)
    else if |name| == 5 && name == "bytea" then Some(Bytea)
    else if |name| == 4 && name == "uuid" then Some(Uuid)
    else if (|name| == 11 && name == "bit varying") || (|name| == 6 && name == "varbit") then Some(Varbit)
    else if |name| == 3 && name == "bit" then Some(Bit)
    else if |name| == 6 && name == "hstore" then Some(Hstore)
    else if |name| == 10 && name == "int2vector" then Some(Int2Vector)
    else if |name| == 9 && name == "oidvector" then Some(OIDVector)
    else if |name| == 6 && name == "pg_lsn" then Some(PgLsn)
    else if |name| == 3 && name == "tid" then Some(Tid)
    else if |name| == 4 && name == "char" then Some(InternalChar)
    else None
  }

  /** The name table with the long forms of the time types added, under which `Time()` and `TimeTz()` create their handlers. */
  function NameKindCorrected(name: string): Option<BuiltInKind>
  {
    if name == "time without time zone" then Some(Time)
    else if name == "time with time zone" then Some(TimeTz)
    else NameKind(name)
  }

  /** The name each accessor passes to `PgType` when it creates its handler. */
  function PgTypeName(k: BuiltInKind): string
  {
    match k
    case Int16 => "smallint"
    case Int32 => "integer"
    case Int64 => "bigint"
    case Single => "real"
    case Double => "double precision"
    case Numeric => "numeric"
    case Money => "money"
    case Text => "text"
    case Xml => "xml"
    case Varchar => "character varying"
    case Char => "character"
    case Name => "name"
    case Refcursor => "refcursor"
    case Citext => "citext"
    case Jsonb => "jsonb"
    case Json => "json"
    case JsonPath => "jsonpath"
    case Timestamp => "timestamp without time zone"
    case TimestampTz => "timestamp with time zone"
    case Date => "date"
    case Time => "time without time zone"
    case TimeTz => "time with time zone"
    case Interval => "interval"
    case Cidr => "cidr"
    case Inet => "inet"
    case Macaddr => "macaddr"
    case Macaddr8 => "macaddr8"
    case TsQuery => "tsquery"
    case TsVector => "tsvector"
    case Box => "box"
    case Circle => "circle"
    case Line => "line"
    case LineSegment => "lseg"
    case Path => "path"
    case Point => "point"
    case Polygon => "polygon"
    case LQuery => "lquery"
    case LTree => "ltree"
    case LTxtQuery => "ltxtquery"
    case OID => "oid"
    case Xid => "xid"
    case Xid8 => "xid8"
    case Cid => "cid"
    case Regtype => "regtype"
    case Regconfig => "regconfig"
    case Bool => "boolean"
    case Bytea => "bytea"
    case Uuid => "uuid"
    case Varbit => "bit varying"
    case Bit => "bit"
    case Record => "record"
    case Void => "void"
    case Hstore => "hstore"
    case Unknown => "unknown"
    case Int2Vector => "int2vector"
    case OIDVector => "oidvector"
    case PgLsn => "pg_lsn"
    case Tid => "tid"
    case InternalChar => "char"
  }

  /** The class each accessor instantiates. */
  function ClassName(k: BuiltInKind): string
  {
    match k
    case Int16 => "Int16Handler"
    case Int32 => "Int32Handler"
    case Int64 => "Int64Handler"
    case Single => "SingleHandler"
    case Double => "DoubleHandler"
    case Numeric => "NumericHandler"
    case Money => "MoneyHandler"
    case Text | Xml | Varchar | Char | Name | Refcursor | Citext => "TextHandler"
    case Jsonb | Json => "JsonHandler"
    case JsonPath => "JsonPathHandler"
    case Timestamp => "TimestampHandler"
    case TimestampTz => "TimestampTzHandler"
    case Date => "DateHandler"
    case Time => "TimeHandler"
    case TimeTz => "TimeTzHandler"
    case Interval => "IntervalHandler"
    case Cidr => "CidrHandler"
    case Inet => "InetHandler"
    case Macaddr | Macaddr8 => "MacaddrHandler"
    case TsQuery => "TsQueryHandler"
    case TsVector => "TsVectorHandler"
    case Box => "BoxHandler"
    case Circle => "CircleHandler"
    case Line => "LineHandler"
    case LineSegment => "LineSegmentHandler"
    case Path => "PathHandler"
    case Point => "PointHandler"
    case Polygon => "PolygonHandler"
    case LQuery => "LQueryHandler"
    case LTree => "LTreeHandler"
    case LTxtQuery => "LTxtQueryHandler"
    case OID | Xid | Cid | Regtype | Regconfig => "UInt32Handler"
    case Xid8 => "UInt64Handler"
    case Bool => "BoolHandler"
    case Bytea => "ByteaHandler"
    case Uuid => "UuidHandler"
    case Varbit | Bit => "BitStringHandler"
    case Record => "RecordHandler"
    case Void => "VoidHandler"
    case Hstore => "HstoreHandler"
    case Unknown => "UnknownTypeHandler"
    case Int2Vector => "Int2VectorHandler"
    case OIDVector => "OIDVectorHandler"
    case PgLsn => "PgLsnHandler"
    case Tid => "TidHandler"
    case InternalChar => "InternalCharHandler"
  }

  /** The type tests of `ResolveClrType`; the integer branch is guarded by `!type.IsEnum`. */
  function ClrKind(t: C.ClrType): Option<BuiltInKind>
  {
    if !t.IsEnum() && (t == C.Byte || t == C.Short) then Some(Int16)
    else if !t.IsEnum() && t == C.Int then Some(Int32)
    else if !t.IsEnum() && t == C.Long then Some(Int64)
    else if t == C.Char && !t.IsEnum() then Some(Text)
    else
      match t
      case Float => Some(Single)
      case Double => Some(Double)
      case Decimal | BigInteger => Some(Numeric)
      case String | CharArray | ArraySegmentOfChar => Some(Text)
      case JsonDocument => Some(Jsonb)
      case DateTime | NpgsqlDateTime => Some(Timestamp)
      case DateTimeOffset => Some(TimestampTz)
      case NpgsqlDate | DateOnly => Some(Date)
      case TimeOnly => Some(Time)
      case TimeSpan | NpgsqlTimeSpan => Some(Interval)
      case IPAddress | ReadOnlyIPAddress | IPAddressWithSubnet | NpgsqlInet => Some(Inet)
      case PhysicalAddress => Some(Macaddr)
      case NpgsqlTsQuery => Some(TsQuery)
      case NpgsqlTsVector => Some(TsVector)
      case NpgsqlBox => Some(Box)
      case NpgsqlCircle => Some(Circle)
      case NpgsqlLine => Some(Line)
      case NpgsqlLSeg => Some(LineSegment)
      case NpgsqlPath => Some(Path)
      case NpgsqlPoint => Some(Point)
      case NpgsqlPolygon => Some(Polygon)
      case Bool => Some(Bool)
      case ByteArray | ArraySegmentOfByte | ReadOnlyMemoryOfByte | MemoryOfByte => Some(Bytea)
      case Guid => Some(Uuid)
      case BitArray | BitVector32 => Some(Varbit)
      case DictionaryOfStringString | IDictionaryOfStringString | ImmutableDictionaryOfStringString => Some(Hstore)
      case NpgsqlLogSequenceNumber => Some(PgLsn)
      case NpgsqlTid => Some(Tid)
      case DBNull => Some(Unknown)
      case _ => None
  }

  /** The key `ResolveClrType` caches an answer under: `ArraySegment<char>` is stored under `char`. */
  function ClrCacheKey(t: C.ClrType): C.ClrType
  {
    if t == C.ArraySegmentOfChar then C.Char else t
  }

  /** Integer types: the creation name resolves back to the same kind. */
  lemma IntegerNamesAgree(k: BuiltInKind)
    requires k in {Int16, Int32, Int64}
    ensures NameKind(PgTypeName(k)) == Some(k)
  {
  }

  /** Floating-point, numeric and money types: the creation name resolves back to the same kind. */
  lemma DecimalNamesAgree(k: BuiltInKind)
    requires k in {Single, Double, Numeric, Money}
    ensures NameKind(PgTypeName(k)) == Some(k)
  {
  }

  /** Text types: the creation name resolves back to the same kind. */
  lemma TextNamesAgree(k: BuiltInKind)
    requires k in {Text, Xml, Varchar}
    ensures NameKind(PgTypeName(k)) == Some(k)
  {
  }

  /** Character and cursor types: the creation name resolves back to the same kind. */
  lemma CharacterNamesAgree(k: BuiltInKind)
    requires k in {Char, Name, Refcursor}
    ensures NameKind(PgTypeName(k)) == Some(k)
  {
  }

  /** JSON types: the creation name resolves back to the same kind. */
  lemma JsonNamesAgree(k: BuiltInKind)
    requires k in {Jsonb, Json, JsonPath}
    ensures NameKind(PgTypeName(k)) == Some(k)
  {
  }

  /** Date/time types other than time and timetz: the creation name resolves back to the same kind. */
  lemma DateTimeNamesAgree(k: BuiltInKind)
    requires k in {Timestamp, TimestampTz, Date, Interval}
    ensures NameKind(PgTypeName(k)) == Some(k)
  {
  }

  /** Network types: the creation name resolves back to the same kind. */
  lemma NetworkNamesAgree(k: BuiltInKind)
    requires k in {Cidr, Inet, Macaddr, Macaddr8}
    ensures NameKind(PgTypeName(k)) == Some(k)
  {
  }

  /** Full-text search types: the creation name resolves back to the same kind. */
  lemma FullTextNamesAgree(k: BuiltInKind)
    requires k in {TsQuery, TsVector}
    ensures NameKind(PgTypeName(k)) == Some(k)
  {
  }

  /** Geometry types: the creation name resolves back to the same kind. */
  lemma BoxNamesAgree(k: BuiltInKind)
    requires k in {Box, Circle, Line}
    ensures NameKind(PgTypeName(k)) == Some(k)
  {
  }

  /** Geometry types, continued: the creation name resolves back to the same kind. */
  lemma PathNamesAgree(k: BuiltInKind)
    requires k in {LineSegment, Path, Point, Polygon}
    ensures NameKind(PgTypeName(k)) == Some(k)
  {
  }

  /** Unsigned integer types: the creation name resolves back to the same kind. */
  lemma XidNamesAgree(k: BuiltInKind)
    requires k in {OID, Xid, Xid8}
    ensures NameKind(PgTypeName(k)) == Some(k)
  {
  }

  /** Unsigned integer types, continued: the creation name resolves back to the same kind. */
  lemma RegNamesAgree(k: BuiltInKind)
    requires k in {Cid, Regtype, Regconfig}
    ensures NameKind(PgTypeName(k)) == Some(k)
  {
  }

  /** Miscellaneous types: the creation name resolves back to the same kind. */
  lemma MiscNamesAgree(k: BuiltInKind)
    requires k in {Bool, Bytea, Uuid}
    ensures NameKind(PgTypeName(k)) == Some(k)
  {
  }

  /** Bit string types: the creation name resolves back to the same kind. */
  lemma BitNamesAgree(k: BuiltInKind)
    requires k in {Varbit, Bit}
    ensures NameKind(PgTypeName(k)) == Some(k)
  {
  }

  /** Internal vector and log-position types: the creation name resolves back to the same kind. */
  lemma VectorNamesAgree(k: BuiltInKind)
    requires k in {Int2Vector, OIDVector, PgLsn}
    ensures NameKind(PgTypeName(k)) == Some(k)
  {
  }

  /** Internal types, continued: the creation name resolves back to the same kind. */
  lemma InternalNamesAgree(k: BuiltInKind)
    requires k in {Tid, InternalChar}
    ensures NameKind(PgTypeName(k)) == Some(k)
  {
  }

  /** Each well-known OID resolves to the kind its creation name resolves to, except the time types and the two pseudo-types. */
  lemma OidAgreesWithName(oid: nat)
    requires OidKind(oid).Some? && OidKind(oid).value !in {Time, TimeTz, Record, Void}
    ensures NameKind(PgTypeName(OidKind(oid).value)) == OidKind(oid)
  {
    var k := OidKind(oid).value;
    if k in {Int16, Int32, Int64} {
      IntegerNamesAgree(k);
    } else if k in {Single, Double, Numeric, Money} {
      DecimalNamesAgree(k);
    } else if k in {Text, Xml, Varchar} {
      TextNamesAgree(k);
    } else if k in {Char, Name, Refcursor} {
      CharacterNamesAgree(k);
    } else if k in {Jsonb, Json, JsonPath} {
      JsonNamesAgree(k);
    } else if k in {Timestamp, TimestampTz, Date, Interval} {
      DateTimeNamesAgree(k);
    } else if k in {Cidr, Inet, Macaddr, Macaddr8} {
      NetworkNamesAgree(k);
    } else if k in {TsQuery, TsVector} {
      FullTextNamesAgree(k);
    } else if k in {Box, Circle, Line} {
      BoxNamesAgree(k);
    } else if k in {LineSegment, Path, Point, Polygon} {
      PathNamesAgree(k);
    } else if k in {OID, Xid, Xid8} {
      XidNamesAgree(k);
    } else if k in {Cid, Regtype, Regconfig} {
      RegNamesAgree(k);
    } else if k in {Bool, Bytea, Uuid} {
      MiscNamesAgree(k);
    } else if k in {Varbit, Bit} {
      BitNamesAgree(k);
    } else if k in {Int2Vector, OIDVector, PgLsn} {
      VectorNamesAgree(k);
    } else if k in {Tid, InternalChar} {
      InternalNamesAgree(k);
    }
  }

  /** As written: the time types' creation names are not in the name table. */
  lemma TimeCreationNamesUnresolved()
    ensures OidKind(TimeOid) == Some(Time) && NameKind(PgTypeName(Time)) == None
    ensures OidKind(TimeTzOid) == Some(TimeTz) && NameKind(PgTypeName(TimeTz)) == None
  {
  }

  /** With the long time names added, every well-known OID but the pseudo-types resolves by its creation name too. */
  lemma OidAgreesWithCorrectedName(oid: nat)
    requires OidKind(oid).Some? && OidKind(oid).value !in {Record, Void}
    ensures NameKindCorrected(PgTypeName(OidKind(oid).value)) == OidKind(oid)
  {
    var k := OidKind(oid).value;
    if k !in {Time, TimeTz} {
      OidAgreesWithName(oid);
      CorrectedNamesExtend(PgTypeName(k));
    }
  }

  /** The corrected table only adds names: every name the table knows keeps its kind. */
  lemma CorrectedNamesExtend(name: string)
    requires NameKind(name).Some?
    ensures NameKindCorrected(name) == NameKind(name)
  {
  }

  lemma NumericAndTextAliases()
    ensures NameKind("integer") == NameKind("int") == Some(Int32)
    ensures NameKind("numeric") == NameKind("decimal") == Some(Numeric)
    ensures NameKind("varchar") == NameKind("character varying") == Some(Varchar)
  {
  }

  lemma TimestampAliases()
    ensures NameKind("timestamp") == NameKind("timestamp without time zone") == Some(Timestamp)
    ensures NameKind("timestamptz") == NameKind("timestamp with time zone") == Some(TimestampTz)
  {
  }

  lemma MiscAliases()
    ensures NameKind("bool") == NameKind("boolean") == Some(Bool)
    ensures NameKind("bit varying") == NameKind("varbit") == Some(Varbit)
  {
  }

  /** "char" is PostgreSQL's one-byte internal type; "character" is bpchar, a text type. */
  lemma CharNames()
    ensures NameKind("char") == Some(InternalChar)
    ensures NameKind("character") == Some(Char)
  {
  }

  /** A flagged or spatial `NpgsqlDbType` is not built in; `Unknown` is. */
  lemma DbTypeCoverage(t: TH.NpgsqlDbType)
    ensures DbTypeKind(t).None? <==> !t.IsPlain() || t.base in {TH.Geometry, TH.Geography}
    ensures DbTypeKind(TH.Plain(TH.Unknown)) == Some(Unknown)
  {
  }

  /** `byte` and `short` share the Int16 handler, and no enum type is mapped. */
  lemma ClrNumericKinds(name: string)
    ensures ClrKind(C.Byte) == ClrKind(C.Short) == Some(Int16)
    ensures ClrKind(C.EnumType(name)) == None
  {
  }

  /** The key an answer is cached under resolves to the same kind, so a cache hit agrees with the table. */
  lemma CacheKeyAgrees(t: C.ClrType)
    ensures ClrCacheKey(t) != t ==> t == C.ArraySegmentOfChar && ClrCacheKey(t) == C.Char
    ensures ClrKind(ClrCacheKey(t)) == ClrKind(t)
  {
  }

  /** `b` keeps every entry of `a`. */
  ghost predicate Extends<K, V>(a: map<K, V>, b: map<K, V>)
  {
    forall k | k in a :: k in b && b[k] == a[k]
  }

  class BuiltInTypeHandlerResolver {
    const db: TH.DatabaseInfo
    /** The handler fields; a missing kind is a field still null. */
    var handlers: map<BuiltInKind, TH.TypeHandler>
    /** `_extensionHandlers`. */
    var extensionHandlers: map<nat, TH.TypeHandler>
    /** `_cachedHandlersByClrType`. */
    var clrCache: map<C.ClrType, TH.TypeHandler>

    /** The kind the extension path finds for an OID: its catalogue entry's name looked up by name. */
    function ExtensionKind(oid: nat): Option<BuiltInKind>
    {
      if oid in db.byOid && db.byOid[oid].name != "pg_catalog" then NameKind(db.byOid[oid].name) else None
    }

    /** The kind `ResolveOID` answers with. */
    function OidAnswer(oid: nat): Option<BuiltInKind>
    {
      if OidKind(oid).Some? then OidKind(oid) else ExtensionKind(oid)
    }

    /** `h` is what the accessor for `k` creates. */
    predicate Creates(h: TH.TypeHandler, k: BuiltInKind)
    {
      h.handlerClass == TH.Named(ClassName(k)) && h.postgresType == db.TypeByName(PgTypeName(k))
    }

    ghost predicate Valid()
      reads this
    {
      && Eager <= handlers.Keys
      && (forall o | o in extensionHandlers ::
            OidKind(o).None? && ExtensionKind(o).Some? && ExtensionKind(o).value in handlers
            && extensionHandlers[o] == handlers[ExtensionKind(o).value])
      && (forall t | t in clrCache ::
            ClrKind(t).Some? && ClrKind(t).value in handlers && clrCache[t] == handlers[ClrKind(t).value])
    }

    constructor (db: TH.DatabaseInfo)
      ensures Valid() && this.db == db
      ensures handlers.Keys == Eager && extensionHandlers == map[] && clrCache == map[]
      ensures forall k | k in handlers :: Creates(handlers[k], k)
    {
      this.db := db;
      handlers := map[];
      extensionHandlers := map[];
      clrCache := map[];
      new;
      handlers := CreateAll(Eager);
    }

    /** The eagerly created handlers: one from the accessor of each kind in `kinds`. */
    method CreateAll(kinds: set<BuiltInKind>) returns (m: map<BuiltInKind, TH.TypeHandler>)
      ensures m.Keys == kinds && forall k | k in m :: Creates(m[k], k)
    {
      m := map[];
      var pending := kinds;
      while pending != {}
        invariant m.Keys + pending == kinds && m.Keys !! pending
        invariant forall k | k in m :: Creates(m[k], k)
        decreases pending
      {
        var k :| k in pending;
        var h := Create(k);
        m := m[k := h];
        pending := pending - {k};
      }
    }

    /** A handler accessor: creates the handler on first use and returns the same instance afterwards. */
    method Handler(k: BuiltInKind) returns (h: TH.TypeHandler)
      requires Valid()
      modifies this`handlers
      ensures Valid() && k in handlers && h == handlers[k]
      ensures k in old(handlers) ==> handlers == old(handlers)
      ensures k !in old(handlers) ==> handlers == old(handlers)[k := h] && fresh(h) && Creates(h, k)
    {
      if k in handlers {
        return handlers[k];
      }
      h := Create(k);
      handlers := handlers[k := h];
    }

    /** The handler the accessor for `k` creates, for the PostgreSQL type of its creation name. */
    method Create(k: BuiltInKind) returns (h: TH.TypeHandler)
      ensures fresh(h) && Creates(h, k)
    {
      h := new TH.TypeHandler(TH.Named(ClassName(k)), db.TypeByName(PgTypeName(k)));
    }

    /** The accessor for a table answer, or null. */
    method HandlerFor(k: Option<BuiltInKind>) returns (r: Option<TH.TypeHandler>)
      requires Valid()
      modifies this`handlers
      ensures Valid() && Extends(old(handlers), handlers)
      ensures r.Some? <==> k.Some?
      ensures k.Some? ==> k.value in handlers && r.value == handlers[k.value]
      ensures k.None? ==> handlers == old(handlers)
    {
      if k.None? {
        return None;
      }
      var h := Handler(k.value);
      return Some(h);
    }

    /**
     * `ResolveOID`: a well-known OID through its accessor; any other OID from the
     * extension cache, or through its catalogue name, caching what that finds.
     */
    method ResolveOID(oid: nat) returns (r: Option<TH.TypeHandler>)
      requires Valid()
      modifies this`handlers, this`extensionHandlers
      ensures Valid() && Extends(old(handlers), handlers)
      ensures r.Some? <==> OidAnswer(oid).Some?
      ensures r.Some? ==> OidAnswer(oid).value in handlers && r.value == handlers[OidAnswer(oid).value]
      ensures oid in old(extensionHandlers) ==> r == Some(old(extensionHandlers[oid]))
      ensures extensionHandlers ==
                if OidKind(oid).None? && r.Some? then old(extensionHandlers)[oid := r.value]
                else old(extensionHandlers)
    {
      if OidKind(oid).Some? {
        r := HandlerFor(OidKind(oid));
        return;
      }
      if oid in extensionHandlers {
        return Some(extensionHandlers[oid]);
      }
      r := HandlerFor(ExtensionKind(oid));
      if r.Some? {
        extensionHandlers := extensionHandlers[oid := r.value];
      }
    }

    method ResolveNpgsqlDbType(t: TH.NpgsqlDbType) returns (r: Option<TH.TypeHandler>)
      requires Valid()
      modifies this`handlers
      ensures Valid() && Extends(old(handlers), handlers)
      ensures r.Some? <==> DbTypeKind(t).Some?
      ensures r.Some? ==> DbTypeKind(t).value in handlers && r.value == handlers[DbTypeKind(t).value]
    {
      r := HandlerFor(DbTypeKind(t));
    }

    method ResolveDataTypeName(name: string) returns (r: Option<TH.TypeHandler>)
      requires Valid()
      modifies this`handlers
      ensures Valid() && Extends(old(handlers), handlers)
      ensures r.Some? <==> NameKind(name).Some?
      ensures r.Some? ==> NameKind(name).value in handlers && r.value == handlers[NameKind(name).value]
    {
      r := HandlerFor(NameKind(name));
    }

    /** `ResolveClrType`: a cached answer if there is one, else the table's, cached under `ClrCacheKey`. */
    method ResolveClrType(t: C.ClrType) returns (r: Option<TH.TypeHandler>)
      requires Valid()
      modifies this`handlers, this`clrCache
      ensures Valid() && Extends(old(handlers), handlers)
      ensures r.Some? <==> ClrKind(t).Some?
      ensures r.Some? ==> ClrKind(t).value in handlers && r.value == handlers[ClrKind(t).value]
      ensures t in old(clrCache) ==> r == Some(old(clrCache[t]))
      ensures clrCache ==
                if t !in old(clrCache) && r.Some? then old(clrCache)[ClrCacheKey(t) := r.value]
                else old(clrCache)
    {
      if t in clrCache {
        return Some(clrCache[t]);
      }
      r := HandlerFor(ClrKind(t));
      if r.Some? {
        CacheKeyAgrees(t);
        clrCache := clrCache[ClrCacheKey(t) := r.value];
      }
    }
  }
}
