/**
 * `NodaTimeTypeHandlerResolver`: six date/time handlers created up front, and the
 * four lookups (by OID, `NpgsqlDbType`, data type name and CLR type) that return them.
 */
module NodaTimeResolvers {
  import opened Wrappers
  import TH = TypeHandlers
  import C = ClrTypes
  import B = BuiltInResolvers

  datatype NodaKind = Timestamp | TimestampTz | Date | Time | TimeTz | Interval

  function OidKind(oid: nat): Option<NodaKind>
  {
    if oid == B.TimestampOid then Some(Timestamp)
    else if oid == B.TimestampTzOid then Some(TimestampTz)
    else if oid == B.DateOid then Some(Date)
    else if oid == B.TimeOid then Some(Time)
    else if oid == B.TimeTzOid then Some(TimeTz)
    else if oid == B.IntervalOid then Some(Interval)
    else None
  }

  /** Only the six unflagged values match; an Array or Range combination is another value and gives null. */
  function DbTypeKind(t: TH.NpgsqlDbType): Option<NodaKind>
  {
    if !t.IsPlain() then None
    else
      match t.base
      case Timestamp => Some(Timestamp)
      case TimestampTz => Some(TimestampTz)
      case Date => Some(Date)
      case Time => Some(Time)
      case TimeTz => Some(TimeTz)
      case Interval => Some(Interval)
      case _ => None
  }

  function NameKind(name: string): Option<NodaKind>
  {
    if name == "timestamp" || name == "timestamp without time zone" then Some(Timestamp)
    else if name == "timestamptz" || name == "timestamp with time zone" then Some(TimestampTz)
    else if name == "date" then Some(Date)
    else if name == "time" then Some(Time)
    else if name == "timetz" then Some(TimeTz)
    else if name == "interval" then Some(Interval)
    else None
  }

  /** As written: an `Instant` goes to the timestamp handler, like `LocalDateTime`. */
  function ClrKind(t: C.ClrType): Option<NodaKind>
  {
    match t
    case Instant | LocalDateTime => Some(Timestamp)
    case ZonedDateTime | OffsetDateTime => Some(TimestampTz)
    case LocalDate => Some(Date)
    case LocalTime => Some(Time)
    case OffsetTime => Some(TimeTz)
    case Period | Duration => Some(Interval)
    case _ => None
  }

  /** An `Instant` is a point on the global time line, which PostgreSQL stores as timestamptz. */
  function ClrKindCorrected(t: C.ClrType): Option<NodaKind>
  {
    if t == C.Instant then Some(TimestampTz) else ClrKind(t)
  }

  /** The OID, `NpgsqlDbType` base and short name of each kind, and the name its handler is created with. */
  function OidOf(k: NodaKind): nat
  {
    match k
    case Timestamp => B.TimestampOid
    case TimestampTz => B.TimestampTzOid
    case Date => B.DateOid
    case Time => B.TimeOid
    case TimeTz => B.TimeTzOid
    case Interval => B.IntervalOid
  }

  function DbBaseOf(k: NodaKind): TH.DbBase
  {
    match k
    case Timestamp => TH.Timestamp
    case TimestampTz => TH.TimestampTz
    case Date => TH.Date
    case Time => TH.Time
    case TimeTz => TH.TimeTz
    case Interval => TH.Interval
  }

  function ShortName(k: NodaKind): string
  {
    match k
    case Timestamp => "timestamp"
    case TimestampTz => "timestamptz"
    case Date => "date"
    case Time => "time"
    case TimeTz => "timetz"
    case Interval => "interval"
  }

  function PgTypeName(k: NodaKind): string
  {
    match k
    case Timestamp => "timestamp without time zone"
    case TimestampTz => "timestamp with time zone"
    case Date => "date"
    case Time => "time without time zone"
    case TimeTz => "time with time zone"
    case Interval => "interval"
  }

  /** The lookups by OID, by `NpgsqlDbType` and by name all reach each kind. */
  lemma LookupsReachEachKind(k: NodaKind)
    ensures OidKind(OidOf(k)) == Some(k)
    ensures DbTypeKind(TH.Plain(DbBaseOf(k))) == Some(k)
    ensures NameKind(ShortName(k)) == Some(k)
  {
  }

  /** Conversely, a hit by OID or by `NpgsqlDbType` is that kind's OID or base value, unflagged. */
  lemma LookupsOnlyReachTheirKind(oid: nat, t: TH.NpgsqlDbType)
    ensures OidKind(oid).Some? ==> oid == OidOf(OidKind(oid).value)
    ensures DbTypeKind(t).Some? ==> t == TH.Plain(DbBaseOf(DbTypeKind(t).value))
  {
  }

  lemma TimestampAliases()
    ensures NameKind("timestamp") == NameKind("timestamp without time zone") == Some(Timestamp)
    ensures NameKind("timestamptz") == NameKind("timestamp with time zone") == Some(TimestampTz)
  {
  }

  /** As written: the time handlers' creation names are not among the names looked up. */
  lemma TimeCreationNamesUnresolved()
    ensures NameKind(PgTypeName(Time)) == None && NameKind(PgTypeName(TimeTz)) == None
  {
  }

  /** Every kind other than the two time types is found under the name its handler is created with. */
  lemma CreationNamesResolve(k: NodaKind)
    requires k !in {Time, TimeTz}
    ensures NameKind(PgTypeName(k)) == Some(k)
  {
  }

  /** As written: an `Instant` parameter is sent as "timestamp without time zone". */
  lemma InstantSentAsTimestamp()
    ensures ClrKind(C.Instant) == Some(Timestamp)
    ensures PgTypeName(ClrKind(C.Instant).value) == "timestamp without time zone"
  {
  }

  /**
   * With the correction, every type denoting an instant (`Instant`, `ZonedDateTime`,
   * `OffsetDateTime`) is sent as "timestamp with time zone", and no other type changes.
   */
  lemma InstantSentAsTimestampTz(t: C.ClrType)
    ensures t in {C.Instant, C.ZonedDateTime, C.OffsetDateTime} ==>
              ClrKindCorrected(t) == Some(TimestampTz)
              && PgTypeName(ClrKindCorrected(t).value) == "timestamp with time zone"
    ensures t != C.Instant ==> ClrKindCorrected(t) == ClrKind(t)
  {
  }

  class NodaTimeTypeHandlerResolver {
    /** The six handler fields, one per kind. */
    const handlers: map<NodaKind, TH.TypeHandler>

    ghost predicate Valid()
    {
      forall k: NodaKind :: k in handlers
    }

    constructor (db: TH.DatabaseInfo)
      ensures Valid()
      ensures forall k: NodaKind :: handlers[k].postgresType == db.TypeByName(PgTypeName(k))
    {
      var ts := new TH.TypeHandler(TH.Named("TimestampHandler"), db.TypeByName(PgTypeName(Timestamp)));
      var tstz := new TH.TypeHandler(TH.Named("TimestampTzHandler"), db.TypeByName(PgTypeName(TimestampTz)));
      var date := new TH.TypeHandler(TH.Named("DateHandler"), db.TypeByName(PgTypeName(Date)));
      var time := new TH.TypeHandler(TH.Named("TimeHandler"), db.TypeByName(PgTypeName(Time)));
      var timetz := new TH.TypeHandler(TH.Named("TimeTzHandler"), db.TypeByName(PgTypeName(TimeTz)));
      var interval := new TH.TypeHandler(TH.Named("IntervalHandler"), db.TypeByName(PgTypeName(Interval)));
      handlers := map[Timestamp := ts, TimestampTz := tstz, Date := date, Time := time,
                      TimeTz := timetz, Interval := interval];
      new;
      forall k: NodaKind
        ensures k in handlers && handlers[k].postgresType == db.TypeByName(PgTypeName(k))
      {
        match k
        case Timestamp =>
        case TimestampTz =>
        case Date =>
        case Time =>
        case TimeTz =>
        case Interval =>
      }
    }

    /** The handler for a lookup's answer, or null. */
    function HandlerOf(k: Option<NodaKind>): (r: Option<TH.TypeHandler>)
      requires Valid()
      ensures r.Some? <==> k.Some?
    {
      if k.Some? then Some(handlers[k.value]) else None
    }

    /** The same handler answers a kind's OID, its `NpgsqlDbType` and its short name. */
    lemma LookupsShareHandler(k: NodaKind)
      requires Valid()
      ensures HandlerOf(OidKind(OidOf(k))) == HandlerOf(DbTypeKind(TH.Plain(DbBaseOf(k))))
                == HandlerOf(NameKind(ShortName(k))) == Some(handlers[k])
    {
      LookupsReachEachKind(k);
    }
  }
}
