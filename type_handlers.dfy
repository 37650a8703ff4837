/**
 * Vocabulary shared by the type-handler resolvers and the connector's type mapper:
 * `NpgsqlDbType` with its Array/Range/Multirange flags, the database catalogue of
 * PostgreSQL types, and type handlers as objects with a handler class and the
 * PostgreSQL type they were created for.
 */
module TypeHandlers {
  import opened Wrappers

  /** The base values of `NpgsqlDbType`. */
  datatype DbBase =
    | Smallint | Integer | Bigint | Real | Double | Numeric | Money
    | Text | Xml | Varchar | Char | Name | Refcursor | Citext | Jsonb | Json | JsonPath
    | Timestamp | TimestampTz | Date | Time | TimeTz | Interval
    | Cidr | Inet | MacAddr | MacAddr8 | TsQuery | TsVector
    | Box | Circle | Line | LSeg | Path | Point | Polygon
    | LQuery | LTree | LTxtQuery
    | Oid | Xid | Xid8 | Cid | Regtype | Regconfig
    | Boolean | Bytea | Uuid | Varbit | Bit | Hstore
    | Int2Vector | Oidvector | PgLsn | Tid | InternalChar
    | Unknown | Geometry | Geography

  /** An `NpgsqlDbType`: a base value, possibly or-ed with the Array, Range and Multirange flags. */
  datatype NpgsqlDbType = NpgsqlDbType(base: DbBase, isArray: bool, isRange: bool, isMultirange: bool)
  {
    predicate IsPlain() { !isArray && !isRange && !isMultirange }
  }

  function Plain(b: DbBase): (t: NpgsqlDbType)
    ensures t.IsPlain() && t.base == b
  {
    NpgsqlDbType(b, false, false, false)
  }

  /** The kind of a catalogue entry; the numbers are the OIDs of the types it refers to. */
  datatype TypeKind =
    | BaseType
    | ArrayType(element: nat)
    | RangeType(subtype: nat, multirange: Option<nat>)
    | MultirangeType(subrange: nat)
    | EnumType
    | DomainType(baseType: nat)
    | CompositeType
    | PseudoType

  /** A `PostgresType`: its OID, short and qualified names, kind, and its array and range types if any. */
  datatype PostgresType = PostgresType(
    oid: nat, name: string, fullName: string, kind: TypeKind, arrayType: Option<nat>, rangeType: Option<nat>)

  /** `DatabaseInfo`: the types loaded from the server, by OID and by name. */
  datatype DatabaseInfo = DatabaseInfo(byOid: map<nat, PostgresType>, byName: map<string, PostgresType>)
  {
    /** `TryGetPostgresTypeByName`: the entry of that name, if the catalogue has one. */
    function TypeByName(name: string): (r: Option<PostgresType>)
      ensures r.Some? <==> name in byName
    {
      if name in byName then Some(byName[name]) else None
    }

    /**
     * `GetPostgresTypeByName`: its result is not nullable, so an unknown name is an
     * `ArgumentException`; it agrees with `TypeByName` on every known name.
     */
    function PostgresTypeByName(name: string): (r: Result<PostgresType>)
      ensures r.Ok? <==> TypeByName(name).Some?
      ensures r.Ok? ==> r.value == TypeByName(name).value
      ensures r.Err? ==> r.error == Argument
    {
      match TypeByName(name)
      case None => Err(Argument)
      case Some(pg) => Ok(pg)
    }

    /**
     * The catalogue has no reference cycle: some ranking of the OIDs puts every type an
     * entry refers to below the entry. PostgreSQL hands out OIDs in creation order, and an
     * array type is often created before its element (`_xid8` is 271, `xid8` 5069), so the
     * OIDs themselves are not such a ranking.
     */
    ghost predicate Acyclic()
    {
      exists rank: map<nat, nat> :: RankedBy(rank)
    }

    /**
     * Every OID maps to an entry carrying it, and every OID a kind refers to, from an entry
     * found by OID or by name, ranks below that entry under `rank`.
     */
    ghost predicate RankedBy(rank: map<nat, nat>)
    {
      && (forall oid | oid in byOid ::
            byOid[oid].oid == oid && RefersBelow(byOid[oid].kind, oid, rank))
      && (forall name | name in byName :: RefersBelow(byName[name].kind, byName[name].oid, rank))
    }

    /**
     * The types `kind` refers to rank below `oid`. A multirange reaches its subtype through
     * its subrange, which must be a range entry.
     */
    ghost predicate RefersBelow(kind: TypeKind, oid: nat, rank: map<nat, nat>)
    {
      match kind
      case ArrayType(e) => RankOf(rank, e) < RankOf(rank, oid)
      case RangeType(s, _) => RankOf(rank, s) < RankOf(rank, oid)
      case MultirangeType(r) =>
        && r in byOid && byOid[r].kind.RangeType?
        && RankOf(rank, r) < RankOf(rank, oid) && RankOf(rank, byOid[r].kind.subtype) < RankOf(rank, r)
      case DomainType(b) => RankOf(rank, b) < RankOf(rank, oid)
      case _ => true
    }
  }

  /** The rank of an OID, 0 for one the ranking leaves out. */
  ghost function RankOf(rank: map<nat, nat>, oid: nat): nat
  {
    if oid in rank then rank[oid] else 0
  }

  /**
   * A catalogue numbered as PostgreSQL numbers it: the built-in `_xid8` (271) is older
   * than its element `xid8` (5069), and the array `_mood` (16385) of a user enum is
   * older than `mood` (16386).
   */
  const XidCatalogue: DatabaseInfo :=
    var xid8 := PostgresType(5069, "xid8", "pg_catalog.xid8", BaseType, Some(271), None);
    var xid8Array := PostgresType(271, "_xid8", "pg_catalog._xid8", ArrayType(5069), None, None);
    var mood := PostgresType(16386, "mood", "public.mood", EnumType, Some(16385), None);
    var moodArray := PostgresType(16385, "_mood", "public._mood", ArrayType(16386), None, None);
    DatabaseInfo(
      map[5069 := xid8, 271 := xid8Array, 16386 := mood, 16385 := moodArray],
      map["xid8" := xid8, "_xid8" := xid8Array, "mood" := mood, "_mood" := moodArray])

  /** Arrays that precede their elements are no obstacle: the catalogue is acyclic. */
  lemma XidCatalogueAcyclic()
    ensures XidCatalogue.Acyclic()
    ensures XidCatalogue.byOid[271].kind.element > 271 && XidCatalogue.byOid[16385].kind.element > 16385
  {
    assert XidCatalogue.RankedBy(map[5069 := 0, 271 := 1, 16386 := 0, 16385 := 1]);
  }

  /**
   * The runtime class of a handler, as `GetType()` compares it: a concrete handler
   * class, or a generic array/range/multirange handler over its element's class.
   */
  datatype HandlerClass =
    | Named(name: string)
    | ArrayOf(element: HandlerClass)
    | RangeOf(subtype: HandlerClass)
    | MultirangeOf(subtype: HandlerClass)
    | UnmappedEnum
    | Unrecognized

  /** An `NpgsqlTypeHandler`: its class and the PostgreSQL type it reads and writes. */
  class TypeHandler {
    const handlerClass: HandlerClass
    const postgresType: Option<PostgresType>

    constructor (handlerClass: HandlerClass, postgresType: Option<PostgresType>)
      ensures this.handlerClass == handlerClass && this.postgresType == postgresType
    {
      this.handlerClass := handlerClass;
      this.postgresType := postgresType;
    }
  }
}
