/**
 * `NetTopologySuiteTypeHandlerResolver`: a geometry and a geography handler for the
 * PostGIS types, found by the OIDs the database gives them, and the choice of the
 * geography handler for CLR geometries when `geographyAsDefault` is set.
 */
module NtsResolvers {
  import opened Wrappers
  import TH = TypeHandlers
  import C = ClrTypes

  datatype SpatialKind = GeometryKind | GeographyKind

  /** The geometry OID is tested first, so it wins should both OIDs coincide. */
  function OidKind(geometryOid: nat, geographyOid: nat, oid: nat): Option<SpatialKind>
  {
    if oid == geometryOid then Some(GeometryKind)
    else if oid == geographyOid then Some(GeographyKind)
    else None
  }

  function DbTypeKind(t: TH.NpgsqlDbType): Option<SpatialKind>
  {
    if t == TH.Plain(TH.Geometry) then Some(GeometryKind)
    else if t == TH.Plain(TH.Geography) then Some(GeographyKind)
    else None
  }

  function NameKind(name: string): Option<SpatialKind>
  {
    if name == "geometry" then Some(GeometryKind)
    else if name == "geography" then Some(GeographyKind)
    else None
  }

  function ClrKind(geographyAsDefault: bool, t: C.ClrType): Option<SpatialKind>
  {
    if t != C.Geometry && t.BaseType() != C.Geometry && t.BaseType() != C.GeometryCollection then None
    else if geographyAsDefault then Some(GeographyKind)
    else Some(GeometryKind)
  }

  function NameOf(k: SpatialKind): string
  {
    match k
    case GeometryKind => "geometry"
    case GeographyKind => "geography"
  }

  function DbBaseOf(k: SpatialKind): TH.DbBase
  {
    match k
    case GeometryKind => TH.Geometry
    case GeographyKind => TH.Geography
  }

  /** With distinct OIDs each one finds its own kind, and nothing else is found. */
  lemma OidLookup(geometryOid: nat, geographyOid: nat, oid: nat)
    requires geometryOid != geographyOid
    ensures OidKind(geometryOid, geographyOid, geometryOid) == Some(GeometryKind)
    ensures OidKind(geometryOid, geographyOid, geographyOid) == Some(GeographyKind)
    ensures OidKind(geometryOid, geographyOid, oid).Some? <==> oid in {geometryOid, geographyOid}
  {
  }

  /** The `NpgsqlDbType` and the name of a kind both find it, and only those do. */
  lemma DbTypeAndNameLookup(k: SpatialKind, t: TH.NpgsqlDbType, name: string)
    ensures DbTypeKind(TH.Plain(DbBaseOf(k))) == Some(k) && NameKind(NameOf(k)) == Some(k)
    ensures DbTypeKind(t).Some? ==> t == TH.Plain(DbBaseOf(DbTypeKind(t).value))
    ensures NameKind(name).Some? ==> name == NameOf(NameKind(name).value)
  {
  }

  /**
   * The geometry types matched: `Geometry`, `GeometryCollection` (derived from `Geometry`)
   * and every class derived directly from either; no other type. The handler is the
   * geography one exactly when that is the default.
   */
  lemma ClrLookup(geographyAsDefault: bool, t: C.ClrType)
    ensures ClrKind(geographyAsDefault, t).Some? <==>
              || t == C.Geometry || t == C.GeometryCollection
              || (t.ClassType? && (t.baseType == C.Geometry || t.baseType == C.GeometryCollection))
    ensures ClrKind(geographyAsDefault, C.Object) == None
    ensures ClrKind(geographyAsDefault, t).Some? ==>
              (ClrKind(geographyAsDefault, t).value == GeographyKind <==> geographyAsDefault)
  {
  }

  /** Only the direct base type is inspected: a class two levels below `Geometry` is not matched. */
  lemma IndirectSubclassUnmatched(geographyAsDefault: bool, name: string, middle: string)
    ensures ClrKind(geographyAsDefault, C.ClassType(name, C.ClassType(middle, C.Geometry))) == None
  {
  }

  class NetTopologySuiteTypeHandlerResolver {
    const geographyAsDefault: bool
    const geometryOid: nat
    const geographyOid: nat
    const geometryHandler: TH.TypeHandler
    const geographyHandler: TH.TypeHandler

    /**
     * Both PostGIS types must be in the catalogue: the constructor dereferences their
     * entries to read the OIDs.
     */
    constructor (db: TH.DatabaseInfo, geographyAsDefault: bool)
      requires "geometry" in db.byName && "geography" in db.byName
      ensures this.geographyAsDefault == geographyAsDefault
      ensures geometryOid == db.byName["geometry"].oid && geographyOid == db.byName["geography"].oid
      ensures geometryHandler.postgresType == Some(db.byName["geometry"])
      ensures geographyHandler.postgresType == Some(db.byName["geography"])
      ensures geometryHandler != geographyHandler
    {
      this.geographyAsDefault := geographyAsDefault;
      geometryOid := db.byName["geometry"].oid;
      geographyOid := db.byName["geography"].oid;
      geometryHandler := new TH.TypeHandler(TH.Named("NetTopologySuiteHandler"), Some(db.byName["geometry"]));
      geographyHandler := new TH.TypeHandler(TH.Named("NetTopologySuiteHandler"), Some(db.byName["geography"]));
    }

    function HandlerOf(k: Option<SpatialKind>): (r: Option<TH.TypeHandler>)
      ensures r.Some? <==> k.Some?
      ensures k == Some(GeometryKind) ==> r == Some(geometryHandler)
      ensures k == Some(GeographyKind) ==> r == Some(geographyHandler)
    {
      match k
      case None => None
      case Some(GeometryKind) => Some(geometryHandler)
      case Some(GeographyKind) => Some(geographyHandler)
    }
  }
}
