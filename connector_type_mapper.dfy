/**
 * `ConnectorTypeMapper`: the per-connection chain of type-handler resolvers, the
 * handlers it builds itself for array, range, multirange, enum and domain types of
 * the database catalogue (cached by OID, by `NpgsqlDbType` and by data type name),
 * and the user mappings with the handler bindings made for them.
 */
module ConnectorTypeMappers {
  import opened Wrappers
  import TH = TypeHandlers
  import C = ClrTypes
  import B = BuiltInResolvers

  /** The three kinds of lookup a resolver answers. */
  datatype Query = ByOid(oid: nat) | ByDbType(dbType: TH.NpgsqlDbType) | ByName(name: string)

  /** One resolver of the chain, seen through its three lookups. */
  datatype Resolver = Resolver(
    resolveOid: nat -> Option<TH.TypeHandler>,
    resolveDbType: TH.NpgsqlDbType -> Option<TH.TypeHandler>,
    resolveName: string -> Option<TH.TypeHandler>)
  {
    function Answer(q: Query): Option<TH.TypeHandler>
    {
      match q
      case ByOid(oid) => resolveOid(oid)
      case ByDbType(t) => resolveDbType(t)
      case ByName(name) => resolveName(name)
    }
  }

  /** The answer of the first resolver in the chain that has one. */
  function FirstHit(rs: seq<Resolver>, q: Query): Option<TH.TypeHandler>
  {
    if rs == [] then None
    else if rs[0].Answer(q).Some? then rs[0].Answer(q)
    else FirstHit(rs[1..], q)
  }

  /** The chain answers exactly when some resolver does, and then with the earliest resolver's answer. */
  lemma {:induction false} FirstHitIsFirst(rs: seq<Resolver>, q: Query)
    ensures FirstHit(rs, q).None? <==> forall i | 0 <= i < |rs| :: rs[i].Answer(q).None?
    ensures forall i | 0 <= i < |rs| && rs[i].Answer(q).Some? ::
              (forall j | 0 <= j < i :: rs[j].Answer(q).None?) ==> FirstHit(rs, q) == rs[i].Answer(q)
  {
    if rs != [] && rs[0].Answer(q).None? {
      FirstHitIsFirst(rs[1..], q);
      assert forall i | 1 <= i < |rs| :: rs[i] == rs[1..][i - 1];
    }
  }

  /** The lookup a flagged `NpgsqlDbType` falls back to: the Array flag is stripped first, then Range, then Multirange. */
  function Stripped(t: TH.NpgsqlDbType): TH.NpgsqlDbType
  {
    if t.isArray then t.(isArray := false)
    else if t.isRange then t.(isRange := false)
    else t.(isMultirange := false)
  }

  /** An `NpgsqlTypeMapping`: a data type name, an optional `NpgsqlDbType`, CLR types, and the class its factory creates. */
  datatype TypeMapping = TypeMapping(
    pgTypeName: string, npgsqlDbType: Option<TH.NpgsqlDbType>, clrTypes: seq<C.ClrType>,
    handlerClass: TH.HandlerClass)

  /** `MappingsByName`, `MappingsByNpgsqlDbType` and `MappingsByClrType`. */
  datatype Mappings = Mappings(
    byName: map<string, TypeMapping>,
    byDbType: map<TH.NpgsqlDbType, TypeMapping>,
    byClrType: map<C.ClrType, TypeMapping>)

  /** The indexes after `AddMapping`'s assignments: by name, by `NpgsqlDbType` if any, and by each CLR type. */
  function Indexed(ms: Mappings, m: TypeMapping): Mappings
  {
    Mappings(
      ms.byName[m.pgTypeName := m],
      if m.npgsqlDbType.Some? then ms.byDbType[m.npgsqlDbType.value := m] else ms.byDbType,
      ms.byClrType + map c | c in m.clrTypes :: m)
  }

  /**
   * The indexes after `RemoveMapping` finds `name`: the three keys of that mapping are
   * removed, whichever mapping they now lead to.
   */
  function Unindexed(ms: Mappings, name: string): Mappings
    requires name in ms.byName
  {
    var m := ms.byName[name];
    Mappings(
      ms.byName - {name},
      if m.npgsqlDbType.Some? then ms.byDbType - {m.npgsqlDbType.value} else ms.byDbType,
      ms.byClrType - set c | c in m.clrTypes)
  }

  /** What `AddMapping` indexes into: the mapping of the same name removed first, if there is one. */
  function Replaced(ms: Mappings, name: string): Mappings
  {
    if name in ms.byName then Unindexed(ms, name) else ms
  }

  /** After adding, the mapping is found by its name, its `NpgsqlDbType` and each CLR type; other keys are untouched. */
  lemma IndexedFindsMapping(ms: Mappings, m: TypeMapping)
    ensures Indexed(ms, m).byName[m.pgTypeName] == m
    ensures m.npgsqlDbType.Some? ==> Indexed(ms, m).byDbType[m.npgsqlDbType.value] == m
    ensures forall c | c in m.clrTypes :: Indexed(ms, m).byClrType[c] == m
    ensures forall n | n != m.pgTypeName :: (n in Indexed(ms, m).byName <==> n in ms.byName)
    ensures forall n | n in ms.byName && n != m.pgTypeName :: Indexed(ms, m).byName[n] == ms.byName[n]
    ensures forall c | c !in m.clrTypes :: (c in Indexed(ms, m).byClrType <==> c in ms.byClrType)
    ensures forall c | c in ms.byClrType && c !in m.clrTypes :: Indexed(ms, m).byClrType[c] == ms.byClrType[c]
  {
  }

  /** Removing a mapping that was added under fresh keys gives back the indexes as they were. */
  lemma RemoveUndoesAdd(ms: Mappings, m: TypeMapping)
    requires m.pgTypeName !in ms.byName
    requires m.npgsqlDbType.Some? ==> m.npgsqlDbType.value !in ms.byDbType
    requires forall c | c in m.clrTypes :: c !in ms.byClrType
    ensures Unindexed(Indexed(ms, m), m.pgTypeName) == ms
  {
    var after := Unindexed(Indexed(ms, m), m.pgTypeName);
    assert after.byName == ms.byName;
    assert after.byDbType == ms.byDbType;
    assert after.byClrType == ms.byClrType;
  }

  /**
   * Removing a mapping drops each of its CLR types from the index even where a later
   * mapping has taken the type over.
   */
  lemma RemoveDropsSharedClrType(ms: Mappings, name: string, c: C.ClrType)
    requires name in ms.byName && c in ms.byName[name].clrTypes
    ensures c !in Unindexed(ms, name).byClrType && name !in Unindexed(ms, name).byName
  {
  }

  /** The handler bindings: by OID, `NpgsqlDbType`, type name, CLR type, and array handlers by element CLR type. */
  datatype Bindings = Bindings(
    byOid: map<nat, TH.TypeHandler>,
    byDbType: map<TH.NpgsqlDbType, TH.TypeHandler>,
    byTypeName: map<string, TH.TypeHandler>,
    byClrType: map<C.ClrType, TH.TypeHandler>,
    arrayByClrType: map<C.ClrType, TH.TypeHandler>)

  /**
   * The bindings `ClearBindings` leaves: the OID, `NpgsqlDbType`, CLR-type and array maps
   * emptied, Unknown and `DBNull` bound to the unrecognized handler. The type-name map
   * is not cleared.
   */
  function Cleared(b: Bindings, unrecognized: TH.TypeHandler): Bindings
  {
    Bindings(map[], map[TH.Plain(TH.Unknown) := unrecognized], b.byTypeName, map[C.DBNull := unrecognized], map[])
  }

  /**
   * The number of CLR types bound before one is met that is already bound, either
   * beforehand (in `keys`) or earlier in the same list.
   */
  function FirstClash(keys: set<C.ClrType>, cs: seq<C.ClrType>): (k: nat)
    ensures k <= |cs|
    ensures forall i | 0 <= i < k :: cs[i] !in keys && cs[i] !in cs[..i]
    ensures k < |cs| ==> cs[k] in keys || cs[k] in cs[..k]
    decreases |cs|
  {
    if cs == [] then 0
    else if cs[0] in keys then 0
    else
      var k := 1 + FirstClash(keys + {cs[0]}, cs[1..]);
      assert forall i | 1 <= i <= |cs| :: cs[..i] == [cs[0]] + cs[1..][..i - 1];
      k
  }

  /**
   * `GetOrBindHandler`: the bindings afterwards and the result. An OID already bound
   * gives back its handler when the classes agree and throws otherwise, changing
   * nothing. Else the OID and both names are bound first; then a bound `NpgsqlDbType`
   * throws, and so does the first CLR type already bound, leaving the earlier ones bound.
   */
  function Bind(b: Bindings, h: TH.TypeHandler, pg: TH.PostgresType, dbType: Option<TH.NpgsqlDbType>,
                clrTypes: seq<C.ClrType>): (r: (Bindings, Result<TH.TypeHandler>))
    ensures r.1.Err? ==> r.1.error == InvalidOperation
  {
    if pg.oid in b.byOid then
      if b.byOid[pg.oid].handlerClass != h.handlerClass then (b, Err(InvalidOperation))
      else (b, Ok(b.byOid[pg.oid]))
    else
      var b1 := b.(byOid := b.byOid[pg.oid := h], byTypeName := b.byTypeName[pg.fullName := h][pg.name := h]);
      if dbType.Some? && dbType.value in b1.byDbType then (b1, Err(InvalidOperation))
      else
        var b2 := if dbType.Some? then b1.(byDbType := b1.byDbType[dbType.value := h]) else b1;
        var k := FirstClash(b2.byClrType.Keys, clrTypes);
        (b2.(byClrType := b2.byClrType + map c | c in clrTypes[..k] :: h),
         if k < |clrTypes| then Err(InvalidOperation) else Ok(h))
  }

  /** A successful bind leaves every key of the type bound to the same handler, of the requested class. */
  lemma BindSucceeds(b: Bindings, h: TH.TypeHandler, pg: TH.PostgresType, dbType: Option<TH.NpgsqlDbType>,
                     clrTypes: seq<C.ClrType>)
    requires Bind(b, h, pg, dbType, clrTypes).1.Ok?
    ensures var (b', r) := Bind(b, h, pg, dbType, clrTypes);
            && r.value.handlerClass == h.handlerClass
            && b'.byOid[pg.oid] == r.value
            && (pg.oid !in b.byOid ==>
                  && r.value == h
                  && b'.byTypeName[pg.name] == h && b'.byTypeName[pg.fullName] == h
                  && (dbType.Some? ==> b'.byDbType[dbType.value] == h)
                  && (forall c | c in clrTypes :: c in b'.byClrType && b'.byClrType[c] == h)
                  && (forall c | c in b.byClrType :: c in b'.byClrType && b'.byClrType[c] == b.byClrType[c]))
  {
    if pg.oid !in b.byOid {
      var b1 := b.(byOid := b.byOid[pg.oid := h], byTypeName := b.byTypeName[pg.fullName := h][pg.name := h]);
      var b2 := if dbType.Some? then b1.(byDbType := b1.byDbType[dbType.value := h]) else b1;
      assert FirstClash(b2.byClrType.Keys, clrTypes) == |clrTypes|;
      assert clrTypes[..|clrTypes|] == clrTypes;
    }
  }

  /**
   * A bind throws exactly on a class conflict at the OID, a bound `NpgsqlDbType`, or a
   * CLR type bound twice; only the class conflict leaves the bindings as they were.
   */
  lemma BindFails(b: Bindings, h: TH.TypeHandler, pg: TH.PostgresType, dbType: Option<TH.NpgsqlDbType>,
                  clrTypes: seq<C.ClrType>)
    ensures var r := Bind(b, h, pg, dbType, clrTypes).1;
            r.Err? <==>
              if pg.oid in b.byOid then b.byOid[pg.oid].handlerClass != h.handlerClass
              else (dbType.Some? && dbType.value in b.byDbType)
                   || (exists i | 0 <= i < |clrTypes| :: clrTypes[i] in b.byClrType)
                   || (exists i, j | 0 <= i < j < |clrTypes| :: clrTypes[i] == clrTypes[j])
    ensures pg.oid in b.byOid ==> Bind(b, h, pg, dbType, clrTypes).0 == b
  {
    if pg.oid !in b.byOid && !(dbType.Some? && dbType.value in b.byDbType) {
      var b1 := b.(byOid := b.byOid[pg.oid := h], byTypeName := b.byTypeName[pg.fullName := h][pg.name := h]);
      var b2 := if dbType.Some? then b1.(byDbType := b1.byDbType[dbType.value := h]) else b1;
      assert b2.byClrType == b.byClrType;
      var k := FirstClash(b.byClrType.Keys, clrTypes);
      if k < |clrTypes| {
        if clrTypes[k] !in b.byClrType {
          var i :| 0 <= i < k && clrTypes[..k][i] == clrTypes[k];
          assert i < k && clrTypes[i] == clrTypes[k];
        }
      } else {
        assert forall i | 0 <= i < |clrTypes| :: clrTypes[i] !in b.byClrType && clrTypes[i] !in clrTypes[..i];
        forall i, j | 0 <= i < j < |clrTypes|
          ensures clrTypes[i] != clrTypes[j]
        {
          assert clrTypes[..j][i] == clrTypes[i];
        }
      }
    }
  }

  /** The classes of a lookup's result, keeping its error. */
  function ClassesOf(r: Result<Option<TH.TypeHandler>>): Result<Option<TH.HandlerClass>>
  {
    match r
    case Err(e) => Err(e)
    case Ok(None) => Ok(None)
    case Ok(Some(h)) => Ok(Some(h.handlerClass))
  }

  /** `CreateRangeHandler`: a range handler refuses to be the subtype of another range. */
  function RangeOver(subtype: TH.HandlerClass): Result<TH.HandlerClass>
  {
    if subtype.RangeOf? then Err(NotSupported) else Ok(TH.RangeOf(subtype))
  }

  /** Below the first clash, the next type clashes exactly when it is the first clash. */
  lemma FirstClashStep(keys: set<C.ClrType>, cs: seq<C.ClrType>, i: nat)
    requires i <= FirstClash(keys, cs) && i < |cs|
    ensures (cs[i] in keys || cs[i] in cs[..i]) <==> FirstClash(keys, cs) == i
  {
  }

  lemma BindOneMore(byClrType: map<C.ClrType, TH.TypeHandler>, bound: seq<C.ClrType>, next: C.ClrType,
                    h: TH.TypeHandler)
    ensures (byClrType + map c | c in bound :: h)[next := h] == byClrType + map c | c in bound + [next] :: h
  {
  }

  lemma BoundKeys(byClrType: map<C.ClrType, TH.TypeHandler>, bound: seq<C.ClrType>, next: C.ClrType,
                  h: TH.TypeHandler)
    ensures next in (byClrType + map c | c in bound :: h) <==> next in byClrType.Keys || next in bound
  {
  }

  /** One turn of the loop below: the next type is already bound exactly at the first clash, else it is bound now. */
  lemma BindStep(byClrType: map<C.ClrType, TH.TypeHandler>, h: TH.TypeHandler, clrTypes: seq<C.ClrType>, bound: nat)
    requires bound <= FirstClash(byClrType.Keys, clrTypes) && bound < |clrTypes|
    ensures var done := clrTypes[..bound];
            clrTypes[bound] in (byClrType + map c | c in done :: h) <==> FirstClash(byClrType.Keys, clrTypes) == bound
    ensures var done, next := clrTypes[..bound], clrTypes[..bound + 1];
            (byClrType + map c | c in done :: h)[clrTypes[bound] := h] == byClrType + map c | c in next :: h
  {
    FirstClashStep(byClrType.Keys, clrTypes, bound);
    BoundKeys(byClrType, clrTypes[..bound], clrTypes[bound], h);
    BindOneMore(byClrType, clrTypes[..bound], clrTypes[bound], h);
    assert clrTypes[..bound + 1] == clrTypes[..bound] + [clrTypes[bound]];
  }

  /** The CLR-type loop of `GetOrBindHandler`: binds each type in turn and stops at the first one already bound. */
  method BindEach(byClrType: map<C.ClrType, TH.TypeHandler>, h: TH.TypeHandler, clrTypes: seq<C.ClrType>)
    returns (r: map<C.ClrType, TH.TypeHandler>, bound: nat)
    ensures bound == FirstClash(byClrType.Keys, clrTypes)
    ensures r == byClrType + map c | c in clrTypes[..bound] :: h
  {
    r := byClrType;
    bound := 0;
    while bound < |clrTypes|
      invariant bound <= FirstClash(byClrType.Keys, clrTypes)
      invariant r == byClrType + map c | c in clrTypes[..bound] :: h
    {
      BindStep(byClrType, h, clrTypes, bound);
      if clrTypes[bound] in r {
        return;
      }
      r := r[clrTypes[bound] := h];
      bound := bound + 1;
    }
  }

  /** The CLR-type loop of `AddMapping`. */
  method IndexEach(byClrType: map<C.ClrType, TypeMapping>, m: TypeMapping) returns (r: map<C.ClrType, TypeMapping>)
    ensures r == byClrType + map c | c in m.clrTypes :: m
  {
    r := byClrType;
    var i := 0;
    while i < |m.clrTypes|
      invariant 0 <= i <= |m.clrTypes|
      invariant r == byClrType + map c | c in m.clrTypes[..i] :: m
    {
      r := r[m.clrTypes[i] := m];
      assert m.clrTypes[..i + 1] == m.clrTypes[..i] + [m.clrTypes[i]];
      i := i + 1;
    }
    assert m.clrTypes[..i] == m.clrTypes;
  }

  /** The CLR-type loop of `RemoveMapping`. */
  method UnindexEach(byClrType: map<C.ClrType, TypeMapping>, m: TypeMapping) returns (r: map<C.ClrType, TypeMapping>)
    ensures r == byClrType - set c | c in m.clrTypes
  {
    r := byClrType;
    var i := 0;
    while i < |m.clrTypes|
      invariant 0 <= i <= |m.clrTypes|
      invariant r == byClrType - set c | c in m.clrTypes[..i]
    {
      r := r - {m.clrTypes[i]};
      assert m.clrTypes[..i + 1] == m.clrTypes[..i] + [m.clrTypes[i]];
      i := i + 1;
    }
    assert m.clrTypes[..i] == m.clrTypes;
  }

  class ConnectorTypeMapper {
    const db: TH.DatabaseInfo
    /** `_resolvers`, in the order the global mapper's factories were registered. */
    const resolvers: seq<Resolver>
    /** `UnrecognizedTypeHandler`. */
    const unrecognized: TH.TypeHandler
    /** `_extraHandlersByOID`, `_extraHandlersByNpgsqlDbType` and `_extraHandlersByDataTypeName`. */
    var extraByOid: map<nat, TH.TypeHandler>
    var extraByDbType: map<TH.NpgsqlDbType, TH.TypeHandler>
    var extraByName: map<string, TH.TypeHandler>
    var mappings: Mappings
    var bindings: Bindings
    var changeCounter: int
    /** A ranking under which the catalogue's references point downwards; it orders the recursion. */
    ghost const rank: map<nat, nat>

    /**
     * The class of the handler `TryResolveOID` finds: a resolver's, else one built from
     * the catalogue entry; `None` when the OID is not found.
     */
    function OidClass(oid: nat): Result<Option<TH.HandlerClass>>
      requires db.RankedBy(rank)
      decreases TH.RankOf(rank, oid), 2
    {
      var hit := FirstHit(resolvers, ByOid(oid));
      if hit.Some? then Ok(Some(hit.value.handlerClass))
      else if oid !in db.byOid then Ok(None)
      else EntryClass(db.byOid[oid].kind, oid)
    }

    /** The class of the handler `ResolveOID` gives, the unrecognized handler's when none is found. */
    function ResolvedClass(oid: nat): Result<TH.HandlerClass>
      requires db.RankedBy(rank)
      decreases TH.RankOf(rank, oid), 3
    {
      match OidClass(oid)
      case Err(e) => Err(e)
      case Ok(None) => Ok(TH.Unrecognized)
      case Ok(Some(c)) => Ok(c)
    }

    /**
     * The class of the handler built for a catalogue entry of kind `kind`: an array,
     * range or multirange handler over the handler of the type it refers to, an
     * unmapped-enum handler, or a domain's base type handler itself; other kinds have none.
     */
    function EntryClass(kind: TH.TypeKind, oid: nat): Result<Option<TH.HandlerClass>>
      requires db.RankedBy(rank) && db.RefersBelow(kind, oid, rank)
      decreases TH.RankOf(rank, oid), 1
    {
      match kind
      case ArrayType(e) =>
        (match ResolvedClass(e)
         case Err(x) => Err(x)
         case Ok(c) => Ok(Some(TH.ArrayOf(c))))
      case RangeType(s, _) =>
        (match ResolvedClass(s)
         case Err(x) => Err(x)
         case Ok(c) => if c.RangeOf? then Err(NotSupported) else Ok(Some(TH.RangeOf(c))))
      case MultirangeType(r) =>
        (match ResolvedClass(db.byOid[r].kind.subtype)
         case Err(x) => Err(x)
         case Ok(c) => Ok(Some(TH.MultirangeOf(c))))
      case EnumType => Ok(Some(TH.UnmappedEnum))
      case DomainType(b) =>
        (match ResolvedClass(b)
         case Err(x) => Err(x)
         case Ok(c) => Ok(Some(c)))
      case _ => Ok(None)
    }

    /**
     * The class of the handler `ResolveDataTypeName` gives: a resolver's, else one built
     * from the catalogue entry of that name. An unknown name fails as `PostgresTypeByName`
     * does, a plain base type is not supported, and composite and pseudo types are out of range.
     */
    function NameClass(name: string): Result<TH.HandlerClass>
      requires db.RankedBy(rank)
    {
      var hit := FirstHit(resolvers, ByName(name));
      if hit.Some? then Ok(hit.value.handlerClass)
      else
        match db.PostgresTypeByName(name)
        case Err(e) => Err(e)
        case Ok(pg) =>
        match EntryClass(pg.kind, pg.oid)
        case Err(x) => Err(x)
        case Ok(None) => Err(if pg.kind.BaseType? then NotSupported else ArgumentOutOfRange)
        case Ok(Some(c)) => Ok(c)
    }

    /**
     * The catalogue entry of the array, range or multirange type over `h`'s PostgreSQL
     * type that a flagged `NpgsqlDbType` asks for, if the database has one.
     */
    function Container(t: TH.NpgsqlDbType, h: TH.TypeHandler): Option<TH.PostgresType>
    {
      if h.postgresType.None? then None
      else
        var pg := h.postgresType.value;
        if t.isArray then
          if pg.arrayType.Some? && pg.arrayType.value in db.byOid then Some(db.byOid[pg.arrayType.value]) else None
        else if t.isRange then
          if pg.rangeType.Some? && pg.rangeType.value in db.byOid then Some(db.byOid[pg.rangeType.value]) else None
        else if pg.rangeType.Some? && pg.rangeType.value in db.byOid && db.byOid[pg.rangeType.value].kind.RangeType?
                && db.byOid[pg.rangeType.value].kind.multirange.Some?
                && db.byOid[pg.rangeType.value].kind.multirange.value in db.byOid then
          Some(db.byOid[db.byOid[pg.rangeType.value].kind.multirange.value])
        else None
    }

    /**
     * The class of the handler `ResolveNpgsqlDbType` builds for a value no resolver
     * answers: an unflagged value is not in the database; otherwise the value with one
     * flag stripped must be answered by a resolver, and its handler's type must have an
     * array, range or multirange type.
     */
    function FlaggedClass(t: TH.NpgsqlDbType): Result<TH.HandlerClass>
    {
      if t.IsPlain() then Err(NpgsqlError)
      else
        var e := FirstHit(resolvers, ByDbType(Stripped(t)));
        if e.None? || Container(t, e.value).None? then Err(Argument)
        else if t.isArray then Ok(TH.ArrayOf(e.value.handlerClass))
        else if t.isRange then RangeOver(e.value.handlerClass)
        else Ok(TH.MultirangeOf(e.value.handlerClass))
    }

    /** The handler a later OID lookup returns at once: a resolver's, else the cached one. */
    function Known(oid: nat): Option<TH.TypeHandler>
      reads this
    {
      var hit := FirstHit(resolvers, ByOid(oid));
      if hit.Some? then hit
      else if oid in extraByOid then Some(extraByOid[oid])
      else None
    }

    function Answer(oid: nat): TH.TypeHandler
      reads this
    {
      if Known(oid).Some? then Known(oid).value else unrecognized
    }

    /** Every cached handler is one no resolver overrides, of the class the lookup would build. */
    ghost predicate Valid()
      reads this
    {
      && db.RankedBy(rank)
      && unrecognized.handlerClass == TH.Unrecognized
      && (forall o | o in extraByOid ::
            FirstHit(resolvers, ByOid(o)).None? && OidClass(o) == Ok(Some(extraByOid[o].handlerClass)))
      && (forall n | n in extraByName ::
            FirstHit(resolvers, ByName(n)).None? && NameClass(n) == Ok(extraByName[n].handlerClass))
      && (forall t | t in extraByDbType ::
            FirstHit(resolvers, ByDbType(t)).None? && FlaggedClass(t) == Ok(extraByDbType[t].handlerClass))
    }

    /** The constructor with `Reset`: empty caches, cleared bindings, and the global mappings and change counter. */
    constructor (db: TH.DatabaseInfo, resolvers: seq<Resolver>, globalMappings: Mappings, globalChangeCounter: int)
      requires db.Acyclic()
      ensures Valid() && this.db == db && this.resolvers == resolvers
      ensures fresh(unrecognized)
      ensures extraByOid == map[] && extraByDbType == map[] && extraByName == map[]
      ensures bindings == Cleared(Bindings(map[], map[], map[], map[], map[]), unrecognized)
      ensures mappings == globalMappings && changeCounter == globalChangeCounter
    {
      this.db := db;
      this.resolvers := resolvers;
      ghost var ranking :| db.RankedBy(ranking);
      rank := ranking;
      unrecognized := new TH.TypeHandler(TH.Unrecognized, None);
      extraByOid := map[];
      extraByDbType := map[];
      extraByName := map[];
      bindings := Bindings(map[], map[], map[], map[], map[]);
      mappings := globalMappings;
      changeCounter := globalChangeCounter;
      new;
      ClearBindings();
    }

    /** The `foreach` over `_resolvers` with early return. */
    method Lookup(q: Query) returns (r: Option<TH.TypeHandler>)
      ensures r == FirstHit(resolvers, q)
    {
      var i := 0;
      while i < |resolvers|
        invariant 0 <= i <= |resolvers|
        invariant FirstHit(resolvers[i..], q) == FirstHit(resolvers, q)
      {
        assert resolvers[i..][1..] == resolvers[i + 1..];
        r := resolvers[i].Answer(q);
        if r.Some? {
          return;
        }
        i := i + 1;
      }
      return None;
    }

    /** `ResolveOID`: what `TryResolveOID` finds, else the unrecognized handler. */
    method ResolveOID(oid: nat) returns (r: Result<TH.TypeHandler>)
      requires Valid()
      modifies this`extraByOid
      decreases TH.RankOf(rank, oid), 3
      ensures Valid() && B.Extends(old(extraByOid), extraByOid)
      ensures r.Ok? ==> ResolvedClass(oid) == Ok(r.value.handlerClass) && r.value == Answer(oid)
      ensures r.Err? ==> ResolvedClass(oid) == Err(r.error)
    {
      var found := TryResolveOID(oid);
      match found
      case Err(e) => return Err(e);
      case Ok(None) => return Ok(unrecognized);
      case Ok(Some(h)) => return Ok(h);
    }

    /**
     * `TryResolveOID`: the first resolver's answer; else the cached handler; else one
     * built for the catalogue entry and cached under the OID.
     */
    method TryResolveOID(oid: nat) returns (r: Result<Option<TH.TypeHandler>>)
      requires Valid()
      modifies this`extraByOid
      decreases TH.RankOf(rank, oid), 2
      ensures Valid() && B.Extends(old(extraByOid), extraByOid)
      ensures ClassesOf(r) == OidClass(oid)
      ensures r.Ok? ==> r.value == Known(oid)
      ensures old(Known(oid)).Some? ==> r == Ok(old(Known(oid))) && extraByOid == old(extraByOid)
      ensures old(Known(oid)).None? && r.Ok? && r.value.Some? && !db.byOid[oid].kind.DomainType? ==>
                fresh(r.value.value) && r.value.value.postgresType == Some(db.byOid[oid])
      ensures old(Known(oid)).None? && oid in db.byOid && db.byOid[oid].kind.DomainType? && r.Ok? ==>
                r.value == Some(Answer(db.byOid[oid].kind.baseType))
    {
      var hit := Lookup(ByOid(oid));
      if hit.Some? {
        return Ok(hit);
      }
      if oid in extraByOid {
        return Ok(Some(extraByOid[oid]));
      }
      if oid !in db.byOid {
        return Ok(None);
      }
      r := CreateForEntry(db.byOid[oid]);
      if r.Ok? && r.value.Some? {
        extraByOid := extraByOid[oid := r.value.value];
      }
    }

    /**
     * The `switch` on the catalogue entry shared by `TryResolveOID` and
     * `ResolveDataTypeName`: the handler for an array, range, multirange, enum or domain
     * type, or none for any other kind.
     */
    method CreateForEntry(pg: TH.PostgresType) returns (r: Result<Option<TH.TypeHandler>>)
      requires Valid() && db.RefersBelow(pg.kind, pg.oid, rank)
      modifies this`extraByOid
      decreases TH.RankOf(rank, pg.oid), 1
      ensures Valid() && B.Extends(old(extraByOid), extraByOid)
      ensures ClassesOf(r) == EntryClass(pg.kind, pg.oid)
      ensures r.Ok? && r.value.Some? && !pg.kind.DomainType? ==>
                fresh(r.value.value) && r.value.value.postgresType == Some(pg)
      ensures r.Ok? && pg.kind.DomainType? ==> r.value == Some(Answer(pg.kind.baseType))
    {
      match pg.kind
      case ArrayType(e) =>
        var element := ResolveOID(e);
        if element.Err? {
          return Err(element.error);
        }
        var h := new TH.TypeHandler(TH.ArrayOf(element.value.handlerClass), Some(pg));
        return Ok(Some(h));
      case RangeType(s, _) =>
        var subtype := ResolveOID(s);
        if subtype.Err? {
          return Err(subtype.error);
        }
        var c := RangeOver(subtype.value.handlerClass);
        if c.Err? {
          return Err(c.error);
        }
        var h := new TH.TypeHandler(c.value, Some(pg));
        return Ok(Some(h));
      case MultirangeType(rg) =>
        var subtype := ResolveOID(db.byOid[rg].kind.subtype);
        if subtype.Err? {
          return Err(subtype.error);
        }
        var h := new TH.TypeHandler(TH.MultirangeOf(subtype.value.handlerClass), Some(pg));
        return Ok(Some(h));
      case EnumType =>
        var h := new TH.TypeHandler(TH.UnmappedEnum, Some(pg));
        return Ok(Some(h));
      case DomainType(b) =>
        var base := ResolveOID(b);
        if base.Err? {
          return Err(base.error);
        }
        return Ok(Some(base.value));
      case _ =>
        return Ok(None);
    }

    /**
     * `ResolveNpgsqlDbType`: the first resolver's answer, else the cached handler, else
     * for a flagged value a handler built over the resolver's answer for the value with
     * one flag stripped, cached under the flagged value.
     */
    method ResolveNpgsqlDbType(t: TH.NpgsqlDbType) returns (r: Result<TH.TypeHandler>)
      requires Valid()
      modifies this`extraByDbType
      ensures Valid()
      ensures FirstHit(resolvers, ByDbType(t)).Some? ==>
                r == Ok(FirstHit(resolvers, ByDbType(t)).value) && extraByDbType == old(extraByDbType)
      ensures FirstHit(resolvers, ByDbType(t)).None? && t in old(extraByDbType) ==>
                r == Ok(old(extraByDbType)[t]) && extraByDbType == old(extraByDbType)
      ensures FirstHit(resolvers, ByDbType(t)).None? && t !in old(extraByDbType) ==>
                && (r.Err? <==> FlaggedClass(t).Err?)
                && (r.Err? ==> r.error == FlaggedClass(t).error && extraByDbType == old(extraByDbType))
                && (r.Ok? ==> && fresh(r.value) && r.value.handlerClass == FlaggedClass(t).value
                              && r.value.postgresType == Container(t, FirstHit(resolvers, ByDbType(Stripped(t))).value)
                              && extraByDbType == old(extraByDbType)[t := r.value])
    {
      var hit := Lookup(ByDbType(t));
      if hit.Some? {
        return Ok(hit.value);
      }
      if t in extraByDbType {
        return Ok(extraByDbType[t]);
      }
      if t.IsPlain() {
        return Err(NpgsqlError);
      }
      var inner := Lookup(ByDbType(Stripped(t)));
      if inner.None? {
        return Err(Argument);
      }
      var pg := Container(t, inner.value);
      if pg.None? {
        return Err(Argument);
      }
      var c: TH.HandlerClass;
      if t.isArray {
        c := TH.ArrayOf(inner.value.handlerClass);
      } else if t.isRange {
        var range := RangeOver(inner.value.handlerClass);
        if range.Err? {
          return Err(range.error);
        }
        c := range.value;
      } else {
        c := TH.MultirangeOf(inner.value.handlerClass);
      }
      var h := new TH.TypeHandler(c, pg);
      extraByDbType := extraByDbType[t := h];
      return Ok(h);
    }

    /**
     * `ResolveDataTypeName`: the first resolver's answer, else the cached handler, else
     * one built for the catalogue entry of that name and cached under the name.
     */
    method ResolveDataTypeName(name: string) returns (r: Result<TH.TypeHandler>)
      requires Valid()
      modifies this`extraByOid, this`extraByName
      ensures Valid() && B.Extends(old(extraByOid), extraByOid)
      ensures r.Ok? ==> NameClass(name) == Ok(r.value.handlerClass)
      ensures r.Err? ==> NameClass(name) == Err(r.error)
      ensures FirstHit(resolvers, ByName(name)).None? && name !in db.byName ==> r == Err(Argument)
      ensures FirstHit(resolvers, ByName(name)).Some? ==>
                r == Ok(FirstHit(resolvers, ByName(name)).value)
                && extraByName == old(extraByName) && extraByOid == old(extraByOid)
      ensures FirstHit(resolvers, ByName(name)).None? && name in old(extraByName) ==>
                r == Ok(old(extraByName)[name]) && extraByName == old(extraByName) && extraByOid == old(extraByOid)
      ensures FirstHit(resolvers, ByName(name)).None? && name !in old(extraByName) ==>
                extraByName == if r.Ok? then old(extraByName)[name := r.value] else old(extraByName)
    {
      var hit := Lookup(ByName(name));
      if hit.Some? {
        return Ok(hit.value);
      }
      if name in extraByName {
        return Ok(extraByName[name]);
      }
      var pgType := db.PostgresTypeByName(name);
      if pgType.Err? {
        return Err(pgType.error);
      }
      var pg := pgType.value;
      var built := CreateForEntry(pg);
      match built
      case Err(e) =>
        return Err(e);
      case Ok(None) =>
        return Err(if pg.kind.BaseType? then NotSupported else ArgumentOutOfRange);
      case Ok(Some(h)) =>
        extraByName := extraByName[name := h];
        return Ok(h);
    }

    /** `ClearBindings`. */
    method ClearBindings()
      modifies this`bindings
      ensures bindings == Cleared(old(bindings), unrecognized)
    {
      bindings := bindings.(byOid := map[], byDbType := map[], byClrType := map[], arrayByClrType := map[]);
      bindings := bindings.(byDbType := bindings.byDbType[TH.Plain(TH.Unknown) := unrecognized]);
      bindings := bindings.(byClrType := bindings.byClrType[C.DBNull := unrecognized]);
    }

    /** `GetOrBindHandler`, proved against `Bind`. */
    method GetOrBindHandler(h: TH.TypeHandler, pg: TH.PostgresType, dbType: Option<TH.NpgsqlDbType>,
                            clrTypes: seq<C.ClrType>) returns (r: Result<TH.TypeHandler>)
      modifies this`bindings
      ensures bindings == Bind(old(bindings), h, pg, dbType, clrTypes).0
      ensures r == Bind(old(bindings), h, pg, dbType, clrTypes).1
    {
      if pg.oid in bindings.byOid {
        var existing := bindings.byOid[pg.oid];
        if h.handlerClass != existing.handlerClass {
          return Err(InvalidOperation);
        }
        return Ok(existing);
      }
      var b := bindings.(byOid := bindings.byOid[pg.oid := h]);
      b := b.(byTypeName := b.byTypeName[pg.fullName := h]);
      b := b.(byTypeName := b.byTypeName[pg.name := h]);
      if dbType.Some? {
        if dbType.value in b.byDbType {
          bindings := b;
          return Err(InvalidOperation);
        }
        b := b.(byDbType := b.byDbType[dbType.value := h]);
      }
      var byClrType, bound := BindEach(b.byClrType, h, clrTypes);
      bindings := b.(byClrType := byClrType);
      r := if bound < |clrTypes| then Err(InvalidOperation) else Ok(h);
    }

    /** `GetPostgresType`: the catalogue entry of the mapping's name, which may not be a domain. */
    function GetPostgresType(m: TypeMapping): (r: Result<TH.PostgresType>)
      ensures r.Ok? <==> m.pgTypeName in db.byName && !db.byName[m.pgTypeName].kind.DomainType?
      ensures r.Ok? ==> r.value == db.byName[m.pgTypeName]
      ensures r.Err? ==> r.error == (if m.pgTypeName in db.byName then NotSupported else Argument)
    {
      match db.PostgresTypeByName(m.pgTypeName)
      case Err(e) => Err(e)
      case Ok(pg) => if pg.kind.DomainType? then Err(NotSupported) else Ok(pg)
    }

    /**
     * `GetOrBindBaseHandler`: a handler of the mapping's class for its PostgreSQL type,
     * bound under the mapping's keys. `created` names the handler made for the bind.
     */
    method GetOrBindBaseHandler(m: TypeMapping) returns (r: Result<TH.TypeHandler>, ghost created: TH.TypeHandler)
      modifies this`bindings
      ensures GetPostgresType(m).Err? ==> r == Err(GetPostgresType(m).error) && bindings == old(bindings)
      ensures GetPostgresType(m).Ok? ==>
                && fresh(created) && created.handlerClass == m.handlerClass
                && created.postgresType == Some(GetPostgresType(m).value)
                && bindings == Bind(old(bindings), created, GetPostgresType(m).value, m.npgsqlDbType, m.clrTypes).0
                && r == Bind(old(bindings), created, GetPostgresType(m).value, m.npgsqlDbType, m.clrTypes).1
    {
      created := unrecognized;
      var pg := GetPostgresType(m);
      if pg.Err? {
        return Err(pg.error), created;
      }
      var h := new TH.TypeHandler(m.handlerClass, Some(pg.value));
      created := h;
      r := GetOrBindHandler(h, pg.value, m.npgsqlDbType, m.clrTypes);
    }

    /**
     * `RemoveMapping`: refused unless the connector is ready; false when no mapping has
     * the name; otherwise the mapping's index entries are removed, the bindings cleared
     * and the change counter set to -1.
     */
    method RemoveMapping(name: string, ready: bool) returns (r: Result<bool>)
      modifies this`mappings, this`bindings, this`changeCounter
      ensures !ready ==> r == Err(InvalidOperation)
      ensures (!ready || name !in old(mappings.byName)) ==>
                mappings == old(mappings) && bindings == old(bindings) && changeCounter == old(changeCounter)
      ensures ready ==> r == Ok(name in old(mappings.byName))
      ensures ready && name in old(mappings.byName) ==>
                && mappings == Unindexed(old(mappings), name)
                && bindings == Cleared(old(bindings), unrecognized)
                && changeCounter == -1
    {
      if !ready {
        return Err(InvalidOperation);
      }
      if name !in mappings.byName {
        return Ok(false);
      }
      UnindexMapping(name);
      ClearBindingsAndCounter();
      return Ok(true);
    }

    /** The last two steps of `RemoveMapping`: `ClearBindings` and the change counter set to -1. */
    method ClearBindingsAndCounter()
      modifies this`bindings, this`changeCounter
      ensures bindings == Cleared(old(bindings), unrecognized)
      ensures changeCounter == -1
    {
      ClearBindings();
      changeCounter := -1;
    }

    /** The three index removals of `RemoveMapping`. */
    method UnindexMapping(name: string)
      requires name in mappings.byName
      modifies this`mappings
      ensures mappings == Unindexed(old(mappings), name)
    {
      var m := mappings.byName[name];
      var byDbType := if m.npgsqlDbType.Some? then mappings.byDbType - {m.npgsqlDbType.value} else mappings.byDbType;
      var byClrType := UnindexEach(mappings.byClrType, m);
      mappings := Mappings(mappings.byName - {name}, byDbType, byClrType);
    }

    /** The three index assignments of `AddMapping`. */
    method IndexMapping(m: TypeMapping)
      modifies this`mappings
      ensures mappings == Indexed(old(mappings), m)
    {
      var byDbType := if m.npgsqlDbType.Some? then mappings.byDbType[m.npgsqlDbType.value := m] else mappings.byDbType;
      var byClrType := IndexEach(mappings.byClrType, m);
      mappings := Mappings(mappings.byName[m.pgTypeName := m], byDbType, byClrType);
    }

    /**
     * `AddMapping`: refused unless the connector is ready. A mapping of the same name is
     * removed first; the mapping is indexed by name, `NpgsqlDbType` and each CLR type;
     * then its base handler is bound and, if that succeeds, the change counter is set to -1.
     */
    method AddMapping(m: TypeMapping, ready: bool) returns (r: Result<Unit>, ghost created: TH.TypeHandler)
      modifies this`mappings, this`bindings, this`changeCounter
      ensures !ready ==>
                r == Err(InvalidOperation)
                && mappings == old(mappings) && bindings == old(bindings) && changeCounter == old(changeCounter)
      ensures ready ==> mappings == Indexed(Replaced(old(mappings), m.pgTypeName), m)
      ensures ready ==>
                var start := if m.pgTypeName in old(mappings.byName) then Cleared(old(bindings), unrecognized)
                             else old(bindings);
                if GetPostgresType(m).Err? then
                  r == Err(GetPostgresType(m).error) && bindings == start
                else
                  && fresh(created) && created.handlerClass == m.handlerClass
                  && bindings == Bind(start, created, GetPostgresType(m).value, m.npgsqlDbType, m.clrTypes).0
                  && (r.Ok? <==> Bind(start, created, GetPostgresType(m).value, m.npgsqlDbType, m.clrTypes).1.Ok?)
                  && (r.Err? ==> r.error == InvalidOperation)
      ensures ready ==>
                changeCounter == if r.Ok? || m.pgTypeName in old(mappings.byName) then -1 else old(changeCounter)
    {
      created := unrecognized;
      if !ready {
        return Err(InvalidOperation), created;
      }
      if m.pgTypeName in mappings.byName {
        var _ := RemoveMapping(m.pgTypeName, ready);
      }
      r, created := IndexAndBind(m);
    }

    /** The part of `AddMapping` after the removal: index the mapping, bind its base handler, bump the counter. */
    method IndexAndBind(m: TypeMapping) returns (r: Result<Unit>, ghost created: TH.TypeHandler)
      modifies this`mappings, this`bindings, this`changeCounter
      ensures mappings == Indexed(old(mappings), m)
      ensures GetPostgresType(m).Err? ==> r == Err(GetPostgresType(m).error) && bindings == old(bindings)
      ensures GetPostgresType(m).Ok? ==>
                && fresh(created) && created.handlerClass == m.handlerClass
                && bindings == Bind(old(bindings), created, GetPostgresType(m).value, m.npgsqlDbType, m.clrTypes).0
                && (r.Ok? <==> Bind(old(bindings), created, GetPostgresType(m).value, m.npgsqlDbType, m.clrTypes).1.Ok?)
                && (r.Err? ==> r.error == InvalidOperation)
      ensures changeCounter == if r.Ok? then -1 else old(changeCounter)
    {
      IndexMapping(m);
      var bound;
      bound, created := GetOrBindBaseHandler(m);
      if bound.Err? {
        return Err(bound.error), created;
      }
      changeCounter := -1;
      return Ok(Unit), created;
    }
  }
}
