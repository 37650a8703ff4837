/**
 * `PreparedStatementManager`: the per-connector cache of prepared statements. Entries
 * are keyed by SQL text; explicit preparation names them "_p1", "_p2", ...; automatic
 * preparation keeps a fixed array of candidates (evicting the least used) and a fixed
 * array of auto-prepared slots (replacing the least recently used).
 *
 * Instants (`DateTime`) are tick counts; `MaxTime` is `DateTime.MaxValue`.
 */
module PreparedStatements {
  import opened Wrappers
  import N = StatementNames

  datatype PreparedState = NotPrepared | BeingPrepared | Prepared | BeingUnprepared | Unprepared

  const MaxInt: int := 0x7fff_ffff
  const MaxTime: nat := 3155378975999999999
  const CandidateCount: nat := 100

  /**
   * A cache entry (the driver's `PreparedStatement`, a file not part of this model):
   * the fields the manager reads and writes. Parameters are compared by their type OIDs.
   */
  class CachedSqlEntry {
    const sql: string
    const isExplicit: bool
    var name: Option<string>
    var state: PreparedState
    var usages: int
    var lastUsed: nat
    var statementBeingReplaced: CachedSqlEntry?
    var paramTypes: seq<nat>
    var description: Option<nat>

    constructor CreateExplicit(sql: string, name: string, paramTypes: seq<nat>, replaced: CachedSqlEntry?)
      ensures this.sql == sql && isExplicit && this.name == Some(name) && state == NotPrepared
      ensures usages == 0 && lastUsed == 0 && statementBeingReplaced == replaced
      ensures this.paramTypes == paramTypes && description == None
    {
      this.sql := sql;
      isExplicit := true;
      this.name := Some(name);
      state := NotPrepared;
      usages := 0;
      lastUsed := 0;
      statementBeingReplaced := replaced;
      this.paramTypes := paramTypes;
      description := None;
    }

    constructor CreateAutoPrepareCandidate(sql: string)
      ensures this.sql == sql && !isExplicit && name == None && state == NotPrepared
      ensures usages == 0 && lastUsed == 0 && statementBeingReplaced == null
      ensures paramTypes == [] && description == None
    {
      this.sql := sql;
      isExplicit := false;
      name := None;
      state := NotPrepared;
      usages := 0;
      lastUsed := 0;
      statementBeingReplaced := null;
      paramTypes := [];
      description := None;
    }

    /** The entry's parameter type OIDs are those given, in the same order. */
    function DoParametersMatch(ps: seq<nat>): (b: bool)
      reads this
      ensures b <==> |ps| == |paramTypes| && forall i | 0 <= i < |ps| :: ps[i] == paramTypes[i]
    {
      paramTypes == ps
    }

    /** Of the five states only Prepared counts: an entry being prepared or replaced is not. */
    function IsPrepared(): (b: bool)
      reads this
      ensures b ==> state !in {NotPrepared, BeingPrepared, BeingUnprepared, Unprepared}
      ensures state == Prepared ==> b
    {
      state == Prepared
    }
  }

  // ---------------------------------------------------------------------------
  // Choosing the candidate slot to fill or evict
  // ---------------------------------------------------------------------------

  /** What the eviction scan compares about a candidate: its use count, then its last use. */
  datatype SlotKey = SlotKey(usages: int, lastUsed: nat)

  /** Lexicographic order on (usages, last use), the scan's "replace when smaller". */
  predicate Below(a: SlotKey, b: SlotKey)
  {
    a.usages < b.usages || (a.usages == b.usages && a.lastUsed < b.lastUsed)
  }

  /** The scan's starting point, (`int.MaxValue`, `DateTime.MaxValue`). */
  const Sentinel: SlotKey := SlotKey(MaxInt, MaxTime)

  /** The first empty candidate slot, or the number of slots when none is empty. */
  function FirstEmpty(keys: seq<Option<SlotKey>>): (k: nat)
    ensures k <= |keys|
    ensures k < |keys| ==> keys[k].None?
    ensures forall j | 0 <= j < k :: keys[j].Some?
  {
    if |keys| == 0 then 0
    else if keys[0].None? then 0
    else 1 + FirstEmpty(keys[1..])
  }

  /**
   * Slot `i` holds the strictly least key below the sentinel among the first `n`
   * slots, and no earlier slot ties with it.
   */
  predicate LeastAmong(keys: seq<Option<SlotKey>>, n: nat, i: nat)
    requires n <= |keys|
  {
    && i < n
    && keys[i].Some? && Below(keys[i].value, Sentinel)
    && (forall j | 0 <= j < n && keys[j].Some? :: !Below(keys[j].value, keys[i].value))
    && (forall j | 0 <= j < i && keys[j].Some? :: Below(keys[i].value, keys[j].value))
  }

  /**
   * The loop of `CreateAutoPrepareCandidate`: the first empty slot if any; otherwise the
   * slot with the least (usages, last use), the earliest on a tie; -1 when no key is below
   * the sentinel.
   */
  method LeastUsedSlot(keys: seq<Option<SlotKey>>) returns (slot: int)
    ensures FirstEmpty(keys) < |keys| ==> slot == FirstEmpty(keys)
    ensures FirstEmpty(keys) == |keys| && slot != -1 ==> 0 <= slot && LeastAmong(keys, |keys|, slot)
    ensures FirstEmpty(keys) == |keys| && slot == -1 ==>
              forall j | 0 <= j < |keys| :: !Below(keys[j].value, Sentinel)
  {
    slot := -1;
    var least := Sentinel;
    var i := 0;
    while i < |keys|
      invariant 0 <= i <= |keys|
      invariant forall j | 0 <= j < i :: keys[j].Some?
      invariant i <= FirstEmpty(keys)
      invariant slot == -1 ==> least == Sentinel && forall j | 0 <= j < i :: !Below(keys[j].value, Sentinel)
      invariant slot != -1 ==> 0 <= slot && LeastAmong(keys, i, slot) && least == keys[slot].value
    {
      if keys[i].None? {
        slot := i;
        return;
      }
      var key := keys[i].value;
      if key.usages < least.usages {
        least := key;
        slot := i;
      } else if key.usages == least.usages && key.lastUsed < least.lastUsed {
        least := key;
        slot := i;
      }
      i := i + 1;
    }
  }

  // ---------------------------------------------------------------------------
  // Choosing the auto-prepared slot to take over when the table is full
  // ---------------------------------------------------------------------------

  /** What the replacement scan reads about an auto-prepared slot. */
  datatype SlotView = SlotView(state: PreparedState, lastUsed: nat)

  datatype ScanOutcome = ReuseUnprepared(index: nat) | ReplaceOldest(index: nat) | NoSlot

  /** The states the scan passes over without stopping. */
  predicate Passable(s: PreparedState)
  {
    s == Prepared || s == BeingPrepared
  }

  /** The first slot the scan stops at (Unprepared, NotPrepared or BeingUnprepared), or the table size. */
  function FirstStop(slots: seq<SlotView>): (k: nat)
    ensures k <= |slots|
    ensures k < |slots| ==> !Passable(slots[k].state)
    ensures forall j | 0 <= j < k :: Passable(slots[j].state)
  {
    if |slots| == 0 then 0
    else if !Passable(slots[0].state) then 0
    else 1 + FirstStop(slots[1..])
  }

  /**
   * Slot `i` is the Prepared slot of the first `n` used least recently, earlier than
   * `DateTime.MaxValue`, and no earlier Prepared slot ties with it.
   */
  predicate OldestAmong(slots: seq<SlotView>, n: nat, i: nat)
    requires n <= |slots|
  {
    && i < n
    && slots[i].state == Prepared && slots[i].lastUsed < MaxTime
    && (forall j | 0 <= j < n && slots[j].state == Prepared :: slots[i].lastUsed <= slots[j].lastUsed)
    && (forall j | 0 <= j < i && slots[j].state == Prepared :: slots[i].lastUsed < slots[j].lastUsed)
  }

  /**
   * The least recently used Prepared slot, the first on a tie, or none when every
   * Prepared slot is pinned at `DateTime.MaxValue`.
   */
  function Oldest(slots: seq<SlotView>): (r: Option<nat>)
    ensures r.Some? ==> OldestAmong(slots, |slots|, r.value)
    ensures r.None? ==> forall j | 0 <= j < |slots| && slots[j].state == Prepared :: slots[j].lastUsed >= MaxTime
  {
    if |slots| == 0 then None
    else
      var n := |slots| - 1;
      var prev := Oldest(slots[..n]);
      var bound := if prev.Some? then slots[prev.value].lastUsed else MaxTime;
      if slots[n].state == Prepared && slots[n].lastUsed < bound then Some(n) else prev
  }

  /**
   * The scan of `TryAutoPrepare` on a full table, with its "use that immediately" comment
   * carried out: the first Unprepared slot ends the scan. Before that, a NotPrepared or
   * BeingUnprepared slot throws; without either, the least recently used Prepared slot is
   * chosen, or none when all of them are pinned at `DateTime.MaxValue`.
   */
  function SlotScan(slots: seq<SlotView>): (r: Result<ScanOutcome>)
    ensures r.Err? <==> FirstStop(slots) < |slots| && slots[FirstStop(slots)].state != Unprepared
    ensures r.Err? ==> r.error == GeneralException
    ensures r.Ok? && r.value.ReuseUnprepared? <==>
              FirstStop(slots) < |slots| && slots[FirstStop(slots)].state == Unprepared
    ensures r.Ok? && r.value.ReuseUnprepared? ==> r.value.index == FirstStop(slots)
    ensures r.Ok? && r.value.ReplaceOldest? ==> OldestAmong(slots, |slots|, r.value.index)
    ensures r == Ok(NoSlot) <==>
              && FirstStop(slots) == |slots|
              && forall j | 0 <= j < |slots| && slots[j].state == Prepared :: slots[j].lastUsed >= MaxTime
  {
    var k := FirstStop(slots);
    if k < |slots| then
      if slots[k].state == Unprepared then Ok(ReuseUnprepared(k)) else Err(GeneralException)
    else
      match Oldest(slots)
      case None => Ok(NoSlot)
      case Some(i) => Ok(ReplaceOldest(i))
  }

  /** The `for` loop of the full-table scan computes `SlotScan`. */
  method ScanSlots(slots: seq<SlotView>) returns (r: Result<ScanOutcome>)
    ensures r == SlotScan(slots)
  {
    var oldestTimestamp := MaxTime;
    var oldestIndex := -1;
    var i := 0;
    while i < |slots|
      invariant 0 <= i <= |slots|
      invariant i <= FirstStop(slots)
      invariant oldestIndex == -1 ==> oldestTimestamp == MaxTime && Oldest(slots[..i]).None?
      invariant oldestIndex != -1 ==>
                  && 0 <= oldestIndex < i && Oldest(slots[..i]) == Some(oldestIndex as nat)
                  && oldestTimestamp == slots[oldestIndex].lastUsed
    {
      assert slots[..i + 1][..i] == slots[..i];
      match slots[i].state {
      case Prepared =>
        if slots[i].lastUsed < oldestTimestamp {
          oldestIndex := i;
          oldestTimestamp := slots[i].lastUsed;
        }
      case BeingPrepared =>
      case Unprepared =>
        return Ok(ReuseUnprepared(i));
      case NotPrepared =>
        return Err(GeneralException);
      case BeingUnprepared =>
        return Err(GeneralException);
      }
      i := i + 1;
    }
    assert slots[..i] == slots;
    if oldestIndex == -1 {
      return Ok(NoSlot);
    }
    return Ok(ReplaceOldest(oldestIndex));
  }

  /** The slots the scan as written meets in Unprepared state: each one gets the entry. */
  datatype AsWrittenScan = AsWrittenScan(reused: seq<nat>, oldest: int, failed: bool)

  /** The first NotPrepared or BeingUnprepared slot, where the scan as written throws. */
  function FirstInvalid(slots: seq<SlotView>): (k: nat)
    ensures k <= |slots|
    ensures k < |slots| ==> slots[k].state in {NotPrepared, BeingUnprepared}
    ensures forall j | 0 <= j < k :: slots[j].state !in {NotPrepared, BeingUnprepared}
  {
    if |slots| == 0 then 0
    else if slots[0].state in {NotPrepared, BeingUnprepared} then 0
    else 1 + FirstInvalid(slots[1..])
  }

  /** The indices below `n` of the Unprepared slots, in order. */
  function UnpreparedIndices(slots: seq<SlotView>, n: nat): (r: seq<nat>)
    requires n <= |slots|
    ensures forall k | 0 <= k < |r| :: r[k] < n && slots[r[k]].state == Unprepared
  {
    if n == 0 then []
    else UnpreparedIndices(slots, n - 1) + (if slots[n - 1].state == Unprepared then [n - 1] else [])
  }

  /**
   * The scan of `TryAutoPrepare` as written: the `break` after taking an Unprepared slot
   * leaves only the `switch`, so the scan goes on and every Unprepared slot before the
   * first invalid one is overwritten with the same entry (the entry keeps the last such
   * slot's name). When the scan throws, the slots overwritten before it stay overwritten.
   */
  method ScanSlotsAsWritten(slots: seq<SlotView>) returns (r: AsWrittenScan)
    ensures r.failed <==> FirstInvalid(slots) < |slots|
    ensures r.reused == UnpreparedIndices(slots, FirstInvalid(slots))
    ensures !r.failed && r.oldest != -1 ==> 0 <= r.oldest && OldestAmong(slots, |slots|, r.oldest)
  {
    var reused := [];
    var oldestTimestamp := MaxTime;
    var oldestIndex := -1;
    var i := 0;
    while i < |slots|
      invariant 0 <= i <= |slots|
      invariant i <= FirstInvalid(slots)
      invariant reused == UnpreparedIndices(slots, i)
      invariant oldestIndex == -1 ==>
                  oldestTimestamp == MaxTime
                  && forall j | 0 <= j < i && slots[j].state == Prepared :: slots[j].lastUsed >= MaxTime
      invariant oldestIndex != -1 ==>
                  0 <= oldestIndex && OldestAmong(slots, i, oldestIndex)
                  && oldestTimestamp == slots[oldestIndex].lastUsed
    {
      match slots[i].state {
      case Prepared =>
        if slots[i].lastUsed < oldestTimestamp {
          oldestIndex := i;
          oldestTimestamp := slots[i].lastUsed;
        }
      case BeingPrepared =>
      case Unprepared =>
        reused := reused + [i];
      case NotPrepared =>
        return AsWrittenScan(reused, oldestIndex, true);
      case BeingUnprepared =>
        return AsWrittenScan(reused, oldestIndex, true);
      }
      i := i + 1;
    }
    return AsWrittenScan(reused, oldestIndex, false);
  }

  /**
   * Two Unprepared slots in a full table: as written both get the entry, whereas the
   * scan that stops at the first one reuses only slot 0.
   */
  lemma BothUnpreparedSlotsOverwritten()
    ensures var slots := [SlotView(Unprepared, 0), SlotView(Unprepared, 0)];
            FirstInvalid(slots) == 2 && UnpreparedIndices(slots, 2) == [0, 1]
            && FirstStop(slots) == 0
  {
    var slots := [SlotView(Unprepared, 0), SlotView(Unprepared, 0)];
    assert FirstInvalid(slots[1..][1..]) == 0;
    assert UnpreparedIndices(slots, 1) == [0];
  }

  // ---------------------------------------------------------------------------
  // Removing an entry from the candidate array
  // ---------------------------------------------------------------------------

  function FirstIndex(s: seq<CachedSqlEntry?>, c: CachedSqlEntry): (k: nat)
    requires c in s
    ensures k < |s| && s[k] == c && c !in s[..k]
  {
    if s[0] == c then 0
    else
      assert s == [s[0]] + s[1..];
      var k := FirstIndex(s[1..], c);
      assert s[..k + 1] == [s[0]] + s[1..][..k];
      1 + k
  }

  /** `RemoveCandidate`: the first slot holding `c` emptied; nothing when `c` is not there. */
  function WithoutFirst(s: seq<CachedSqlEntry?>, c: CachedSqlEntry): seq<CachedSqlEntry?>
  {
    if c in s then s[FirstIndex(s, c) := null] else s
  }

  /** Removing a candidate takes one occurrence of it out of the array and touches nothing else. */
  lemma WithoutFirstCounts(s: seq<CachedSqlEntry?>, c: CachedSqlEntry, x: CachedSqlEntry)
    ensures |WithoutFirst(s, c)| == |s|
    ensures multiset(WithoutFirst(s, c))[c] == if c in s then multiset(s)[c] - 1 else 0
    ensures x != c ==> multiset(WithoutFirst(s, c))[x] == multiset(s)[x]
  {
    if c in s {
      var k := FirstIndex(s, c);
      assert s == s[..k] + [c] + s[k + 1..];
      assert WithoutFirst(s, c) == s[..k] + [null] + s[k + 1..];
    } else {
      assert multiset(s)[c] == 0;
    }
  }

  class PreparedStatementManager {
    const maxAutoPrepared: int
    const usagesBeforePrepare: int
    var bySql: map<string, CachedSqlEntry>
    const autoPrepared: array<CachedSqlEntry?>
    var numAutoPrepared: int
    const candidates: array<CachedSqlEntry?>
    var numPrepared: int
    var preparedStatementIndex: nat

    /**
     * The two arrays are distinct, sized by the settings (empty when automatic preparation
     * is off, where the driver leaves them null), and the first `numAutoPrepared` slots
     * are filled, never more than `MaxAutoPrepared` of them.
     */
    ghost predicate Valid()
      reads this, autoPrepared
    {
      && autoPrepared != candidates
      && autoPrepared.Length == (if maxAutoPrepared > 0 then maxAutoPrepared else 0)
      && candidates.Length == (if maxAutoPrepared > 0 then CandidateCount else 0)
      && 0 <= numAutoPrepared <= autoPrepared.Length
      && (forall i | 0 <= i < numAutoPrepared :: autoPrepared[i] != null)
    }

    constructor (maxAutoPrepare: int, autoPrepareMinUsages: int)
      ensures Valid() && fresh(autoPrepared) && fresh(candidates)
      ensures maxAutoPrepared == maxAutoPrepare && usagesBeforePrepare == autoPrepareMinUsages
      ensures bySql == map[] && numAutoPrepared == 0 && numPrepared == 0 && preparedStatementIndex == 0
      ensures forall i | 0 <= i < candidates.Length :: candidates[i] == null
    {
      maxAutoPrepared := maxAutoPrepare;
      usagesBeforePrepare := autoPrepareMinUsages;
      bySql := map[];
      numAutoPrepared := 0;
      numPrepared := 0;
      preparedStatementIndex := 0;
      if maxAutoPrepare > 0 {
        autoPrepared := new CachedSqlEntry?[maxAutoPrepare](_ => null);
        candidates := new CachedSqlEntry?[CandidateCount](_ => null);
      } else {
        autoPrepared := new CachedSqlEntry?[0];
        candidates := new CachedSqlEntry?[0];
      }
    }

    function AutoEntries(): set<CachedSqlEntry>
      reads autoPrepared
    {
      set i | 0 <= i < autoPrepared.Length && autoPrepared[i] != null :: autoPrepared[i]
    }

    function CandidateEntries(): set<CachedSqlEntry>
      reads candidates
    {
      set i | 0 <= i < candidates.Length && candidates[i] != null :: candidates[i]
    }

    /** What the eviction scan reads of each candidate slot. */
    function CandidateKeys(): (keys: seq<Option<SlotKey>>)
      reads candidates, CandidateEntries()
      ensures |keys| == candidates.Length
      ensures forall i | 0 <= i < |keys| ::
                keys[i] == if candidates[i] == null then None
                           else Some(SlotKey(candidates[i].usages, candidates[i].lastUsed))
    {
      seq(candidates.Length, i reads candidates, CandidateEntries() =>
        if 0 <= i < candidates.Length && candidates[i] != null
        then Some(SlotKey(candidates[i].usages, candidates[i].lastUsed)) else None)
    }

    /** What the replacement scan reads of each auto-prepared slot (a full table has no empty slot). */
    function SlotViews(): (views: seq<SlotView>)
      reads autoPrepared, AutoEntries()
      ensures |views| == autoPrepared.Length
      ensures forall i | 0 <= i < |views| && autoPrepared[i] != null ::
                views[i] == SlotView(autoPrepared[i].state, autoPrepared[i].lastUsed)
    {
      seq(autoPrepared.Length, i reads autoPrepared, AutoEntries() =>
        if 0 <= i < autoPrepared.Length && autoPrepared[i] != null
        then SlotView(autoPrepared[i].state, autoPrepared[i].lastUsed) else SlotView(NotPrepared, 0))
    }

    /** The names of the auto-prepared slots' entries. */
    function SlotNames(): (names: seq<Option<string>>)
      reads autoPrepared, AutoEntries()
      ensures |names| == autoPrepared.Length
      ensures forall i | 0 <= i < |names| && autoPrepared[i] != null :: names[i] == autoPrepared[i].name
    {
      seq(autoPrepared.Length, i reads autoPrepared, AutoEntries() =>
        if 0 <= i < autoPrepared.Length && autoPrepared[i] != null then autoPrepared[i].name else None)
    }

    /**
     * What a full-table scan with outcome `scan` leaves behind, given the slots `before`,
     * their entries' `names` and the entry's earlier `replaced` statement: an error or no
     * slot leaves the table and the entry alone; otherwise the entry takes slot `i` with
     * its name, and a replaced Prepared slot is marked BeingUnprepared and recorded as the
     * statement being replaced.
     */
    ghost predicate SlotTaken(scan: Result<ScanOutcome>, before: seq<CachedSqlEntry?>, names: seq<Option<string>>,
                              replaced: CachedSqlEntry?, entry: CachedSqlEntry, r: Result<bool>)
      reads this, autoPrepared, entry, set i | 0 <= i < |before| && before[i] != null :: before[i]
    {
      match scan
      case Err(e) =>
        && r == Err(e) && autoPrepared[..] == before
        && entry.statementBeingReplaced == replaced
      case Ok(NoSlot) =>
        && r == Ok(false) && autoPrepared[..] == before
        && entry.statementBeingReplaced == replaced
      case Ok(ReuseUnprepared(i)) =>
        && r == Ok(true) && i < |before| && i < |names|
        && autoPrepared[..] == before[i := entry] && entry.name == names[i]
        && entry.statementBeingReplaced == replaced
      case Ok(ReplaceOldest(i)) =>
        && r == Ok(true) && i < |before| && i < |names| && before[i] != null
        && autoPrepared[..] == before[i := entry] && entry.name == names[i]
        && entry.statementBeingReplaced == before[i] && before[i].state == BeingUnprepared
    }

    /** The slot entry a full-table scan with outcome `scan` marks BeingUnprepared, if any. */
    function Evicted(scan: Result<ScanOutcome>, before: seq<CachedSqlEntry?>): CachedSqlEntry?
    {
      if scan.Ok? && scan.value.ReplaceOldest? && scan.value.index < |before| then before[scan.value.index] else null
    }

    /** `NextPreparedStatementName`: "_p" followed by the incremented counter. */
    method NextPreparedStatementName() returns (name: string)
      modifies this`preparedStatementIndex
      ensures preparedStatementIndex == old(preparedStatementIndex) + 1
      ensures name == N.Numbered("_p", preparedStatementIndex)
    {
      preparedStatementIndex := preparedStatementIndex + 1;
      name := N.Numbered("_p", preparedStatementIndex);
    }

    /** `RemoveCandidate`: the `for` loop that empties the first slot holding the entry. */
    method RemoveCandidate(candidate: CachedSqlEntry)
      modifies candidates
      ensures candidates[..] == WithoutFirst(old(candidates[..]), candidate)
    {
      var i := 0;
      while i < candidates.Length
        invariant 0 <= i <= candidates.Length
        invariant candidate !in candidates[..i]
        invariant candidates[..] == old(candidates[..])
      {
        if candidates[i] == candidate {
          assert old(candidates[..])[..i] == candidates[..i];
          candidates[i] := null;
          return;
        }
        assert candidates[..i + 1] == candidates[..i] + [candidates[i]];
        i := i + 1;
      }
      assert candidates[..i] == candidates[..];
    }

    /**
     * `GetOrAddExplicit`: an explicit entry for the SQL is returned when its parameter
     * types match (null otherwise); an automatic candidate is dropped from the candidate
     * array and an auto-prepared entry recorded as the one being replaced, before a new
     * explicit entry named by `NextPreparedStatementName` takes the SQL's place. An
     * Unprepared entry throws `InvalidOperationException`; a state being prepared or
     * unprepared falls to the `default` branch's `ArgumentOutOfRangeException`.
     */
    method GetOrAddExplicit(sql: string, inputParameters: seq<nat>) returns (r: Result<CachedSqlEntry?>)
      modifies this`bySql, this`preparedStatementIndex, candidates
      ensures sql in old(bySql) && old(bySql[sql].isExplicit) ==>
                && r == Ok(if old(bySql[sql].paramTypes) == inputParameters then old(bySql[sql]) else null)
                && bySql == old(bySql) && preparedStatementIndex == old(preparedStatementIndex)
                && candidates[..] == old(candidates[..])
      ensures sql in old(bySql) && !old(bySql[sql].isExplicit) && old(bySql[sql].state) !in {NotPrepared, Prepared} ==>
                && r == Err(if old(bySql[sql].state) == Unprepared then InvalidOperation else ArgumentOutOfRange)
                && bySql == old(bySql) && preparedStatementIndex == old(preparedStatementIndex)
                && candidates[..] == old(candidates[..])
      ensures sql !in old(bySql) || (!old(bySql[sql].isExplicit) && old(bySql[sql].state) in {NotPrepared, Prepared}) ==>
                && r.Ok? && r.value != null && fresh(r.value)
                && r.value.sql == sql && r.value.isExplicit && r.value.state == NotPrepared
                && r.value.name == Some(N.Numbered("_p", old(preparedStatementIndex) + 1))
                && r.value.paramTypes == inputParameters
                && r.value.statementBeingReplaced ==
                     (if sql in old(bySql) && old(bySql[sql].state) == Prepared then old(bySql[sql]) else null)
                && bySql == old(bySql)[sql := r.value]
                && preparedStatementIndex == old(preparedStatementIndex) + 1
                && candidates[..] ==
                     (if sql in old(bySql) && old(bySql[sql].state) == NotPrepared
                      then WithoutFirst(old(candidates[..]), old(bySql[sql])) else old(candidates[..]))
    {
      var statementBeingReplaced: CachedSqlEntry? := null;
      if sql in bySql {
        var pStatement := bySql[sql];
        if pStatement.isExplicit {
          return Ok(if pStatement.DoParametersMatch(inputParameters) then pStatement else null);
        }
        match pStatement.state
        case NotPrepared =>
          RemoveCandidate(pStatement);
        case Prepared =>
          statementBeingReplaced := pStatement;
        case Unprepared =>
          return Err(InvalidOperation);
        case _ =>
          return Err(ArgumentOutOfRange);
      }
      var name := NextPreparedStatementName();
      var entry := new CachedSqlEntry.CreateExplicit(sql, name, inputParameters, statementBeingReplaced);
      bySql := bySql[sql := entry];
      return Ok(entry);
    }

    /**
     * `CreateAutoPrepareCandidate`: a new candidate takes the slot `LeastUsedSlot` picks;
     * an evicted candidate's SQL leaves `BySql`. When no slot is picked the driver indexes
     * the array at -1 (`IndexOutOfRangeException`).
     */
    method CreateAutoPrepareCandidate(sql: string) returns (r: Result<CachedSqlEntry>)
      requires Valid() && maxAutoPrepared > 0
      modifies this`bySql, candidates
      ensures Valid()
      ensures var keys := old(CandidateKeys());
              r.Err? <==> FirstEmpty(keys) == |keys| && forall j | 0 <= j < |keys| :: !Below(keys[j].value, Sentinel)
      ensures r.Err? ==> r.error == IndexOutOfRange && bySql == old(bySql) && candidates[..] == old(candidates[..])
      ensures r.Ok? ==>
                var keys := old(CandidateKeys());
                exists slot | 0 <= slot < |keys| ::
                  && (if FirstEmpty(keys) < |keys| then slot == FirstEmpty(keys) else LeastAmong(keys, |keys|, slot))
                  && candidates[..] == old(candidates[..])[slot := r.value]
                  && bySql == (if old(candidates[slot]) == null then old(bySql)
                               else old(bySql) - {old(candidates[slot].sql)})[sql := r.value]
      ensures r.Ok? ==>
                fresh(r.value) && r.value.sql == sql && !r.value.isExplicit && r.value.state == NotPrepared
                && r.value.usages == 0 && r.value.name == None
    {
      var slotIndex := LeastUsedSlot(CandidateKeys());
      if slotIndex == -1 {
        return Err(IndexOutOfRange);
      }
      var leastUsed := candidates[slotIndex];
      if leastUsed != null {
        bySql := bySql - {leastUsed.sql};
      }
      var entry := new CachedSqlEntry.CreateAutoPrepareCandidate(sql);
      candidates[slotIndex] := entry;
      bySql := bySql[sql := entry];
      return Ok(entry);
    }

    /**
     * `TryAutoPrepare`: decides whether a statement runs prepared. An entry already
     * prepared or being prepared answers whether its parameter types match (pinning its
     * last use when they do); one being unprepared answers false. Otherwise the use count
     * goes up; below the threshold the last use is recorded and the answer is false. Past
     * it the entry takes the next free auto-prepared slot, named "_auto" with the new count,
     * or on a full table the slot `TakeSlot` picks; having a slot, it leaves the candidates,
     * is pinned, and takes the parameter types.
     */
    method TryAutoPrepare(entry: CachedSqlEntry, parameters: seq<nat>, now: nat) returns (r: Result<bool>)
      requires Valid() && maxAutoPrepared > 0
      modifies autoPrepared, candidates, this`numAutoPrepared, AutoEntries()`state
      modifies entry`usages, entry`lastUsed, entry`name, entry`statementBeingReplaced, entry`paramTypes
      ensures Valid()
      ensures entry.state == old(entry.state)
      ensures old(entry.state) in {Prepared, BeingPrepared, BeingUnprepared} ==>
                && entry.usages == old(entry.usages) && entry.name == old(entry.name)
                && entry.paramTypes == old(entry.paramTypes)
                && entry.statementBeingReplaced == old(entry.statementBeingReplaced)
      ensures old(entry.state) in {Prepared, BeingPrepared} ==>
                && r == Ok(old(entry.paramTypes) == parameters)
                && entry.lastUsed == (if r.value then MaxTime else old(entry.lastUsed))
                && numAutoPrepared == old(numAutoPrepared)
                && autoPrepared[..] == old(autoPrepared[..]) && candidates[..] == old(candidates[..])
      ensures old(entry.state) == BeingUnprepared ==>
                && r == Ok(false) && entry.lastUsed == old(entry.lastUsed)
                && numAutoPrepared == old(numAutoPrepared)
                && autoPrepared[..] == old(autoPrepared[..]) && candidates[..] == old(candidates[..])
      ensures old(entry.state) in {NotPrepared, Unprepared} ==> entry.usages == old(entry.usages) + 1
      ensures old(entry.state) in {NotPrepared, Unprepared} && old(entry.usages) + 1 < usagesBeforePrepare ==>
                && r == Ok(false) && entry.lastUsed == now
                && entry.name == old(entry.name) && entry.paramTypes == old(entry.paramTypes)
                && entry.statementBeingReplaced == old(entry.statementBeingReplaced)
                && numAutoPrepared == old(numAutoPrepared)
                && autoPrepared[..] == old(autoPrepared[..]) && candidates[..] == old(candidates[..])
      ensures old(entry.state) in {NotPrepared, Unprepared} && old(entry.usages) + 1 >= usagesBeforePrepare
              && old(numAutoPrepared) < maxAutoPrepared ==>
                && r == Ok(true) && numAutoPrepared == old(numAutoPrepared) + 1
                && autoPrepared[..] == old(autoPrepared[..])[old(numAutoPrepared) := entry]
                && entry.name == Some(N.Numbered("_auto", numAutoPrepared))
      ensures old(entry.state) in {NotPrepared, Unprepared} && old(entry.usages) + 1 >= usagesBeforePrepare
              && old(numAutoPrepared) == maxAutoPrepared ==>
                && numAutoPrepared == old(numAutoPrepared)
                && SlotTaken(SlotScan(old(SlotViews())), old(autoPrepared[..]), old(SlotNames()),
                             old(entry.statementBeingReplaced), entry, r)
                && (r != Ok(true) ==> candidates[..] == old(candidates[..]))
      ensures old(entry.state) in {NotPrepared, Unprepared} && r == Ok(true) ==>
                && candidates[..] == WithoutFirst(old(candidates[..]), entry)
                && entry.lastUsed == MaxTime && entry.paramTypes == parameters
      ensures forall e | e in old(AutoEntries()) && (old(numAutoPrepared) < maxAutoPrepared
                                                    || e != Evicted(SlotScan(old(SlotViews())), old(autoPrepared[..]))) ::
                e.state == old(e.state)
    {
      match entry.state {
        case NotPrepared =>
        case Prepared =>
          if !entry.DoParametersMatch(parameters) {
            return Ok(false);
          }
          entry.lastUsed := MaxTime;
          return Ok(true);
        case BeingPrepared =>
          if !entry.DoParametersMatch(parameters) {
            return Ok(false);
          }
          entry.lastUsed := MaxTime;
          return Ok(true);
        case BeingUnprepared =>
          return Ok(false);
        case Unprepared =>
      }
      r := CountUse(entry, parameters, now);
    }

    /** The NotPrepared path of `TryAutoPrepare` (and an Unprepared entry, which the `default` lets through). */
    method CountUse(entry: CachedSqlEntry, parameters: seq<nat>, now: nat) returns (r: Result<bool>)
      requires Valid() && maxAutoPrepared > 0 && entry.state in {NotPrepared, Unprepared}
      modifies autoPrepared, candidates, this`numAutoPrepared, AutoEntries()`state
      modifies entry`usages, entry`lastUsed, entry`name, entry`statementBeingReplaced, entry`paramTypes
      ensures Valid()
      ensures entry.state == old(entry.state)
      ensures entry.usages == old(entry.usages) + 1
      ensures old(entry.usages) + 1 < usagesBeforePrepare ==>
                && r == Ok(false) && entry.lastUsed == now
                && entry.name == old(entry.name) && entry.paramTypes == old(entry.paramTypes)
                && entry.statementBeingReplaced == old(entry.statementBeingReplaced)
                && numAutoPrepared == old(numAutoPrepared)
                && autoPrepared[..] == old(autoPrepared[..]) && candidates[..] == old(candidates[..])
      ensures old(entry.usages) + 1 >= usagesBeforePrepare && old(numAutoPrepared) < maxAutoPrepared ==>
                && r == Ok(true) && numAutoPrepared == old(numAutoPrepared) + 1
                && autoPrepared[..] == old(autoPrepared[..])[old(numAutoPrepared) := entry]
                && entry.name == Some(N.Numbered("_auto", numAutoPrepared))
      ensures old(entry.usages) + 1 >= usagesBeforePrepare && old(numAutoPrepared) == maxAutoPrepared ==>
                && numAutoPrepared == old(numAutoPrepared)
                && SlotTaken(SlotScan(old(SlotViews())), old(autoPrepared[..]), old(SlotNames()),
                             old(entry.statementBeingReplaced), entry, r)
                && (r != Ok(true) ==> candidates[..] == old(candidates[..]))
      ensures r == Ok(true) ==>
                && candidates[..] == WithoutFirst(old(candidates[..]), entry)
                && entry.lastUsed == MaxTime && entry.paramTypes == parameters
      ensures forall e | e in old(AutoEntries()) && (old(numAutoPrepared) < maxAutoPrepared
                                                    || e != Evicted(SlotScan(old(SlotViews())), old(autoPrepared[..]))) ::
                e.state == old(e.state)
    {
      ghost var views, names, entries := SlotViews(), SlotNames(), AutoEntries();
      entry.usages := entry.usages + 1;
      if entry.usages < usagesBeforePrepare {
        entry.lastUsed := now;
        return Ok(false);
      }
      assert AutoEntries() == entries;
      assert SlotViews() == views by {
        assert forall i | 0 <= i < |views| :: SlotViews()[i] == views[i];
      }
      assert SlotNames() == names by {
        assert forall i | 0 <= i < |names| :: SlotNames()[i] == names[i];
      }
      r := Promote(entry, parameters);
    }

    /** Past the threshold: a slot, and on success the end of the candidacy. */
    method Promote(entry: CachedSqlEntry, parameters: seq<nat>) returns (r: Result<bool>)
      requires Valid() && maxAutoPrepared > 0 && entry.state in {NotPrepared, Unprepared}
      modifies autoPrepared, candidates, this`numAutoPrepared, AutoEntries()`state
      modifies entry`name, entry`statementBeingReplaced, entry`lastUsed, entry`paramTypes
      ensures Valid()
      ensures old(numAutoPrepared) < maxAutoPrepared ==>
                && r == Ok(true) && numAutoPrepared == old(numAutoPrepared) + 1
                && autoPrepared[..] == old(autoPrepared[..])[old(numAutoPrepared) := entry]
                && entry.name == Some(N.Numbered("_auto", numAutoPrepared))
      ensures old(numAutoPrepared) == maxAutoPrepared ==>
                && numAutoPrepared == old(numAutoPrepared)
                && SlotTaken(SlotScan(old(SlotViews())), old(autoPrepared[..]), old(SlotNames()),
                             old(entry.statementBeingReplaced), entry, r)
                && (r != Ok(true) ==> candidates[..] == old(candidates[..]))
      ensures r == Ok(true) ==>
                && candidates[..] == WithoutFirst(old(candidates[..]), entry)
                && entry.lastUsed == MaxTime && entry.paramTypes == parameters
      ensures forall e | e in old(AutoEntries()) && (old(numAutoPrepared) < maxAutoPrepared
                                                    || e != Evicted(SlotScan(old(SlotViews())), old(autoPrepared[..]))) ::
                e.state == old(e.state)
    {
      r := AssignSlot(entry);
      if r == Ok(true) {
        Admit(entry, parameters);
      }
    }

    /** A free slot below capacity, else the one `TakeSlot` picks on the full table. */
    method AssignSlot(entry: CachedSqlEntry) returns (r: Result<bool>)
      requires Valid() && maxAutoPrepared > 0 && entry.state in {NotPrepared, Unprepared}
      modifies autoPrepared, this`numAutoPrepared, entry`name, entry`statementBeingReplaced, AutoEntries()`state
      ensures Valid()
      ensures old(numAutoPrepared) < maxAutoPrepared ==>
                && r == Ok(true) && numAutoPrepared == old(numAutoPrepared) + 1
                && autoPrepared[..] == old(autoPrepared[..])[old(numAutoPrepared) := entry]
                && entry.name == Some(N.Numbered("_auto", numAutoPrepared))
      ensures old(numAutoPrepared) == maxAutoPrepared ==>
                && numAutoPrepared == old(numAutoPrepared)
                && SlotTaken(SlotScan(old(SlotViews())), old(autoPrepared[..]), old(SlotNames()),
                             old(entry.statementBeingReplaced), entry, r)
      ensures forall e | e in old(AutoEntries()) && (old(numAutoPrepared) < maxAutoPrepared
                                                    || e != Evicted(SlotScan(old(SlotViews())), old(autoPrepared[..]))) ::
                e.state == old(e.state)
    {
      if numAutoPrepared < maxAutoPrepared {
        TakeFreeSlot(entry);
        return Ok(true);
      }
      r := TakeSlot(entry);
    }

    /** Below capacity: the entry fills the next slot and is named after the new count. */
    method TakeFreeSlot(entry: CachedSqlEntry)
      requires Valid() && numAutoPrepared < autoPrepared.Length
      modifies autoPrepared, this`numAutoPrepared, entry`name
      ensures Valid()
      ensures numAutoPrepared == old(numAutoPrepared) + 1
      ensures autoPrepared[..] == old(autoPrepared[..])[old(numAutoPrepared) := entry]
      ensures entry.name == Some(N.Numbered("_auto", numAutoPrepared))
    {
      autoPrepared[numAutoPrepared] := entry;
      numAutoPrepared := numAutoPrepared + 1;
      entry.name := Some(N.Numbered("_auto", numAutoPrepared));
    }

    /**
     * On a full table, the slot `ScanSlots` picks: an Unprepared slot is taken with its
     * name; the least recently used Prepared slot is marked BeingUnprepared and recorded
     * as the statement being replaced, and its name is inherited; with neither the answer
     * is false, and an invalid state throws.
     */
    method TakeSlot(entry: CachedSqlEntry) returns (r: Result<bool>)
      requires Valid() && numAutoPrepared == autoPrepared.Length
      requires entry.state in {NotPrepared, Unprepared}
      modifies autoPrepared, entry`name, entry`statementBeingReplaced, AutoEntries()`state
      ensures Valid()
      ensures SlotTaken(SlotScan(old(SlotViews())), old(autoPrepared[..]), old(SlotNames()),
                        old(entry.statementBeingReplaced), entry, r)
      ensures r != Ok(true) ==> entry.name == old(entry.name)
      ensures forall e | e in old(AutoEntries()) && e != Evicted(SlotScan(old(SlotViews())), old(autoPrepared[..])) ::
                e.state == old(e.state)
    {
      var outcome := ScanSlots(SlotViews());
      match outcome {
        case Err(e) =>
          return Err(e);
        case Ok(NoSlot) =>
          return Ok(false);
        case Ok(ReuseUnprepared(i)) =>
          var slot := autoPrepared[i];
          entry.name := slot.name;
          autoPrepared[i] := entry;
          return Ok(true);
        case Ok(ReplaceOldest(i)) =>
          var slot := autoPrepared[i];
          entry.name := slot.name;
          entry.statementBeingReplaced := slot;
          slot.state := BeingUnprepared;
          autoPrepared[i] := entry;
          return Ok(true);
      }
    }

    /** The end of a successful auto-preparation: out of the candidates, pinned, parameter types set. */
    method Admit(entry: CachedSqlEntry, parameters: seq<nat>)
      modifies candidates, entry`lastUsed, entry`paramTypes
      ensures candidates[..] == WithoutFirst(old(candidates[..]), entry)
      ensures entry.lastUsed == MaxTime && entry.paramTypes == parameters
    {
      RemoveCandidate(entry);
      entry.lastUsed := MaxTime;
      entry.paramTypes := parameters;
    }

    /** `ClearAll`: empties `BySql`, the counters and every candidate slot. */
    method ClearAll()
      modifies this`bySql, this`numPrepared, this`preparedStatementIndex, this`numAutoPrepared, candidates
      ensures bySql == map[] && numPrepared == 0 && preparedStatementIndex == 0 && numAutoPrepared == 0
      ensures forall i | 0 <= i < candidates.Length :: candidates[i] == null
    {
      bySql := map[];
      numPrepared := 0;
      preparedStatementIndex := 0;
      numAutoPrepared := 0;
      var i := 0;
      while i < candidates.Length
        invariant 0 <= i <= candidates.Length
        invariant forall j | 0 <= j < i :: candidates[j] == null
        invariant bySql == map[] && numPrepared == 0 && preparedStatementIndex == 0 && numAutoPrepared == 0
      {
        candidates[i] := null;
        i := i + 1;
      }
    }
  }

  /** Explicitly prepared statements get pairwise distinct names. */
  lemma ExplicitNamesDistinct(i: nat, j: nat)
    requires i != j
    ensures N.Numbered("_p", i) != N.Numbered("_p", j)
  {
    N.NumberedInjective("_p", i, j);
  }
}
