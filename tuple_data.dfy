/**
 * The TupleData part of PostgreSQL's logical replication protocol ("Logical
 * Replication Message Formats", frontend/backend protocol chapter): for each column
 * a kind byte ('n' null, 'u' unchanged TOASTed value, 't' text, 'b' binary) and, for
 * text and binary, an Int32 length followed by that many bytes. The functions here
 * say what the replication cursors read at a buffer position; the imperative models
 * of the cursors are specified by them.
 */
module TupleData {
  import opened Wrappers
  import opened Wire

  const NullKind: byte := 0x6e
  const UnchangedKind: byte := 0x75
  const TextKind: byte := 0x74
  const BinaryKind: byte := 0x62

  /** A column of a row description: its name and type OID. */
  datatype FieldDescription = FieldDescription(name: string, typeOid: nat)

  datatype Column = NullColumn | UnchangedToasted | Text(payload: seq<byte>) | Binary(payload: seq<byte>)

  predicate WellFormed(c: Column)
  {
    (c.Text? || c.Binary?) ==> |c.payload| < TwoTo31
  }

  predicate RowWellFormed(cs: seq<Column>)
  {
    forall i | 0 <= i < |cs| :: WellFormed(cs[i])
  }

  function KindOf(c: Column): byte
  {
    match c
    case NullColumn => NullKind
    case UnchangedToasted => UnchangedKind
    case Text(_) => TextKind
    case Binary(_) => BinaryKind
  }

  /** The length the tuple enumerator reports: -1 for null, -2 for unchanged, else the payload size. */
  function LengthOf(c: Column): int
  {
    match c
    case NullColumn => -1
    case UnchangedToasted => -2
    case Text(p) => |p|
    case Binary(p) => |p|
  }

  /** The bytes before the payload: the kind byte, and the length for text and binary. */
  function HeaderSize(c: Column): nat
  {
    if c.Text? || c.Binary? then 5 else 1
  }

  function EncodeColumn(c: Column): (r: seq<byte>)
    requires WellFormed(c)
    ensures |r| == HeaderSize(c) + (if LengthOf(c) > 0 then LengthOf(c) else 0)
    ensures r[0] == KindOf(c)
  {
    match c
    case NullColumn => [NullKind]
    case UnchangedToasted => [UnchangedKind]
    case Text(p) => [TextKind] + Int32Bytes(|p|) + p
    case Binary(p) => [BinaryKind] + Int32Bytes(|p|) + p
  }

  function EncodeRow(cs: seq<Column>): seq<byte>
    requires RowWellFormed(cs)
  {
    if cs == [] then [] else EncodeRow(cs[..|cs| - 1]) + EncodeColumn(cs[|cs| - 1])
  }

  /** Where column `k` starts, counted from the start of the row. */
  function ColumnStart(cs: seq<Column>, k: nat): nat
    requires RowWellFormed(cs) && k <= |cs|
  {
    |EncodeRow(cs[..k])|
  }

  /** The row is present in `data` at `base`. */
  predicate RowAt(data: seq<byte>, base: nat, cs: seq<Column>)
  {
    RowWellFormed(cs) && base + |EncodeRow(cs)| <= |data| && data[base..base + |EncodeRow(cs)|] == EncodeRow(cs)
  }

  /** The position reached and, when a step fails, why. */
  datatype Stepped = Stepped(pos: nat, error: Option<Error>)

  /** What a column's header announces: its kind, its length (if it could be read) and where the header ends. */
  datatype Header = Header(kind: byte, length: Result<int>, next: nat)

  /**
   * The kind byte at `pos` and the length it implies: -1 for null, -2 for unchanged, the
   * Int32 after it for text and binary; any other kind is `ArgumentOutOfRangeException`.
   */
  function ReadHeader(data: seq<byte>, pos: nat): (r: Result<Header>)
    ensures r.Err? <==> pos >= |data|
    ensures r.Err? ==> r.error == EndOfData
    ensures r.Ok? ==> r.value.kind == data[pos] && pos < r.value.next <= pos + 5
    ensures r.Ok? && r.value.length.Ok? ==>
              r.value.kind in {NullKind, UnchangedKind, TextKind, BinaryKind}
  {
    if pos >= |data| then Err(EndOfData)
    else
      var kind := data[pos];
      if kind == NullKind then Ok(Header(kind, Ok(-1), pos + 1))
      else if kind == UnchangedKind then Ok(Header(kind, Ok(-2), pos + 1))
      else if kind == TextKind || kind == BinaryKind then
        var len := ReadInt32At(data, pos + 1);
        Ok(Header(kind, len, if len.Ok? then pos + 5 else pos + 1))
      else Ok(Header(kind, Err(ArgumentOutOfRange), pos + 1))
  }

  /** `Skip(len)` unless `len` is -1; a negative count is refused, as is running off the data. */
  function SkipPayload(data: seq<byte>, pos: nat, len: int): (r: Stepped)
    ensures r.error.None? ==> r.pos == pos + (if len == -1 then 0 else len) <= |data| || (len == -1 && r.pos == pos)
    ensures r.error.Some? ==> r.pos == pos
  {
    if len == -1 then Stepped(pos, None)
    else if len < 0 then Stepped(pos, Some(ArgumentOutOfRange))
    else if pos + len <= |data| then Stepped(pos + len, None)
    else Stepped(pos, Some(EndOfData))
  }

  /** As written: one intermediate column skipped as an Int32 length and a payload, with no kind byte. */
  function LengthPrefixedStep(data: seq<byte>, pos: nat): (r: Stepped)
    ensures r.error.None? ==> pos + 4 <= r.pos <= |data|
    ensures r.error.None? <==>
              && ReadInt32At(data, pos).Ok?
              && (ReadInt32At(data, pos).value == -1
                  || (0 <= ReadInt32At(data, pos).value && pos + 4 + ReadInt32At(data, pos).value <= |data|))
  {
    match ReadInt32At(data, pos)
    case Err(e) => Stepped(pos, Some(e))
    case Ok(len) => SkipPayload(data, pos + 4, len)
  }

  /** One whole column skipped: its header, then the payload of a text or binary column. */
  function ColumnStep(data: seq<byte>, pos: nat): (r: Stepped)
    ensures r.error.None? ==> pos < r.pos
  {
    match ReadHeader(data, pos)
    case Err(e) => Stepped(pos, Some(e))
    case Ok(h) =>
      match h.length
      case Err(e) => Stepped(h.next, Some(e))
      case Ok(len) =>
        if h.kind == NullKind || h.kind == UnchangedKind then Stepped(h.next, None)
        else SkipPayload(data, h.next, len)
  }

  /** The result of skipping several columns: where the buffer is, how many were skipped whole, and the failure. */
  datatype Skipped = Skipped(pos: nat, done: nat, error: Option<Error>)

  /** `n` columns skipped one `step` at a time, stopping at the first step that fails. */
  function SkipWith(step: (seq<byte>, nat) -> Stepped, data: seq<byte>, pos: nat, n: nat): (r: Skipped)
    ensures r.error.None? ==> r.done == n
    ensures r.done <= n
    decreases n
  {
    if n == 0 then Skipped(pos, 0, None)
    else
      var s := step(data, pos);
      if s.error.Some? then Skipped(s.pos, 0, s.error)
      else var r := SkipWith(step, data, s.pos, n - 1); Skipped(r.pos, r.done + 1, r.error)
  }

  /** As written: intermediate columns skipped as length-prefixed values. */
  function SkipLengthPrefixed(data: seq<byte>, pos: nat, n: nat): (r: Skipped)
    ensures r.done <= n && (r.error.None? ==> r.done == n)
  {
    SkipWith(LengthPrefixedStep, data, pos, n)
  }

  /** Intermediate columns skipped whole, kind byte included. */
  function SkipColumns(data: seq<byte>, pos: nat, n: nat): Skipped
  {
    SkipWith(ColumnStep, data, pos, n)
  }

  // ---- Reading an encoded row back ----

  /** Growing a row by one column appends that column's encoding. */
  lemma EncodeRowSnoc(cs: seq<Column>, k: nat)
    requires RowWellFormed(cs) && k < |cs|
    ensures EncodeRow(cs[..k + 1]) == EncodeRow(cs[..k]) + EncodeColumn(cs[k])
  {
    assert cs[..k + 1][..k] == cs[..k];
  }

  /** The encoding of the first `k` columns is a prefix of the row's. */
  lemma {:induction false} EncodeRowPrefix(cs: seq<Column>, k: nat)
    requires RowWellFormed(cs) && k <= |cs|
    ensures |EncodeRow(cs[..k])| <= |EncodeRow(cs)|
    ensures EncodeRow(cs)[..|EncodeRow(cs[..k])|] == EncodeRow(cs[..k])
  {
    if k < |cs| {
      var m := cs[..|cs| - 1];
      assert cs[..|cs|] == cs;
      EncodeRowPrefix(m, k);
      assert m[..k] == cs[..k];
      assert cs[..|cs| - 1] == m;
    } else {
      assert cs[..k] == cs;
    }
  }

  /** A piece of a prefix of a slice is a slice of the underlying sequence. */
  lemma PieceAt(data: seq<byte>, base: nat, row: seq<byte>, pre: seq<byte>, e: seq<byte>, at: nat, to: nat)
    requires base + |row| <= |data| && data[base..base + |row|] == row
    requires |pre + e| <= |row| && row[..|pre + e|] == pre + e
    requires at == base + |pre| && to == at + |e|
    ensures to <= |data| && data[at..to] == e
  {
    assert row[|pre|..|pre| + |e|] == (pre + e)[|pre|..];
    SliceWithinAt(data, base, row, |pre|, |pre| + |e|, at, to);
  }

  /** The first `k` columns followed by column `k` begin the row's encoding. */
  lemma ColumnInPrefix(cs: seq<Column>, k: nat)
    requires RowWellFormed(cs) && k < |cs|
    ensures var pre, e := EncodeRow(cs[..k]), EncodeColumn(cs[k]);
            && ColumnStart(cs, k + 1) == |pre| + |e|
            && |pre + e| <= |EncodeRow(cs)| && EncodeRow(cs)[..|pre + e|] == pre + e
  {
    EncodeRowSnoc(cs, k);
    EncodeRowPrefix(cs, k + 1);
  }

  /** Column `k` of a row present at `base` is present at `base + ColumnStart(cs, k)`. */
  lemma {:induction false} ColumnAt(data: seq<byte>, base: nat, cs: seq<Column>, k: nat)
    requires RowAt(data, base, cs) && k < |cs|
    ensures ColumnStart(cs, k + 1) == ColumnStart(cs, k) + |EncodeColumn(cs[k])| <= |EncodeRow(cs)|
    ensures base + ColumnStart(cs, k) + |EncodeColumn(cs[k])| <= |data|
    ensures data[base + ColumnStart(cs, k)..base + ColumnStart(cs, k) + |EncodeColumn(cs[k])|] == EncodeColumn(cs[k])
  {
    ColumnInPrefix(cs, k);
    PieceAt(data, base, EncodeRow(cs), EncodeRow(cs[..k]), EncodeColumn(cs[k]),
            base + ColumnStart(cs, k), base + ColumnStart(cs, k) + |EncodeColumn(cs[k])|);
    assert data[base + ColumnStart(cs, k)..base + ColumnStart(cs, k) + |EncodeColumn(cs[k])|] == EncodeColumn(cs[k]);
  }

  /** Column `k`'s bytes, between the positions the caller names. */
  lemma ColumnBytesAt(data: seq<byte>, base: nat, cs: seq<Column>, k: nat, at: nat, to: nat)
    requires RowAt(data, base, cs) && k < |cs|
    requires at == base + ColumnStart(cs, k) && to == at + |EncodeColumn(cs[k])|
    ensures to <= |data| && data[at..to] == EncodeColumn(cs[k])
  {
    ColumnInPrefix(cs, k);
    PieceAt(data, base, EncodeRow(cs), EncodeRow(cs[..k]), EncodeColumn(cs[k]), at, to);
  }

  /** The payload of a text or binary column of a row present at `base` follows its five header bytes. */
  lemma PayloadAt(data: seq<byte>, base: nat, cs: seq<Column>, j: nat, at: nat)
    requires RowAt(data, base, cs) && j < |cs| && (cs[j].Text? || cs[j].Binary?)
    requires at == base + ColumnStart(cs, j) + 5
    ensures at + |cs[j].payload| <= |data| && data[at..at + |cs[j].payload|] == cs[j].payload
  {
    ColumnAt(data, base, cs, j);
    ColumnPayloadAt(data, base + ColumnStart(cs, j), cs[j], at);
  }

  /** The payload of a text or binary column present at `pos` follows its five header bytes. */
  lemma ColumnPayloadAt(data: seq<byte>, pos: nat, c: Column, at: nat)
    requires WellFormed(c) && (c.Text? || c.Binary?)
    requires pos + |EncodeColumn(c)| <= |data| && data[pos..pos + |EncodeColumn(c)|] == EncodeColumn(c)
    requires at == pos + 5
    ensures at + |c.payload| <= |data| && data[at..at + |c.payload|] == c.payload
  {
    var e := EncodeColumn(c);
    PayloadOfEncoding(c);
    SliceWithinAt(data, pos, e, 5, |e|, at, at + |c.payload|);
  }

  /** The end of the last column is the end of the row. */
  lemma RowEnd(cs: seq<Column>)
    requires RowWellFormed(cs)
    ensures ColumnStart(cs, |cs|) == |EncodeRow(cs)|
  {
    assert cs[..|cs|] == cs;
  }

  /** Reading the header of an encoded column gives its kind, its length, and the start of its payload. */
  lemma ReadHeaderEncoded(data: seq<byte>, pos: nat, c: Column)
    requires WellFormed(c) && pos + |EncodeColumn(c)| <= |data|
    requires data[pos..pos + |EncodeColumn(c)|] == EncodeColumn(c)
    ensures ReadHeader(data, pos) == Ok(Header(KindOf(c), Ok(LengthOf(c)), pos + HeaderSize(c)))
  {
    var e := EncodeColumn(c);
    assert data[pos] == e[0];
    if c.Text? || c.Binary? {
      assert e[1..5] == Int32Bytes(|c.payload|);
      SliceWithin(data, pos, e, 1, 5);
      Int32RoundTrip(|c.payload|);
    }
  }

  /** A text or binary column's payload is its encoding after the five header bytes. */
  lemma PayloadOfEncoding(c: Column)
    requires WellFormed(c) && (c.Text? || c.Binary?)
    ensures |EncodeColumn(c)| == 5 + |c.payload| && EncodeColumn(c)[5..|EncodeColumn(c)|] == c.payload
  {
    assert EncodeColumn(c) == [KindOf(c)] + Int32Bytes(|c.payload|) + c.payload;
  }

  /** Skipping an encoded column, kind byte included, lands on the next one. */
  lemma ColumnStepEncoded(data: seq<byte>, pos: nat, c: Column, next: nat)
    requires WellFormed(c) && next == pos + |EncodeColumn(c)| <= |data|
    requires data[pos..next] == EncodeColumn(c)
    ensures ColumnStep(data, pos) == Stepped(next, None)
  {
    ReadHeaderEncoded(data, pos, c);
  }

  /** The start of every column of the row, and the end of the last, as buffer positions. */
  function Starts(cs: seq<Column>, base: nat): (r: seq<nat>)
    requires RowWellFormed(cs)
    ensures |r| == |cs| + 1
    ensures forall t | 0 <= t <= |cs| :: r[t] == base + ColumnStart(cs, t)
  {
    seq(|cs| + 1, (t: int) requires 0 <= t <= |cs| => (base + ColumnStart(cs, t)) as nat)
  }

  /** Skipping columns `i` to `j - 1` of an encoded row leaves the buffer at column `j`. */
  lemma SkipColumnsEncoded(data: seq<byte>, base: nat, cs: seq<Column>, i: nat, j: nat, p: nat, q: nat)
    requires RowAt(data, base, cs) && i <= j <= |cs|
    requires p == base + ColumnStart(cs, i) && q == base + ColumnStart(cs, j)
    ensures SkipColumns(data, p, j - i) == Skipped(q, j - i, None)
  {
    var starts := Starts(cs, base);
    forall t | i <= t < j
      ensures ColumnStep(data, starts[t]) == Stepped(starts[t + 1], None)
    {
      ColumnStepAt(data, base, cs, t, starts[t], starts[t + 1]);
    }
    ColumnChain(data, starts, i, j, p, q);
    assert SkipColumns(data, p, j - i) == Skipped(q, j - i, None);
  }

  /** `SkipChain` for whole columns, from position `p` to position `q`. */
  lemma ColumnChain(data: seq<byte>, starts: seq<nat>, i: nat, j: nat, p: nat, q: nat)
    requires i <= j < |starts| && starts[i] == p && starts[j] == q
    requires forall t | i <= t < j :: ColumnStep(data, starts[t]) == Stepped(starts[t + 1], None)
    ensures SkipColumns(data, p, j - i) == Skipped(q, j - i, None)
  {
    SkipChain(ColumnStep, data, starts, i, j);
  }

  /** Skipping column `i` of an encoded row leaves the buffer at column `i + 1`. */
  lemma ColumnStepAt(data: seq<byte>, base: nat, cs: seq<Column>, i: nat, p: nat, q: nat)
    requires RowAt(data, base, cs) && i < |cs|
    requires p == base + ColumnStart(cs, i) && q == base + ColumnStart(cs, i + 1)
    ensures ColumnStep(data, p) == Stepped(q, None)
  {
    ColumnInPrefix(cs, i);
    PieceAt(data, base, EncodeRow(cs), EncodeRow(cs[..i]), EncodeColumn(cs[i]), p, q);
    ColumnStepEncoded(data, p, cs[i], q);
  }

  /** Steps that each end where the next begins make one clean skip from the first start to the last. */
  lemma {:induction false} SkipChain(step: (seq<byte>, nat) -> Stepped, data: seq<byte>, starts: seq<nat>, i: nat, j: nat)
    requires i <= j < |starts|
    requires forall t | i <= t < j :: step(data, starts[t]) == Stepped(starts[t + 1], None)
    ensures SkipWith(step, data, starts[i], j - i) == Skipped(starts[j], j - i, None)
    decreases j - i
  {
    if i < j {
      SkipChain(step, data, starts, i + 1, j);
    }
  }

  /**
   * As written, skipping reads the kind byte as the first byte of a length: in the row of
   * two null columns (the bytes 'n' 'n'), skipping the first one to reach the second runs
   * off the data, while the intended skip reaches the second column.
   */
  lemma LengthPrefixedSkipMisreadsRow()
    ensures var cs := [NullColumn, NullColumn];
            && RowAt(EncodeRow(cs), 0, cs)
            && SkipLengthPrefixed(EncodeRow(cs), 0, 1) == Skipped(0, 0, Some(EndOfData))
            && SkipColumns(EncodeRow(cs), 0, 1) == Skipped(ColumnStart(cs, 1), 1, None)
  {
    var cs := [NullColumn, NullColumn];
    assert cs[..1] == [NullColumn];
    assert cs[..1][..0] == [];
    assert EncodeRow(cs) == [NullKind, NullKind];
    assert EncodeRow(cs)[0..|EncodeRow(cs)|] == EncodeRow(cs);
  }
}
