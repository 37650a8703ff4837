/**
 * `ReplicationDataReader` in sequential mode: a data reader over the new row of an
 * insert message that may only move forward through the columns, reading each
 * column's header as it reaches it and skipping what the caller leaves unread.
 */
module ReplicationDataReaders {
  import opened Wrappers
  import opened Wire
  import opened ReadBuffers
  import T = TupleData
  import RV = ReplicationValues

  datatype ReaderState = BeforeResult | InResult | BetweenResults | Consumed | Closed | Disposed

  /**
   * The reader's position as a value: the buffer position, the current column, its
   * kind byte, its `ColumnLen` and how much of it was read (`PosInColumn`).
   */
  datatype ReaderCursor = ReaderCursor(readPos: nat, column: int, kind: byte, columnLen: int, posInColumn: int)

  /** The position after a seek or skip, and its outcome. */
  datatype Sought = Sought(cursor: ReaderCursor, result: Result<Unit>)

  /** The position after a typed read, and the value read. */
  datatype FieldRead<V> = FieldRead(cursor: ReaderCursor, result: Result<RV.FieldValue<V>>)

  /** `ColumnLen` as a seek sets it: the payload length, 0 for null and unchanged columns. */
  function ColumnLength(col: T.Column): nat
  {
    if col.Text? || col.Binary? then |col.payload| else 0
  }

  /** What a forward seek skips of the current column first: nothing when `ColumnLen` is -1. */
  function RemainingInColumn(c: ReaderCursor): int
  {
    if c.columnLen == -1 then 0 else c.columnLen - c.posInColumn
  }

  /** What `ConsumeRow` skips of the current column first: nothing for a null or unchanged column. */
  function RemainingInRow(c: ReaderCursor): int
  {
    if c.kind == T.NullKind || c.kind == T.UnchangedKind then 0 else c.columnLen - c.posInColumn
  }

  /** Skipping `rest` bytes of the current column when `rest` is positive. */
  function SkipRest(data: seq<byte>, c: ReaderCursor, rest: int): (s: Sought)
    ensures s.result.Ok? ==> s.cursor == c.(readPos := c.readPos + (if rest > 0 then rest else 0))
    ensures s.result.Ok? <==> rest <= 0 || c.readPos + rest <= |data|
    ensures s.result.Err? ==> s.result.error == EndOfData && s.cursor == c
  {
    if rest > 0 && c.readPos + rest > |data| then Sought(c, Err(EndOfData))
    else Sought(c.(readPos := c.readPos + (if rest > 0 then rest else 0)), Ok(Unit))
  }

  /**
   * Reading the target column's header once five bytes are buffered: its kind, and a
   * `ColumnLen` of 0 for null and unchanged or the Int32 length for text and binary. Any
   * other kind fails after the kind byte was read and recorded.
   */
  function ReadTarget(data: seq<byte>, c: ReaderCursor, column: int): (s: Sought)
    ensures s.result.Ok? ==> s.cursor.column == column && s.cursor.posInColumn == 0
    ensures s.result.Ok? ==> s.cursor.kind in {T.NullKind, T.UnchangedKind, T.TextKind, T.BinaryKind}
    ensures s.result.Err? ==> s.cursor.column == c.column
  {
    if c.readPos + 5 > |data| then Sought(c, Err(EndOfData))
    else
      match T.ReadHeader(data, c.readPos)
      case Err(e) => Sought(c, Err(e))
      case Ok(h) =>
        match h.length
        case Err(e) => Sought(c.(readPos := h.next, kind := h.kind), Err(e))
        case Ok(len) =>
          var columnLen := if h.kind == T.NullKind || h.kind == T.UnchangedKind then 0 else len;
          Sought(ReaderCursor(h.next, column, h.kind, columnLen, 0), Ok(Unit))
  }

  /** The guards every seek starts with: a column in range, and not behind the current one. */
  function SeekGuard(numColumns: nat, c: ReaderCursor, column: int): Option<Error>
  {
    if column < 0 || column >= numColumns then Some(IndexOutOfRange)
    else if column < c.column then Some(InvalidOperation)
    else None
  }

  /**
   * `SeekToColumnSequential` as written: the rest of the current column is skipped, then
   * each column before the target as a bare Int32 length and payload, then the target's
   * header is read.
   */
  function SeekToColumnAsWritten(data: seq<byte>, numColumns: nat, c: ReaderCursor, column: int): (s: Sought)
    ensures SeekGuard(numColumns, c, column).Some? ==> s == Sought(c, Err(SeekGuard(numColumns, c, column).value))
    ensures column == c.column && SeekGuard(numColumns, c, column).None? ==> s == Sought(c, Ok(Unit))
    ensures s.result.Ok? ==> s.cursor.column == column
    ensures c.column <= s.cursor.column
  {
    match SeekGuard(numColumns, c, column)
    case Some(e) => Sought(c, Err(e))
    case None =>
      if column == c.column then Sought(c, Ok(Unit))
      else
        var s0 := SkipRest(data, c, RemainingInColumn(c));
        if s0.result.Err? then s0
        else
          var k := T.SkipLengthPrefixed(data, s0.cursor.readPos, column - 1 - c.column);
          var c1 := s0.cursor.(readPos := k.pos, column := c.column + k.done);
          if k.error.Some? then Sought(c1, Err(k.error.value))
          else ReadTarget(data, c1, column)
  }

  /** `SeekToColumnSequential` with each skipped column read as a kind byte and, for text and binary, a length and payload. */
  function SeekToColumn(data: seq<byte>, numColumns: nat, c: ReaderCursor, column: int): (s: Sought)
    ensures SeekGuard(numColumns, c, column).Some? ==> s == Sought(c, Err(SeekGuard(numColumns, c, column).value))
    ensures column == c.column && SeekGuard(numColumns, c, column).None? ==> s == Sought(c, Ok(Unit))
    ensures s.result.Ok? ==> s.cursor.column == column
    ensures c.column <= s.cursor.column
  {
    match SeekGuard(numColumns, c, column)
    case Some(e) => Sought(c, Err(e))
    case None =>
      if column == c.column then Sought(c, Ok(Unit))
      else
        var s0 := SkipRest(data, c, RemainingInColumn(c));
        if s0.result.Err? then s0
        else
          var k := T.SkipColumns(data, s0.cursor.readPos, column - 1 - c.column);
          var c1 := s0.cursor.(readPos := k.pos, column := c.column + k.done);
          if k.error.Some? then Sought(c1, Err(k.error.value))
          else ReadTarget(data, c1, column)
  }

  /** How many columns `ConsumeRow` skips after the current one. */
  function ColumnsAfter(numColumns: nat, c: ReaderCursor): nat
  {
    if c.column < numColumns - 1 then numColumns - 1 - c.column else 0
  }

  /**
   * `ConsumeRow` as written: the rest of the current column is skipped without being
   * recorded as read, then the later columns as bare Int32 lengths and payloads.
   */
  function ConsumeRowAsWritten(data: seq<byte>, numColumns: nat, c: ReaderCursor): (s: Sought)
    ensures s.result.Ok? ==> s.cursor.column == c.column + ColumnsAfter(numColumns, c)
    ensures RemainingInRow(s.cursor) == RemainingInRow(c) && RemainingInColumn(s.cursor) == RemainingInColumn(c)
  {
    var s0 := SkipRest(data, c, RemainingInRow(c));
    if s0.result.Err? then s0
    else
      var k := T.SkipLengthPrefixed(data, s0.cursor.readPos, ColumnsAfter(numColumns, c));
      Sought(s0.cursor.(readPos := k.pos, column := c.column + k.done),
             if k.error.Some? then Err(k.error.value) else Ok(Unit))
  }

  /** `ConsumeRow` with the rest of the current column recorded as read and each later column skipped whole. */
  function ConsumeRow(data: seq<byte>, numColumns: nat, c: ReaderCursor): (s: Sought)
    ensures s.result.Ok? ==> s.cursor.column == c.column + ColumnsAfter(numColumns, c)
    ensures s.result.Ok? ==> RemainingInRow(s.cursor) == (if RemainingInRow(c) > 0 then 0 else RemainingInRow(c))
  {
    var rest := RemainingInRow(c);
    var s0 := SkipRest(data, c, rest);
    if s0.result.Err? then s0
    else
      var c0 := if rest > 0 then s0.cursor.(posInColumn := c.columnLen) else s0.cursor;
      var k := T.SkipColumns(data, c0.readPos, ColumnsAfter(numColumns, c));
      Sought(c0.(readPos := k.pos, column := c.column + k.done),
             if k.error.Some? then Err(k.error.value) else Ok(Unit))
  }

  /** `Reset` as written: only the column index goes back to before the first column. */
  function ResetCursorAsWritten(c: ReaderCursor): (r: ReaderCursor)
    ensures r.column == -1 && r.readPos == c.readPos
    ensures RemainingInColumn(r) == RemainingInColumn(c) && RemainingInRow(r) == RemainingInRow(c)
  {
    c.(column := -1)
  }

  /** `Reset` with nothing left pending from the previous row's column. */
  function ResetCursor(c: ReaderCursor): (r: ReaderCursor)
    ensures r.column == -1 && RemainingInColumn(r) == 0 && RemainingInRow(r) == 0 && r.readPos == c.readPos
  {
    c.(column := -1, columnLen := 0, posInColumn := 0)
  }

  /**
   * A typed read of the current column's payload. The handler's failure leaves the
   * buffer after what it consumed, and then, unless the connection is broken, after the
   * whole payload; `PosInColumn` counts the whole payload as read either way.
   */
  function DecodeColumn<V>(data: seq<byte>, c: ReaderCursor, decode: seq<byte> -> RV.Decoding<V>, broken: bool): (f: FieldRead<V>)
    ensures f.cursor.posInColumn == c.posInColumn + c.columnLen
    ensures f.cursor.column == c.column && f.cursor.kind == c.kind && f.cursor.columnLen == c.columnLen
  {
    var len := c.columnLen;
    var done := c.(posInColumn := c.posInColumn + len);
    if len < 0 then FieldRead(done, Err(ArgumentOutOfRange))
    else if c.readPos + len > |data| then FieldRead(done, Err(EndOfData))
    else
      match decode(data[c.readPos..c.readPos + len])
      case Decoded(v) => FieldRead(done.(readPos := c.readPos + len), Ok(RV.Value(v)))
      case Failed(n, e) =>
        var p := if broken then c.readPos + Min(n, len) else c.readPos + len;
        FieldRead(done.(readPos := p), Err(e))
  }

  /**
   * `GetFieldValueSequential` after the row and column checks: seek, refuse a column
   * already read from, read null as `NullAs`, refuse an unchanged value, else decode.
   */
  function ReadField<V>(data: seq<byte>, numColumns: nat, c: ReaderCursor, column: int,
                        target: RV.Target, decode: seq<byte> -> RV.Decoding<V>, broken: bool): (f: FieldRead<V>)
  {
    var s := SeekToColumn(data, numColumns, c, column);
    if s.result.Err? then FieldRead(s.cursor, Err(s.result.error))
    else if s.cursor.posInColumn != 0 then FieldRead(s.cursor, Err(InvalidOperation))
    else if s.cursor.kind == T.NullKind then FieldRead(s.cursor, RV.NullAs(target))
    else if s.cursor.kind == T.UnchangedKind then FieldRead(s.cursor, Err(InvalidCast))
    else DecodeColumn(data, s.cursor, decode, broken)
  }

  // ---- Reading an encoded row ----

  /**
   * The reader stands at column `k` of the row `cs` encoded at `base`: before the first
   * column with nothing pending when `k` is 0, else inside column `k - 1` with its header read.
   */
  ghost predicate ReaderAt(data: seq<byte>, base: nat, cs: seq<T.Column>, k: nat, c: ReaderCursor)
  {
    && T.RowAt(data, base, cs) && k <= |cs|
    && if k == 0 then c.readPos == base && c.column == -1 && c.columnLen == c.posInColumn
       else
         && c.column == k - 1
         && c.kind == T.KindOf(cs[k - 1])
         && c.columnLen == ColumnLength(cs[k - 1])
         && 0 <= c.posInColumn <= c.columnLen
         && c.readPos == base + T.ColumnStart(cs, k - 1) + T.HeaderSize(cs[k - 1]) + c.posInColumn
  }

  /** What is left of the current column, for either skip, ends where column `k` starts. */
  lemma RestEndsColumn(data: seq<byte>, base: nat, cs: seq<T.Column>, k: nat, c: ReaderCursor)
    requires ReaderAt(data, base, cs, k, c)
    ensures c.column == k - 1
    ensures RemainingInColumn(c) == RemainingInRow(c) >= 0
    ensures c.readPos + RemainingInColumn(c) == base + T.ColumnStart(cs, k) <= |data|
  {
    if k > 0 {
      T.ColumnAt(data, base, cs, k - 1);
    } else {
      assert cs[..0] == [];
    }
  }

  /** The header of column `j` read by `ReadTarget`. */
  lemma ReadTargetEncoded(data: seq<byte>, base: nat, cs: seq<T.Column>, j: nat, c: ReaderCursor)
    requires T.RowAt(data, base, cs) && j < |cs|
    requires c.readPos == base + T.ColumnStart(cs, j) && c.readPos + 5 <= |data|
    ensures ReadTarget(data, c, j) == Sought(HeaderEnd(base, cs, j), Ok(Unit))
  {
    T.ColumnAt(data, base, cs, j);
    T.ReadHeaderEncoded(data, c.readPos, cs[j]);
  }

  /**
   * On an encoded row a forward seek to column `j` succeeds and stands inside column `j`
   * with nothing of it read, provided five bytes can be buffered at that column's start.
   */
  lemma SeekEncoded(data: seq<byte>, base: nat, cs: seq<T.Column>, k: nat, c: ReaderCursor, j: nat)
    requires ReaderAt(data, base, cs, k, c) && k <= j < |cs|
    requires base + T.ColumnStart(cs, j) + 5 <= |data|
    ensures var s := SeekToColumn(data, |cs|, c, j);
            && s.result.Ok? && ReaderAt(data, base, cs, j + 1, s.cursor) && s.cursor.posInColumn == 0
            && s.cursor == HeaderEnd(base, cs, j)
  {
    SeekLands(data, base, cs, k, c, j);
    AtHeaderEnd(data, base, cs, j, HeaderEnd(base, cs, j));
  }

  /** The seek's result, without what it means for the reader's place in the row. */
  lemma SeekLands(data: seq<byte>, base: nat, cs: seq<T.Column>, k: nat, c: ReaderCursor, j: nat)
    requires ReaderAt(data, base, cs, k, c) && k <= j < |cs|
    requires base + T.ColumnStart(cs, j) + 5 <= |data|
    ensures SeekToColumn(data, |cs|, c, j) == Sought(HeaderEnd(base, cs, j), Ok(Unit))
  {
    var p, q := SeekBounds(data, base, cs, k, c, j);
    SeekSteps(data, |cs|, c, k, j, p, q);
    ReadTargetEncoded(data, base, cs, j, c.(readPos := q, column := j - 1));
  }

  /** Where what is left of the current column ends, and where skipping up to column `j` ends. */
  lemma SeekBounds(data: seq<byte>, base: nat, cs: seq<T.Column>, k: nat, c: ReaderCursor, j: nat) returns (p: nat, q: nat)
    requires ReaderAt(data, base, cs, k, c) && k <= j < |cs|
    ensures c.column == k - 1
    ensures RemainingInColumn(c) >= 0 && c.readPos + RemainingInColumn(c) == p <= |data|
    ensures T.SkipColumns(data, p, j - k) == T.Skipped(q, j - k, None)
    ensures q == base + T.ColumnStart(cs, j)
  {
    RestEndsColumn(data, base, cs, k, c);
    p, q := base + T.ColumnStart(cs, k), base + T.ColumnStart(cs, j);
    T.SkipColumnsEncoded(data, base, cs, k, j, p, q);
  }

  /** The reader just after column `j`'s header: the column's kind and length, nothing of it read. */
  function HeaderEnd(base: nat, cs: seq<T.Column>, j: nat): ReaderCursor
    requires T.RowWellFormed(cs) && j < |cs|
  {
    ReaderCursor(base + T.ColumnStart(cs, j) + T.HeaderSize(cs[j]), j, T.KindOf(cs[j]), ColumnLength(cs[j]), 0)
  }

  /** Just after column `j`'s header the reader stands inside column `j` with nothing of it read. */
  lemma AtHeaderEnd(data: seq<byte>, base: nat, cs: seq<T.Column>, j: nat, c: ReaderCursor)
    requires T.RowAt(data, base, cs) && j < |cs|
    requires c == ReaderCursor(base + T.ColumnStart(cs, j) + T.HeaderSize(cs[j]), j, T.KindOf(cs[j]), ColumnLength(cs[j]), 0)
    ensures ReaderAt(data, base, cs, j + 1, c)
  {
  }

  /** A forward seek whose skips succeed is the target's header read where they end. */
  lemma SeekSteps(data: seq<byte>, n: nat, c: ReaderCursor, k: nat, j: nat, p: nat, q: nat)
    requires c.column == k - 1 && k <= j < n
    requires RemainingInColumn(c) >= 0 && c.readPos + RemainingInColumn(c) == p <= |data|
    requires T.SkipColumns(data, p, j - k) == T.Skipped(q, j - k, None)
    ensures SeekToColumn(data, n, c, j) == ReadTarget(data, c.(readPos := q, column := j - 1), j)
  {
  }

  /**
   * Reading column `j` of an encoded row, at or past the reader's column, as a value:
   * a text or binary column hands the handler exactly its payload, and a null column
   * reads as `NullAs`.
   */
  lemma ReadFieldEncoded<V>(data: seq<byte>, base: nat, cs: seq<T.Column>, k: nat, c: ReaderCursor, j: nat,
                            target: RV.Target, decode: seq<byte> -> RV.Decoding<V>, broken: bool)
    requires ReaderAt(data, base, cs, k, c) && k <= j < |cs|
    requires base + T.ColumnStart(cs, j) + 5 <= |data|
    ensures var f := ReadField(data, |cs|, c, j, target, decode, broken);
            && (cs[j].NullColumn? ==> f.result == RV.NullAs(target))
            && (cs[j].UnchangedToasted? ==> f.result == Err(InvalidCast))
            && ((cs[j].Text? || cs[j].Binary?) ==>
                  match decode(cs[j].payload)
                  case Decoded(v) => f.result == Ok(RV.Value(v))
                  case Failed(_, e) => f.result == Err(e))
  {
    SeekEncoded(data, base, cs, k, c, j);
    var c1 := HeaderEnd(base, cs, j);
    if cs[j].Text? || cs[j].Binary? {
      T.PayloadAt(data, base, cs, j, c1.readPos);
      DecodeWhole(data, c1, cs[j].payload, decode, broken);
    }
  }

  /** Inside column `k - 1` the reader holds that column's kind and length. */
  lemma KindAndLength(data: seq<byte>, base: nat, cs: seq<T.Column>, k: nat, c: ReaderCursor)
    requires ReaderAt(data, base, cs, k, c) && k > 0
    ensures c.kind == T.KindOf(cs[k - 1]) && c.columnLen == ColumnLength(cs[k - 1])
  {
  }

  /** Decoding a column whose payload lies at the buffer position hands the handler exactly that payload. */
  lemma DecodeWhole<V>(data: seq<byte>, c: ReaderCursor, payload: seq<byte>, decode: seq<byte> -> RV.Decoding<V>, broken: bool)
    requires c.columnLen == |payload| && c.readPos + |payload| <= |data|
    requires data[c.readPos..c.readPos + |payload|] == payload
    ensures match decode(payload)
            case Decoded(v) => DecodeColumn(data, c, decode, broken).result == Ok(RV.Value(v))
            case Failed(_, e) => DecodeColumn(data, c, decode, broken).result == Err(e)
  {
  }

  /** Consuming an encoded row from any column ends at the row's end with nothing pending. */
  lemma ConsumeRowEncoded(data: seq<byte>, base: nat, cs: seq<T.Column>, k: nat, c: ReaderCursor)
    requires ReaderAt(data, base, cs, k, c)
    ensures var s := ConsumeRow(data, |cs|, c);
            && s.result.Ok?
            && s.cursor.readPos == base + |T.EncodeRow(cs)|
            && s.cursor.column == |cs| - 1
            && RemainingInColumn(s.cursor) == 0 && RemainingInRow(s.cursor) == 0
  {
    var p, q := ConsumeBounds(data, base, cs, k, c);
    ConsumeSteps(data, |cs|, c, k, p, q);
    var s := ConsumeRow(data, |cs|, c);
    assert s.result.Ok? && s.cursor.readPos == q && s.cursor.column == |cs| - 1;
  }

  /** Where what is left of the row starts and where skipping the later columns ends. */
  lemma ConsumeBounds(data: seq<byte>, base: nat, cs: seq<T.Column>, k: nat, c: ReaderCursor) returns (p: nat, q: nat)
    requires ReaderAt(data, base, cs, k, c)
    ensures c.column == k - 1 && k <= |cs|
    ensures RemainingInColumn(c) == RemainingInRow(c) >= 0 && c.readPos + RemainingInRow(c) == p <= |data|
    ensures T.SkipColumns(data, p, |cs| - k) == T.Skipped(q, |cs| - k, None)
    ensures q == base + |T.EncodeRow(cs)|
  {
    RestEndsColumn(data, base, cs, k, c);
    T.RowEnd(cs);
    p, q := base + T.ColumnStart(cs, k), base + T.ColumnStart(cs, |cs|);
    T.SkipColumnsEncoded(data, base, cs, k, |cs|, p, q);
    assert T.SkipColumns(data, p, |cs| - k) == T.Skipped(q, |cs| - k, None);
  }

  /** Consuming a row whose skips succeed ends where they end, with the current column read. */
  lemma ConsumeSteps(data: seq<byte>, n: nat, c: ReaderCursor, k: nat, p: nat, q: nat)
    requires c.column == k - 1 && k <= n
    requires RemainingInColumn(c) == RemainingInRow(c) >= 0 && c.readPos + RemainingInRow(c) == p <= |data|
    requires T.SkipColumns(data, p, n - k) == T.Skipped(q, n - k, None)
    ensures var s := ConsumeRow(data, n, c);
            && s.result.Ok?
            && s.cursor.readPos == q && s.cursor.column == n - 1
            && RemainingInColumn(s.cursor) == 0 && RemainingInRow(s.cursor) == 0
  {
  }

  /**
   * Rows read one after another: once a row is consumed, the reader, reset, stands
   * before the first column of the next row, whether `Reset` clears the pending column
   * or not.
   */
  lemma NextRowAfterConsume(data: seq<byte>, base: nat, cs: seq<T.Column>, next: seq<T.Column>, k: nat, c: ReaderCursor)
    requires ReaderAt(data, base, cs, k, c)
    requires T.RowAt(data, base + |T.EncodeRow(cs)|, next)
    ensures var s := ConsumeRow(data, |cs|, c);
            && ReaderAt(data, base + |T.EncodeRow(cs)|, next, 0, ResetCursor(s.cursor))
            && ReaderAt(data, base + |T.EncodeRow(cs)|, next, 0, ResetCursorAsWritten(s.cursor))
  {
    ConsumeRowEncoded(data, base, cs, k, c);
  }

  /** Two rows of one three-byte text column each, back to back. */
  const TwoRowsData: seq<byte> := [0x74, 0, 0, 0, 3, 1, 2, 3, 0x74, 0, 0, 0, 3, 4, 5, 6]
  const FirstRow: seq<T.Column> := [T.Text([1, 2, 3])]
  const SecondRow: seq<T.Column> := [T.Text([4, 5, 6])]

  lemma TwoRowsEncoded()
    ensures T.RowAt(TwoRowsData, 0, FirstRow) && T.RowAt(TwoRowsData, 8, SecondRow)
    ensures |T.EncodeRow(FirstRow)| == 8
    ensures T.ColumnStart(FirstRow, 0) == 0 && T.ColumnStart(SecondRow, 0) == 0
  {
    assert Int32Bytes(3) == [0, 0, 0, 3];
    assert FirstRow[..0] == [] && SecondRow[..0] == [];
    assert T.EncodeRow(FirstRow) == TwoRowsData[0..8];
    assert T.EncodeRow(SecondRow) == TwoRowsData[8..16];
  }

  /** With no column between the current one and the target, both seeks agree. */
  lemma NextColumnSeeksAgree(data: seq<byte>, n: nat, c: ReaderCursor)
    ensures SeekToColumnAsWritten(data, n, c, c.column + 1) == SeekToColumn(data, n, c, c.column + 1)
  {
  }

  /** Three pending bytes skipped into the second row land on its length, whose byte 0 is no kind. */
  lemma StaleSeekFails()
    ensures SeekToColumnAsWritten(TwoRowsData, 1, ReaderCursor(8, -1, T.TextKind, 3, 0), 0).result == Err(ArgumentOutOfRange)
  {
    assert TwoRowsData[11] == 0;
  }

  /** Seeking the first row's column from a reset reader. */
  lemma FirstSeek()
    ensures SeekToColumn(TwoRowsData, 1, ReaderCursor(0, -1, 0, 0, 0), 0)
            == Sought(ReaderCursor(5, 0, T.TextKind, 3, 0), Ok(Unit))
  {
    TwoRowsEncoded();
    var c := ReaderCursor(0, -1, 0, 0, 0);
    SeekEncoded(TwoRowsData, 0, FirstRow, 0, c, 0);
    KindAndLength(TwoRowsData, 0, FirstRow, 1, SeekToColumn(TwoRowsData, 1, c, 0).cursor);
  }

  /** Seeking the second row's column from a reader reset with nothing pending. */
  lemma SecondSeek()
    ensures SeekToColumn(TwoRowsData, 1, ReaderCursor(8, -1, T.TextKind, 0, 0), 0)
            == Sought(ReaderCursor(13, 0, T.TextKind, 3, 0), Ok(Unit))
  {
    TwoRowsEncoded();
    var c := ReaderCursor(8, -1, T.TextKind, 0, 0);
    SeekEncoded(TwoRowsData, 8, SecondRow, 0, c, 0);
    KindAndLength(TwoRowsData, 8, SecondRow, 1, SeekToColumn(TwoRowsData, 1, c, 0).cursor);
  }

  /**
   * As written, a column that was sought but not read stays pending into the next row:
   * on two rows of one three-byte text column each, seeking the first row's column and
   * consuming the row leaves three bytes pending, so seeking the next row's column skips
   * into its length and fails on the kind byte 0, where the intended reader finds the
   * text column of length 3.
   */
  lemma StaleColumnLength()
    ensures var start := ReaderCursor(0, 0, 0, 0, 0);
            var a1 := SeekToColumnAsWritten(TwoRowsData, 1, ResetCursorAsWritten(start), 0);
            var a2 := ConsumeRowAsWritten(TwoRowsData, 1, a1.cursor);
            var a3 := SeekToColumnAsWritten(TwoRowsData, 1, ResetCursorAsWritten(a2.cursor), 0);
            var b1 := SeekToColumn(TwoRowsData, 1, ResetCursor(start), 0);
            var b2 := ConsumeRow(TwoRowsData, 1, b1.cursor);
            var b3 := SeekToColumn(TwoRowsData, 1, ResetCursor(b2.cursor), 0);
            && a1.result.Ok? && a2.result.Ok? && a2.cursor.readPos == 8
            && a3.result == Err(ArgumentOutOfRange)
            && b3.result.Ok? && b3.cursor.kind == T.TextKind && b3.cursor.columnLen == 3 && b3.cursor.readPos == 13
  {
    var start := ReaderCursor(0, 0, 0, 0, 0);
    FirstSeek();
    NextColumnSeeksAgree(TwoRowsData, 1, ResetCursorAsWritten(start));
    var b1 := ReaderCursor(5, 0, T.TextKind, 3, 0);
    assert ConsumeRowAsWritten(TwoRowsData, 1, b1) == Sought(ReaderCursor(8, 0, T.TextKind, 3, 0), Ok(Unit));
    assert ConsumeRow(TwoRowsData, 1, b1) == Sought(ReaderCursor(8, 0, T.TextKind, 3, 3), Ok(Unit));
    StaleSeekFails();
    SecondSeek();
  }

  // ---- The reader ----

  class ReplicationDataReader {
    const buffer: ReadBuffer
    var state: ReaderState
    var rowDescription: Option<seq<T.FieldDescription>>
    var numColumns: nat
    var column: int
    var kind: byte
    var columnLen: int
    var posInColumn: int

    /** In a result the reader has its row description and counts its columns. */
    ghost predicate Valid()
      reads this
    {
      && -1 <= column
      && (state == InResult ==> rowDescription.Some? && numColumns == |rowDescription.value|)
    }

    function CursorNow(): ReaderCursor
      reads this, buffer
    {
      ReaderCursor(buffer.readPosition, column, kind, columnLen, posInColumn)
    }

    constructor (buffer: ReadBuffer)
      ensures Valid() && this.buffer == buffer && state == BeforeResult && rowDescription == None
      ensures numColumns == 0 && column == 0 && kind == 0 && columnLen == 0 && posInColumn == 0
    {
      this.buffer := buffer;
      state := BeforeResult;
      rowDescription := None;
      numColumns := 0;
      column := 0;
      kind := 0;
      columnLen := 0;
      posInColumn := 0;
    }

    /** `Reset`: a new row in sequential mode, before its first column, nothing pending. */
    method Reset(rowDescription: seq<T.FieldDescription>)
      modifies this`rowDescription, this`state, this`numColumns, this`column, this`columnLen, this`posInColumn
      ensures Valid()
      ensures this.rowDescription == Some(rowDescription) && state == InResult && numColumns == |rowDescription|
      ensures CursorNow() == ResetCursor(old(CursorNow()))
    {
      this.rowDescription := Some(rowDescription);
      state := InResult;
      numColumns := |rowDescription|;
      column := -1;
      columnLen := 0;
      posInColumn := 0;
    }

    /** `GetField`: needs a row description and a column within it. */
    function GetField(column: int): (r: Result<T.FieldDescription>)
      reads this
      ensures rowDescription.None? ==> r == Err(InvalidOperation)
      ensures rowDescription.Some? ==>
                (r.Ok? <==> 0 <= column < |rowDescription.value|)
                && (r.Ok? ==> r.value == rowDescription.value[column])
                && (r.Err? ==> r.error == IndexOutOfRange)
    {
      match rowDescription
      case None => Err(InvalidOperation)
      case Some(rd) => if 0 <= column < |rd| then Ok(rd[column]) else Err(IndexOutOfRange)
    }

    /** `CheckRowAndGetField`: only inside a result, and only a column of the row. */
    function CheckRowAndGetField(column: int): (r: Result<T.FieldDescription>)
      requires Valid()
      reads this
      ensures r.Ok? <==> state == InResult && 0 <= column < numColumns
      ensures r.Ok? ==> r.value == rowDescription.value[column]
      ensures state == Disposed ==> r == Err(ObjectDisposed)
      ensures state != Disposed && state != InResult ==> r == Err(InvalidOperation)
      ensures state == InResult && !(0 <= column < numColumns) ==> r == Err(IndexOutOfRange)
    {
      match state
      case InResult =>
        if 0 <= column < |rowDescription.value| then Ok(rowDescription.value[column]) else Err(IndexOutOfRange)
      case Closed => Err(InvalidOperation)
      case Disposed => Err(ObjectDisposed)
      case _ => Err(InvalidOperation)
    }

    /** `CheckClosedOrDisposed`. */
    function CheckClosedOrDisposed(): (r: Result<Unit>)
      reads this
      ensures r.Ok? <==> state != Closed && state != Disposed
      ensures state == Closed ==> r == Err(InvalidOperation)
      ensures state == Disposed ==> r == Err(ObjectDisposed)
    {
      match state
      case Closed => Err(InvalidOperation)
      case Disposed => Err(ObjectDisposed)
      case _ => Ok(Unit)
    }

    /** One whole column skipped: its kind byte and, for text and binary, its length and payload. */
    method SkipColumn() returns (r: Result<Unit>)
      modifies buffer`readPosition
      ensures var s := T.ColumnStep(buffer.data, old(buffer.readPosition));
              && buffer.readPosition == s.pos
              && (r.Ok? <==> s.error.None?)
              && (r.Ok? ==> r == Ok(Unit))
              && (r.Err? ==> s.error == Some(r.error))
    {
      var k := buffer.ReadByte();
      if k.Err? {
        return Err(k.error);
      }
      if k.value == T.NullKind || k.value == T.UnchangedKind {
        return Ok(Unit);
      }
      if k.value != T.TextKind && k.value != T.BinaryKind {
        return Err(ArgumentOutOfRange);
      }
      var len := buffer.ReadInt32();
      if len.Err? {
        return Err(len.error);
      }
      if len.value == -1 {
        return Ok(Unit);
      }
      if len.value < 0 {
        return Err(ArgumentOutOfRange);
      }
      r := buffer.Skip(len.value);
    }

    /** The loop skipping whole columns until the current column is `last`. */
    method SkipColumnsUntil(last: int) returns (r: Result<Unit>)
      requires column <= last
      modifies this`column, buffer`readPosition
      ensures var s := T.SkipColumns(buffer.data, old(buffer.readPosition), last - old(column));
              && buffer.readPosition == s.pos && column == old(column) + s.done
              && (r.Ok? <==> s.error.None?)
              && (r.Ok? ==> r == Ok(Unit))
              && (r.Err? ==> s.error == Some(r.error))
    {
      r := Ok(Unit);
      while column < last
        invariant old(column) <= column <= last && r == Ok(Unit)
        invariant var s := T.SkipColumns(buffer.data, buffer.readPosition, last - column);
                  T.SkipColumns(buffer.data, old(buffer.readPosition), last - old(column))
                    == T.Skipped(s.pos, s.done + (column - old(column)), s.error)
        decreases last - column
      {
        r := SkipColumn();
        if r.Err? {
          return;
        }
        column := column + 1;
      }
    }

    /** Reading the target column's header, as `ReadTarget` says. */
    method ReadTargetHeader(target: int) returns (r: Result<Unit>)
      modifies this`column, this`kind, this`columnLen, this`posInColumn, buffer`readPosition
      ensures Sought(CursorNow(), r) == ReadTarget(buffer.data, old(CursorNow()), target)
    {
      if buffer.readPosition + 5 > |buffer.data| {
        return Err(EndOfData);
      }
      var k := buffer.ReadByte();
      kind := k.value;
      if kind == T.NullKind || kind == T.UnchangedKind {
        columnLen := 0;
      } else if kind == T.TextKind || kind == T.BinaryKind {
        var len := buffer.ReadInt32();
        columnLen := len.value;
      } else {
        return Err(ArgumentOutOfRange);
      }
      posInColumn := 0;
      column := target;
      r := Ok(Unit);
    }

    /** Skipping `rest` bytes of the current column when `rest` is positive. */
    method SkipRestOfColumn(rest: int) returns (r: Result<Unit>)
      modifies buffer`readPosition
      ensures var s := SkipRest(buffer.data, old(CursorNow()), rest);
              buffer.readPosition == s.cursor.readPos && r == s.result
    {
      r := Ok(Unit);
      if rest > 0 {
        r := buffer.Skip(rest);
      }
    }

    /** `SeekToColumnSequential`, skipping intermediate columns whole. */
    method SeekToColumnSequential(target: int) returns (r: Result<Unit>)
      requires Valid()
      modifies this`column, this`kind, this`columnLen, this`posInColumn, buffer`readPosition
      ensures Valid()
      ensures Sought(CursorNow(), r) == SeekToColumn(buffer.data, numColumns, old(CursorNow()), target)
    {
      if target < 0 || target >= numColumns {
        return Err(IndexOutOfRange);
      }
      if target < column {
        return Err(InvalidOperation);
      }
      if target == column {
        return Ok(Unit);
      }
      r := SkipRestOfColumn(RemainingInColumn(CursorNow()));
      if r.Err? {
        return;
      }
      r := SkipColumnsUntil(target - 1);
      if r.Err? {
        return;
      }
      r := ReadTargetHeader(target);
    }

    /** `SeekInColumnSequential`: forward only, clamped to the column's length. */
    method SeekInColumnSequential(pos: int) returns (r: Result<Unit>)
      requires column > -1
      modifies this`posInColumn, buffer`readPosition
      ensures pos < old(posInColumn) ==>
                r == Err(InvalidOperation) && posInColumn == old(posInColumn)
                && buffer.readPosition == old(buffer.readPosition)
      ensures pos >= old(posInColumn) ==>
                var goal := if pos > columnLen then columnLen else pos;
                var ahead := goal - old(posInColumn);
                if ahead <= 0 then
                  r == Ok(Unit) && posInColumn == old(posInColumn) && buffer.readPosition == old(buffer.readPosition)
                else if old(buffer.readPosition) + ahead <= |buffer.data| then
                  r == Ok(Unit) && posInColumn == goal && buffer.readPosition == old(buffer.readPosition) + ahead
                else
                  r == Err(EndOfData) && posInColumn == old(posInColumn) && buffer.readPosition == old(buffer.readPosition)
    {
      if pos < posInColumn {
        return Err(InvalidOperation);
      }
      var goal := if pos > columnLen then columnLen else pos;
      r := Ok(Unit);
      if goal > posInColumn {
        r := buffer.Skip(goal - posInColumn);
        if r.Ok? {
          posInColumn := goal;
        }
      }
    }

    /** `ConsumeRow`: the rest of the row skipped, the current column's rest recorded as read. */
    method ConsumeRowMethod() returns (r: Result<Unit>)
      requires Valid() && state == InResult
      modifies this`column, this`posInColumn, buffer`readPosition
      ensures Valid()
      ensures Sought(CursorNow(), r) == ConsumeRow(buffer.data, numColumns, old(CursorNow()))
    {
      var rest := RemainingInRow(CursorNow());
      r := SkipRestOfColumn(rest);
      if r.Err? {
        return;
      }
      if rest > 0 {
        posInColumn := columnLen;
      }
      if column < numColumns - 1 {
        r := SkipColumnsUntil(numColumns - 1);
      }
    }

    /**
     * `GetFieldValueSequential<T>`: the row and column checks, then `ReadField`. The
     * connection's brokenness is a parameter.
     */
    method GetFieldValueSequential<V>(column: int, target: RV.Target, decode: seq<byte> -> RV.Decoding<V>, broken: bool)
      returns (r: Result<RV.FieldValue<V>>)
      requires Valid()
      modifies this`column, this`kind, this`columnLen, this`posInColumn, buffer`readPosition
      ensures Valid()
      ensures old(CheckRowAndGetField(column)).Err? ==>
                r == Err(old(CheckRowAndGetField(column)).error) && CursorNow() == old(CursorNow())
      ensures old(CheckRowAndGetField(column)).Ok? ==>
                FieldRead(CursorNow(), r) == ReadField(buffer.data, numColumns, old(CursorNow()), column, target, decode, broken)
    {
      var f := CheckRowAndGetField(column);
      if f.Err? {
        return Err(f.error);
      }
      var s := SeekToColumnSequential(column);
      if s.Err? {
        return Err(s.error);
      }
      if posInColumn != 0 {
        return Err(InvalidOperation);
      }
      if kind == T.NullKind {
        return RV.NullAs(target);
      }
      if kind == T.UnchangedKind {
        return Err(InvalidCast);
      }
      r := DecodeCurrent(decode, broken);
    }

    /** The handler's read of the current column, with the cleanup after a failure. */
    method DecodeCurrent<V>(decode: seq<byte> -> RV.Decoding<V>, broken: bool) returns (r: Result<RV.FieldValue<V>>)
      modifies this`posInColumn, buffer`readPosition
      ensures FieldRead(CursorNow(), r) == DecodeColumn(buffer.data, old(CursorNow()), decode, broken)
    {
      var len := columnLen;
      var p := buffer.readPosition;
      if len < 0 {
        r := Err(ArgumentOutOfRange);
      } else if p + len > |buffer.data| {
        r := Err(EndOfData);
      } else {
        match decode(buffer.data[p..p + len]) {
          case Decoded(v) =>
            buffer.readPosition := p + len;
            r := Ok(RV.Value(v));
          case Failed(n, e) =>
            buffer.readPosition := p + Min(n, len);
            if !broken {
              var remaining := len - Min(n, len);
              if remaining > 0 {
                var skipped := buffer.Skip(remaining);
              }
            }
            r := Err(e);
        }
      }
      posInColumn := posInColumn + len;
    }

    /** `IsDBNullAsync`: the row and column checks, a seek, then whether the column is null. */
    method IsDBNullAsync(column: int) returns (r: Result<bool>)
      requires Valid()
      modifies this`column, this`kind, this`columnLen, this`posInColumn, buffer`readPosition
      ensures Valid()
      ensures old(CheckRowAndGetField(column)).Err? ==>
                r == Err(old(CheckRowAndGetField(column)).error) && CursorNow() == old(CursorNow())
      ensures old(CheckRowAndGetField(column)).Ok? ==>
                var s := SeekToColumn(buffer.data, numColumns, old(CursorNow()), column);
                && CursorNow() == s.cursor
                && (s.result.Err? ==> r == Err(s.result.error))
                && (s.result.Ok? ==> r == Ok(s.cursor.kind == T.NullKind))
    {
      var f := CheckRowAndGetField(column);
      if f.Err? {
        return Err(f.error);
      }
      var s := SeekToColumnSequential(column);
      if s.Err? {
        return Err(s.error);
      }
      r := Ok(kind == T.NullKind);
    }

    /**
     * `ReadAsync`: in a result the rest of the row is consumed and there is no next row;
     * a failure, or a state before or between results, leaves the reader `Consumed`.
     */
    method ReadAsync() returns (r: Result<bool>)
      requires Valid()
      modifies this`state, this`column, this`posInColumn, buffer`readPosition
      ensures Valid()
      ensures old(state) == InResult ==>
                var s := ConsumeRow(buffer.data, numColumns, old(CursorNow()));
                && CursorNow() == s.cursor
                && (s.result.Ok? ==> r == Ok(false) && state == InResult)
                && (s.result.Err? ==> r == Err(s.result.error) && state == Consumed)
      ensures old(state) in {Consumed, Closed, Disposed} ==>
                r == Ok(false) && state == old(state) && CursorNow() == old(CursorNow())
      ensures old(state) in {BeforeResult, BetweenResults} ==>
                r == Err(ArgumentOutOfRange) && state == Consumed && CursorNow() == old(CursorNow())
    {
      match state {
        case InResult =>
          var c := ConsumeRowMethod();
          if c.Err? {
            state := Consumed;
            return Err(c.error);
          }
          r := Ok(false);
        case Consumed =>
          r := Ok(false);
        case Closed =>
          r := Ok(false);
        case Disposed =>
          r := Ok(false);
        case _ =>
          state := Consumed;
          r := Err(ArgumentOutOfRange);
      }
    }
  }
}
