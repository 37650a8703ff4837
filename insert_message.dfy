/**
 * `InsertMessage` of the logical replication protocol: the message hands out its new row
 * through a `ReplicationDataReader` that shares the connector's buffer, and records
 * whether that row is unread, being read or consumed. The private tuple enumerator is
 * modelled too, although the message never constructs one.
 */
module InsertMessages {
  import opened Wrappers
  import opened Wire
  import opened ReadBuffers
  import T = TupleData
  import RV = ReplicationValues
  import RDR = ReplicationDataReaders

  datatype RowState = NotRead | Reading | Consumed

  /** The relation a message refers to: its ID and the description of its columns. */
  datatype Relation = Relation(relationId: nat, rowDescription: seq<T.FieldDescription>)

  // ---- The enumerator as a function of its state ----

  /**
   * The state `MoveNextAsync` works on: the buffer position, the enumerator's `_pos`, and
   * the current value's `Length` and bytes read.
   */
  datatype Cursor = Cursor(readPos: nat, pos: int, length: int, bytePos: nat)

  /** The state after a step and what the step returned. */
  datatype Moved = Moved(cursor: Cursor, result: Result<bool>)

  /** The bytes of the current column not yet read: nothing before the first column. */
  function Pending(c: Cursor): nat
  {
    if c.pos != -1 then RV.Unread(c.length, c.bytePos) else 0
  }

  /**
   * Reading the header of the next column into the value. A kind byte or length that
   * cannot be read fails with the position counted and the value as it was.
   */
  function ReadNext(data: seq<byte>, c: Cursor): (m: Moved)
    ensures m.cursor.pos == c.pos
    ensures m.result.Ok? ==> m.result.value && m.cursor.bytePos == 0
    ensures m.result == Ok(true) ==> c.readPos < m.cursor.readPos <= |data|
  {
    match T.ReadHeader(data, c.readPos)
    case Err(e) => Moved(c, Err(e))
    case Ok(h) =>
      match h.length
      case Err(e) => Moved(c.(readPos := h.next), Err(e))
      case Ok(len) => Moved(Cursor(h.next, c.pos, len, 0), Ok(true))
  }

  /**
   * `MoveNextAsync` as written: skip what is left of the previous column without
   * recording it, report the end after the last column, else read the next header.
   */
  function MoveNextAsWritten(data: seq<byte>, numColumns: nat, c: Cursor): (m: Moved)
    requires -1 <= c.pos < numColumns
    ensures m.result == Ok(true) ==> m.cursor.pos == c.pos + 1 && m.cursor.bytePos == 0
    ensures m.result == Ok(false) ==> m.cursor.pos == c.pos == numColumns - 1 && Pending(m.cursor) == Pending(c)
  {
    var skip := Pending(c);
    if skip > 0 && c.readPos + skip > |data| then Moved(c, Err(EndOfData))
    else
      var c1 := c.(readPos := c.readPos + skip);
      if c.pos + 1 == numColumns then Moved(c1, Ok(false))
      else ReadNext(data, c1.(pos := c.pos + 1))
  }

  /** `MoveNextAsync` with the skipped rest of the previous column counted as read. */
  function MoveNext(data: seq<byte>, numColumns: nat, c: Cursor): (m: Moved)
    requires -1 <= c.pos < numColumns
    ensures -1 <= m.cursor.pos < numColumns
    ensures m.result == Ok(true) ==> m.cursor.pos == c.pos + 1 && m.cursor.bytePos == 0
    ensures m.result == Ok(false) ==> m.cursor.pos == c.pos == numColumns - 1 && Pending(m.cursor) == 0
    ensures m.result.Err? ==> m.cursor.pos == c.pos || m.cursor.pos == c.pos + 1
  {
    var skip := Pending(c);
    if skip > 0 && c.readPos + skip > |data| then Moved(c, Err(EndOfData))
    else
      var c1 := c.(readPos := c.readPos + skip, bytePos := c.bytePos + skip);
      if c.pos + 1 == numColumns then Moved(c1, Ok(false))
      else ReadNext(data, c1.(pos := c.pos + 1))
  }

  /** `while (await MoveNextAsync()) { }`: step until the end of the row or a failure. */
  function Drain(data: seq<byte>, numColumns: nat, c: Cursor): (m: Moved)
    requires -1 <= c.pos < numColumns
    ensures m.result != Ok(true)
    ensures -1 <= m.cursor.pos < numColumns
    decreases numColumns - c.pos
  {
    var m := MoveNext(data, numColumns, c);
    if m.result == Ok(true) then Drain(data, numColumns, m.cursor) else m
  }

  // ---- Enumerating an encoded row ----

  /**
   * The cursor stands at column `k` of the row `cs` encoded at `base`: before the first
   * column when `k` is 0, else inside the payload of column `k - 1` with its length loaded.
   */
  ghost predicate AtColumn(data: seq<byte>, base: nat, cs: seq<T.Column>, k: nat, c: Cursor)
  {
    && T.RowAt(data, base, cs) && k <= |cs|
    && if k == 0 then c.readPos == base && c.pos == -1
       else
         && c.pos == k - 1
         && c.length == T.LengthOf(cs[k - 1])
         && c.bytePos <= (if c.length > 0 then c.length else 0)
         && c.readPos == base + T.ColumnStart(cs, k - 1) + T.HeaderSize(cs[k - 1]) + c.bytePos
  }

  /**
   * On an encoded row each step succeeds: it moves to the next column with that column's
   * length, or after the last column reports the end with the buffer at the row's end.
   */
  lemma MoveNextEncoded(data: seq<byte>, base: nat, cs: seq<T.Column>, k: nat, c: Cursor)
    requires AtColumn(data, base, cs, k, c)
    ensures var m := MoveNext(data, |cs|, c);
            && (k < |cs| ==> m.result == Ok(true) && AtColumn(data, base, cs, k + 1, m.cursor)
                             && m.cursor.bytePos == 0)
            && (k == |cs| ==> m.result == Ok(false) && m.cursor.readPos == base + |T.EncodeRow(cs)|)
  {
    if k < |cs| {
      MoveNextEncodedInside(data, base, cs, k, c);
    } else {
      PendingEndsColumn(data, base, cs, k, c);
      T.RowEnd(cs);
    }
  }

  lemma MoveNextEncodedInside(data: seq<byte>, base: nat, cs: seq<T.Column>, k: nat, c: Cursor)
    requires AtColumn(data, base, cs, k, c) && k < |cs|
    ensures var m := MoveNext(data, |cs|, c);
            m.result == Ok(true) && AtColumn(data, base, cs, k + 1, m.cursor) && m.cursor.bytePos == 0
  {
    var start := base + T.ColumnStart(cs, k);
    var next := start + T.HeaderSize(cs[k]);
    PendingEndsColumn(data, base, cs, k, c);
    HeaderEncodedAt(data, base, cs, k, start, next);
    StepToHeader(data, |cs|, c, start, T.KindOf(cs[k]), T.LengthOf(cs[k]), next, k);
    AfterHeader(data, base, cs, k, Cursor(next, k, T.LengthOf(cs[k]), 0));
  }

  /** Just after column `k`'s header the cursor stands inside column `k` with nothing of it read. */
  lemma AfterHeader(data: seq<byte>, base: nat, cs: seq<T.Column>, k: nat, c: Cursor)
    requires T.RowAt(data, base, cs) && k < |cs|
    requires c == Cursor(base + T.ColumnStart(cs, k) + T.HeaderSize(cs[k]), k, T.LengthOf(cs[k]), 0)
    ensures AtColumn(data, base, cs, k + 1, c)
  {
  }

  /** Column `k` of an encoded row has its header at its start. */
  lemma HeaderEncodedAt(data: seq<byte>, base: nat, cs: seq<T.Column>, k: nat, start: nat, next: nat)
    requires T.RowAt(data, base, cs) && k < |cs|
    requires start == base + T.ColumnStart(cs, k) && next == start + T.HeaderSize(cs[k])
    ensures T.ReadHeader(data, start) == Ok(T.Header(T.KindOf(cs[k]), Ok(T.LengthOf(cs[k])), next))
  {
    assert T.WellFormed(cs[k]);
    T.ColumnBytesAt(data, base, cs, k, start, start + |T.EncodeColumn(cs[k])|);
    T.ReadHeaderEncoded(data, start, cs[k]);
  }

  /** A step that ends the current column where a readable header starts moves to that column. */
  lemma StepToHeader(data: seq<byte>, n: nat, c: Cursor, start: nat, kind: byte, len: int, next: nat, pos: int)
    requires -1 <= c.pos && pos == c.pos + 1 < n
    requires c.readPos + Pending(c) == start <= |data|
    requires T.ReadHeader(data, start) == Ok(T.Header(kind, Ok(len), next))
    ensures MoveNext(data, n, c) == Moved(Cursor(next, pos, len, 0), Ok(true))
  {
  }

  /** What is left of the current column ends where column `k` starts, within the row. */
  lemma PendingEndsColumn(data: seq<byte>, base: nat, cs: seq<T.Column>, k: nat, c: Cursor)
    requires AtColumn(data, base, cs, k, c)
    ensures c.readPos + Pending(c) == base + T.ColumnStart(cs, k) <= |data|
  {
    if k > 0 {
      T.ColumnAt(data, base, cs, k - 1);
    } else {
      assert cs[..0] == [];
    }
  }

  /** Draining an encoded row from any column ends it cleanly at the row's end. */
  lemma {:induction false} DrainEncodedRow(data: seq<byte>, base: nat, cs: seq<T.Column>, k: nat, c: Cursor)
    requires AtColumn(data, base, cs, k, c)
    ensures Drain(data, |cs|, c).result == Ok(false)
    ensures Drain(data, |cs|, c).cursor.readPos == base + |T.EncodeRow(cs)|
    decreases |cs| - k
  {
    MoveNextEncoded(data, base, cs, k, c);
    if k < |cs| {
      DrainEncodedRow(data, base, cs, k + 1, MoveNext(data, |cs|, c).cursor);
    }
  }

  /** Once a step has reported the end, another step reports it again and reads nothing. */
  lemma MoveNextAfterEndStays(data: seq<byte>, numColumns: nat, c: Cursor)
    requires -1 <= c.pos < numColumns
    requires MoveNext(data, numColumns, c).result == Ok(false)
    ensures var m := MoveNext(data, numColumns, c);
            MoveNext(data, numColumns, m.cursor) == m
  {
  }

  /**
   * As written, a step after the end skips the last column's rest a second time: in the
   * row of one three-byte text column followed by more data, the end is reported at the
   * row's end, and reported again three bytes further on.
   */
  lemma MoveNextAsWrittenSkipsAgain()
    ensures var cs := [T.Text([1, 2, 3])];
            var data := T.EncodeRow(cs) + [0, 0, 0];
            var m1 := MoveNextAsWritten(data, 1, Cursor(0, -1, 0, 0));
            var m2 := MoveNextAsWritten(data, 1, m1.cursor);
            var m3 := MoveNextAsWritten(data, 1, m2.cursor);
            && m1.result == Ok(true)
            && m2.result == Ok(false) && m2.cursor.readPos == |T.EncodeRow(cs)|
            && m3.result == Ok(false) && m3.cursor.readPos == |T.EncodeRow(cs)| + 3
  {
    var cs := [T.Text([1, 2, 3])];
    var data := T.EncodeRow(cs) + [0, 0, 0];
    assert cs[..0] == [];
    assert cs[..|cs| - 1] == [];
    assert T.EncodeRow(cs) == T.EncodeColumn(cs[0]);
    assert data[0..|T.EncodeColumn(cs[0])|] == T.EncodeColumn(cs[0]);
    T.ReadHeaderEncoded(data, 0, cs[0]);
  }

  // ---- The classes ----

  class InsertMessage {
    const reader: RDR.ReplicationDataReader
    var relation: Option<Relation>
    var rowState: RowState

    /** A message owns one reader over the connector's buffer, reused for every row. */
    constructor (buffer: ReadBuffer)
      ensures relation == None && rowState == NotRead
      ensures fresh(reader) && reader.buffer == buffer && reader.Valid()
    {
      reader := new RDR.ReplicationDataReader(buffer);
      relation := None;
      rowState := NotRead;
    }

    /** `Populate`: a new message, its row not yet read. */
    method Populate(relation: Relation)
      modifies this`relation, this`rowState
      ensures this.relation == Some(relation) && rowState == NotRead
    {
      this.relation := Some(relation);
      rowState := NotRead;
    }

    /** `Relation`: fails when the message has no relation. */
    function GetRelation(): (r: Result<Relation>)
      reads this
      ensures r.Ok? <==> relation.Some?
      ensures r.Ok? ==> r.value == relation.value
      ensures r.Err? ==> r.error == InvalidOperation
    {
      match relation
      case Some(rel) => Ok(rel)
      case None => Err(InvalidOperation)
    }

    /**
     * `GetNewRow`: the reader, reset to the start of the relation's row; without a
     * relation the unchecked field is dereferenced.
     */
    method GetNewRow() returns (r: Result<RDR.ReplicationDataReader>)
      modifies reader`rowDescription, reader`state, reader`numColumns, reader`column, reader`columnLen, reader`posInColumn
      ensures relation.None? ==> r == Err(NullReference) && unchanged(reader)
      ensures relation.Some? ==>
                && r == Ok(reader) && reader.Valid()
                && reader.rowDescription == Some(relation.value.rowDescription)
                && reader.state == RDR.InResult
                && reader.CursorNow() == RDR.ResetCursor(old(reader.CursorNow()))
    {
      if relation.None? {
        return Err(NullReference);
      }
      reader.Reset(relation.value.rowDescription);
      r := Ok(reader);
    }

    /**
     * `Consume`: the reader's `ReadAsync`, which consumes what is left of the row. A
     * reader in no result refuses with `ArgumentOutOfRangeException`, and any failure
     * leaves it `Consumed`; a consumed, closed or disposed reader is left alone.
     */
    method Consume() returns (r: Result<Unit>)
      requires reader.Valid()
      modifies reader`state, reader`column, reader`posInColumn, reader.buffer`readPosition
      ensures reader.Valid()
      ensures old(reader.state) == RDR.InResult ==>
                var s := RDR.ConsumeRow(reader.buffer.data, reader.numColumns, old(reader.CursorNow()));
                && reader.CursorNow() == s.cursor
                && (r.Ok? <==> s.result.Ok?)
                && (r.Err? ==> r.error == s.result.error)
                && reader.state == (if s.result.Ok? then RDR.InResult else RDR.Consumed)
      ensures old(reader.state) in {RDR.BeforeResult, RDR.BetweenResults} ==>
                && r == Err(ArgumentOutOfRange) && reader.state == RDR.Consumed
                && reader.CursorNow() == old(reader.CursorNow())
      ensures old(reader.state) in {RDR.Consumed, RDR.Closed, RDR.Disposed} ==>
                && r == Ok(Unit) && reader.state == old(reader.state)
                && reader.CursorNow() == old(reader.CursorNow())
    {
      var read := reader.ReadAsync();
      r := if read.Ok? then Ok(Unit) else Err(read.error);
    }
  }

  class TupleEnumerator {
    const insertMessage: InsertMessage
    const readBuffer: ReadBuffer
    const value: RV.ReplicationValue
    var numColumns: nat
    var pos: int

    ghost predicate Valid()
      reads this, value
    {
      value.readBuffer == readBuffer && -1 <= pos < numColumns
    }

    /** The state the step functions work on. */
    function CursorNow(): Cursor
      reads this, readBuffer, value
    {
      Cursor(readBuffer.readPosition, pos, value.length, value.bytePos)
    }

    /** `_pos` starts at 0 in the driver; nothing reads it before `Reset` sets -1, which the model uses from the start. */
    constructor (insertMessage: InsertMessage, readBuffer: ReadBuffer)
      ensures this.insertMessage == insertMessage && this.readBuffer == readBuffer
      ensures fresh(value) && Valid() && numColumns == 0
    {
      this.insertMessage := insertMessage;
      this.readBuffer := readBuffer;
      value := new RV.ReplicationValue(readBuffer);
      numColumns := 0;
      pos := -1;
    }

    /** `Reset`: before the first of `numColumns` columns. */
    method Reset(numColumns: nat)
      requires Valid()
      modifies this`numColumns, this`pos
      ensures Valid() && this.numColumns == numColumns && pos == -1
    {
      this.numColumns := numColumns;
      pos := -1;
    }

    /** Reading the next column's header into the value. */
    method ReadColumn() returns (r: Result<bool>)
      requires Valid()
      modifies readBuffer`readPosition, value`length, value`bytePos
      ensures Valid()
      ensures var m := ReadNext(readBuffer.data, old(CursorNow()));
              CursorNow() == m.cursor && r == m.result
    {
      var kind := readBuffer.ReadByte();
      if kind.Err? {
        return Err(kind.error);
      }
      var len: int;
      if kind.value == T.NullKind {
        len := -1;
      } else if kind.value == T.UnchangedKind {
        len := -2;
      } else if kind.value == T.TextKind || kind.value == T.BinaryKind {
        var l := readBuffer.ReadInt32();
        if l.Err? {
          return Err(l.error);
        }
        len := l.value;
      } else {
        return Err(ArgumentOutOfRange);
      }
      value.Reset(len);
      r := Ok(true);
    }

    /** Consuming the rest of the current column, if there is one. */
    method ConsumeCurrent() returns (r: Result<Unit>)
      requires Valid()
      modifies readBuffer`readPosition, value`bytePos
      ensures Valid()
      ensures var c := old(CursorNow());
              var skip := Pending(c);
              if skip > 0 && c.readPos + skip > |readBuffer.data| then r.Err? && r.error == EndOfData && CursorNow() == c
              else r.Ok? && CursorNow() == c.(readPos := c.readPos + skip, bytePos := c.bytePos + skip)
    {
      r := Ok(Unit);
      if pos != -1 {
        r := value.ConsumeRest();
      }
    }

    /**
     * `MoveNextAsync`: refused unless the row is being read; otherwise one step of
     * `MoveNext`, the previous column's rest consumed once.
     */
    method MoveNextAsync() returns (r: Result<bool>)
      requires Valid()
      modifies this`pos, readBuffer`readPosition, value`length, value`bytePos
      ensures Valid()
      ensures insertMessage.rowState != Reading ==>
                r == Err(ObjectDisposed) && CursorNow() == old(CursorNow())
      ensures insertMessage.rowState == Reading ==>
                var m := MoveNext(readBuffer.data, numColumns, old(CursorNow()));
                CursorNow() == m.cursor && r == m.result
    {
      if insertMessage.rowState != Reading {
        return Err(ObjectDisposed);
      }
      var c := ConsumeCurrent();
      if c.Err? {
        return Err(c.error);
      }
      if pos + 1 == numColumns {
        return Ok(false);
      }
      pos := pos + 1;
      r := ReadColumn();
    }

    /** `Current`: the value, while the row is being read. */
    function Current(): (r: Result<RV.ReplicationValue>)
      reads this, insertMessage
      ensures r.Ok? <==> insertMessage.rowState == Reading
      ensures r.Ok? ==> r.value == value
      ensures r.Err? ==> r.error == ObjectDisposed
    {
      match insertMessage.rowState
      case Reading => Ok(value)
      case _ => Err(ObjectDisposed)
    }

    /** Stepping until `MoveNextAsync` returns false or fails. */
    method DrainColumns() returns (r: Result<Unit>)
      requires Valid() && insertMessage.rowState == Reading
      modifies this`pos, readBuffer`readPosition, value`length, value`bytePos
      ensures Valid()
      ensures var d := Drain(readBuffer.data, numColumns, old(CursorNow()));
              && CursorNow() == d.cursor
              && (r.Ok? <==> d.result.Ok?)
              && (r.Err? ==> r.error == d.result.error)
    {
      while true
        invariant Valid()
        invariant Drain(readBuffer.data, numColumns, CursorNow()) == Drain(readBuffer.data, numColumns, old(CursorNow()))
        decreases numColumns - pos
      {
        var m := MoveNextAsync();
        if m.Err? {
          return Err(m.error);
        }
        if !m.value {
          return Ok(Unit);
        }
      }
    }

    /**
     * `DisposeAsync`: a row being read is drained and then consumed; a failure while
     * draining propagates and leaves it being read.
     */
    method DisposeAsync() returns (r: Result<Unit>)
      requires Valid()
      modifies this`pos, readBuffer`readPosition, value`length, value`bytePos, insertMessage`rowState
      ensures Valid()
      ensures old(insertMessage.rowState) != Reading ==>
                r == Ok(Unit) && insertMessage.rowState == Consumed && CursorNow() == old(CursorNow())
      ensures old(insertMessage.rowState) == Reading ==>
                var d := Drain(readBuffer.data, numColumns, old(CursorNow()));
                && CursorNow() == d.cursor
                && (d.result.Err? ==> r == Err(d.result.error) && insertMessage.rowState == Reading)
                && (d.result.Ok? ==> r == Ok(Unit) && insertMessage.rowState == Consumed)
    {
      if insertMessage.rowState == Reading {
        r := DrainColumns();
        if r.Err? {
          return;
        }
      }
      insertMessage.rowState := Consumed;
      r := Ok(Unit);
    }
  }

  class TupleEnumerable {
    const insertMessage: InsertMessage
    const enumerator: TupleEnumerator
    var numColumns: nat

    ghost predicate Valid()
      reads this, enumerator, enumerator.value
    {
      enumerator.insertMessage == insertMessage && enumerator.Valid()
    }

    constructor (insertMessage: InsertMessage, readBuffer: ReadBuffer)
      ensures Valid() && this.insertMessage == insertMessage && enumerator.readBuffer == readBuffer
      ensures fresh(enumerator) && fresh(enumerator.value) && numColumns == 0
    {
      this.insertMessage := insertMessage;
      enumerator := new TupleEnumerator(insertMessage, readBuffer);
      numColumns := 0;
    }

    method Reset(numColumns: nat)
      modifies this`numColumns
      ensures this.numColumns == numColumns
    {
      this.numColumns := numColumns;
    }

    /** `GetAsyncEnumerator`: only an unread row can be enumerated, and only once. */
    method GetAsyncEnumerator() returns (r: Result<TupleEnumerator>)
      requires Valid()
      modifies insertMessage`rowState, enumerator`pos, enumerator`numColumns
      ensures Valid()
      ensures old(insertMessage.rowState) == NotRead ==>
                && r == Ok(enumerator) && insertMessage.rowState == Reading
                && enumerator.pos == -1 && enumerator.numColumns == numColumns
      ensures old(insertMessage.rowState) != NotRead ==>
                && r == Err(InvalidOperation) && insertMessage.rowState == old(insertMessage.rowState)
                && enumerator.pos == old(enumerator.pos) && enumerator.numColumns == old(enumerator.numColumns)
    {
      if insertMessage.rowState == NotRead {
        insertMessage.rowState := Reading;
        enumerator.Reset(numColumns);
        return Ok(enumerator);
      }
      r := Err(InvalidOperation);
    }

    /**
     * `Consume`: an unread row is started and drained, a row being read is drained, a
     * consumed row is left alone. The row state stays `Reading` after a drain.
     */
    method Consume() returns (r: Result<Unit>)
      requires Valid()
      modifies insertMessage`rowState, enumerator`pos, enumerator`numColumns
      modifies enumerator.readBuffer`readPosition, enumerator.value`length, enumerator.value`bytePos
      ensures Valid()
      ensures old(insertMessage.rowState) == Consumed ==>
                r == Ok(Unit) && insertMessage.rowState == Consumed
                && enumerator.CursorNow() == old(enumerator.CursorNow())
      ensures old(insertMessage.rowState) != Consumed ==>
                var start := if old(insertMessage.rowState) == NotRead
                             then old(enumerator.CursorNow()).(pos := -1)
                             else old(enumerator.CursorNow());
                var n := if old(insertMessage.rowState) == NotRead then numColumns else old(enumerator.numColumns);
                var d := Drain(enumerator.readBuffer.data, n, start);
                && insertMessage.rowState == Reading && enumerator.numColumns == n
                && enumerator.CursorNow() == d.cursor
                && (r.Ok? <==> d.result.Ok?)
                && (r.Err? ==> r.error == d.result.error)
    {
      if insertMessage.rowState == Consumed {
        return Ok(Unit);
      }
      if insertMessage.rowState == NotRead {
        insertMessage.rowState := Reading;
        enumerator.Reset(numColumns);
      }
      r := enumerator.DrainColumns();
    }
  }
}
