/**
 * `PgWriter`: the flush-mode rules and the buffer decisions a converter asks
 * for while writing. The underlying write buffer is a capacity, the bytes
 * still pending in it, and the bytes already flushed to the server.
 */
module PgWriters {
  import opened Wrappers
  import opened Wire
  import opened Sizes

  datatype FlushMode = NoFlush | Blocking | NonBlocking

  class PgWriter {
    var flushSuppressed: bool
    var storedMode: FlushMode
    /** `Current.Size`: the size recorded for the value being written. */
    var currentSize: Size
    var bufferSize: Option<int>
    var remaining: Option<int>
    const capacity: nat
    var pending: seq<byte>
    var sent: seq<byte>

    ghost predicate Valid()
      reads this
    {
      |pending| <= capacity
    }

    /** Everything written so far, flushed or not. */
    function Output(): seq<byte>
      reads this
    {
      sent + pending
    }

    function WriteSpaceLeft(): int
      reads this
    {
      capacity - |pending|
    }

    constructor (capacity: nat)
      ensures Valid() && this.capacity == capacity
      ensures pending == [] && sent == []
      ensures storedMode == NoFlush && !flushSuppressed
      ensures currentSize == UnknownSize && bufferSize == None && remaining == None
    {
      this.capacity := capacity;
      pending := [];
      sent := [];
      storedMode := NoFlush;
      flushSuppressed := false;
      currentSize := UnknownSize;
      bufferSize := None;
      remaining := None;
    }

    /** `FlushMode`: None while flushes are suppressed, the stored mode otherwise. */
    function Mode(): (m: FlushMode)
      reads this
      ensures flushSuppressed ==> m == NoFlush
      ensures !flushSuppressed ==> m == storedMode
    {
      if flushSuppressed then NoFlush else storedMode
    }

    method Initialize(mode: FlushMode)
      modifies this`storedMode
      ensures storedMode == mode
    {
      storedMode := mode;
    }

    method Reset()
      modifies this`storedMode
      ensures storedMode == NoFlush
    {
      storedMode := NoFlush;
    }

    method SuppressFlushes()
      modifies this`flushSuppressed
      ensures flushSuppressed && Mode() == NoFlush
    {
      flushSuppressed := true;
    }

    method RestoreFlushes()
      modifies this`flushSuppressed
      ensures !flushSuppressed && Mode() == storedMode
    {
      flushSuppressed := false;
    }

    /**
     * `ShouldFlush`: the requirement's count, or the current value's size when the
     * requirement is Unknown; more than `BufferSize` can never fit. Comparisons with a
     * null `BufferSize` or `Remaining` are false, as C#'s lifted comparisons are.
     */
    function ShouldFlush(requirement: Size): (r: Result<bool>)
      reads this
      ensures r == Err(InvalidOperation) <==> !Measured(requirement).IsKnown()
      ensures r == Err(ArgumentOutOfRange) <==>
                Measured(requirement).IsKnown() && bufferSize.Some?
                && Measured(requirement).byteCount > bufferSize.value
      ensures r.Ok? ==> r.value == (remaining.Some? && remaining.value < Measured(requirement).byteCount)
    {
      var count := if requirement.kind == Unknown then currentSize.Value() else requirement.Value();
      if count.Err? then Err(count.error)
      else if bufferSize.Some? && count.value > bufferSize.value then Err(ArgumentOutOfRange)
      else Ok(remaining.Some? && remaining.value < count.value)
    }

    /** The size `ShouldFlush` measures: the requirement, or the current size when the requirement is Unknown. */
    function Measured(requirement: Size): Size
      reads this
    {
      if requirement.kind == Unknown then currentSize else requirement
    }

    /**
     * `CanWriteBuffered`: an Unknown current size can always be written buffered without
     * a flush; otherwise a flush is needed when less than the size remains, and the value
     * fits when the buffer is at least that large.
     */
    function CanWriteBuffered(): (r: (bool, bool))
      reads this
      ensures currentSize.kind == Unknown ==> r == (true, false)
      ensures currentSize.IsKnown() ==>
                (r.0 <==> bufferSize.Some? && bufferSize.value >= currentSize.byteCount)
      ensures currentSize.IsKnown() ==>
                (r.1 <==> remaining.Some? && remaining.value < currentSize.byteCount)
    {
      if currentSize.kind == Unknown then (true, false)
      else
        (bufferSize.Some? && bufferSize.value >= currentSize.byteCount,
         remaining.Some? && remaining.value < currentSize.byteCount)
    }

    /** Hands the pending bytes to the server; the written byte stream is unchanged. */
    method FlushBuffer()
      requires Valid()
      modifies this`pending, this`sent
      ensures Valid() && pending == [] && Output() == old(Output())
    {
      sent := sent + pending;
      pending := [];
    }

    /** `Ensure`: flushes exactly when the free space is below `count`. */
    method Ensure(count: int) returns (flushed: bool)
      requires Valid()
      modifies this`pending, this`sent
      ensures Valid() && Output() == old(Output())
      ensures flushed <==> old(WriteSpaceLeft()) < count
      ensures flushed ==> pending == []
      ensures !flushed ==> pending == old(pending) && sent == old(sent)
    {
      if WriteSpaceLeft() >= count {
        return false;
      }
      FlushBuffer();
      return true;
    }

    /** `Flush`: a no-op without a mode, unsupported on a non-blocking writer. */
    method Flush() returns (r: Result<Unit>)
      requires Valid()
      ensures r.Err? <==> old(Mode()) == NonBlocking
      ensures r.Err? ==> r.error == NotSupported
    {
      if Mode() == NoFlush {
        return Ok(Unit);
      }
      if Mode() == NonBlocking {
        return Err(NotSupported);
      }
      return Ok(Unit);
    }

    /** `FlushAsync`: a no-op without a mode, unsupported on a blocking writer, else a buffer flush. */
    method FlushAsync() returns (r: Result<Unit>)
      requires Valid()
      modifies this`pending, this`sent
      ensures Valid() && Output() == old(Output())
      ensures r.Err? <==> old(Mode()) == Blocking
      ensures r.Err? ==> r.error == NotSupported
      ensures old(Mode()) == NonBlocking ==> pending == []
      ensures old(Mode()) != NonBlocking ==> pending == old(pending) && sent == old(sent)
    {
      if Mode() == NoFlush {
        return Ok(Unit);
      }
      if Mode() == Blocking {
        return Err(NotSupported);
      }
      FlushBuffer();
      return Ok(Unit);
    }

    method WriteByte(b: byte)
      requires Valid() && WriteSpaceLeft() >= 1
      modifies this`pending
      ensures Valid() && Output() == old(Output()) + [b]
    {
      pending := pending + [b];
    }

    /**
     * Writes a payload of any length, flushing the buffer whenever it is full, so the
     * written byte stream grows by exactly `bytes`.
     */
    method WriteBytes(bytes: seq<byte>)
      requires Valid() && capacity > 0
      modifies this`pending, this`sent
      ensures Valid() && Output() == old(Output()) + bytes
    {
      var i := 0;
      while i < |bytes|
        invariant 0 <= i <= |bytes|
        invariant Valid()
        invariant Output() == old(Output()) + bytes[..i]
        decreases |bytes| - i
      {
        if WriteSpaceLeft() == 0 {
          FlushBuffer();
        }
        var n := if WriteSpaceLeft() <= |bytes| - i then WriteSpaceLeft() else |bytes| - i;
        ghost var before := Output();
        pending := pending + bytes[i..i + n];
        assert Output() == before + bytes[i..i + n];
        assert bytes[..i + n] == bytes[..i] + bytes[i..i + n];
        i := i + n;
      }
      assert bytes[..i] == bytes;
    }

    /** An Int32 length after flushing if it does not fit, then a payload of any length. */
    method WriteLengthPrefixed(length: int, payload: seq<byte>)
      requires Valid() && IsInt32(length) && capacity >= 4
      modifies this`pending, this`sent
      ensures Valid() && Output() == old(Output()) + Int32Bytes(length) + payload
    {
      var _ := Ensure(4);
      WriteInt32(length);
      WriteBytes(payload);
    }

    method WriteInt32(n: int)
      requires Valid() && IsInt32(n) && WriteSpaceLeft() >= 4
      modifies this`pending
      ensures Valid() && Output() == old(Output()) + Int32Bytes(n)
    {
      pending := pending + Int32Bytes(n);
    }
  }
}
