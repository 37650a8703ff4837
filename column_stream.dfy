/**
 * `NpgsqlReadBuffer.ColumnStream`: a read-only stream over one column value,
 * a window of `CurrentLength` bytes starting at `_start` in the shared read
 * buffer, optionally seekable. Disposing it skips whatever is left unread.
 */
module ColumnStreams {
  import opened Wrappers
  import opened Wire
  import opened ReadBuffers

  datatype SeekOrigin = Begin | Current | End | InvalidOrigin

  const IntMax: int := 0x7FFF_FFFF

  /** `ValidateArguments` for `Read(byte[], offset, count)`; `None` is a null array. */
  function ValidateArguments(bufferLength: Option<nat>, offset: int, count: int): (r: Result<Unit>)
    ensures r.Ok? <==> bufferLength.Some? && 0 <= offset && 0 <= count && offset + count <= bufferLength.value
    ensures bufferLength.None? ==> r == Err(ArgumentNull)
    ensures bufferLength.Some? && (offset < 0 || count < 0) ==> r == Err(ArgumentOutOfRange)
    ensures bufferLength.Some? && 0 <= offset && 0 <= count && offset + count > bufferLength.value ==> r == Err(Argument)
  {
    if bufferLength.None? then Err(ArgumentNull)
    else if offset < 0 then Err(ArgumentOutOfRange)
    else if count < 0 then Err(ArgumentOutOfRange)
    else if bufferLength.value - offset < count then Err(Argument)
    else Ok(Unit)
  }

  /**
   * The (buffer position, stream position) a seek lands on, from the stream's start,
   * length and the buffer's current position. Positions are 32-bit and wrap; a wrapped
   * target falls below the start and is rejected like any target before the start.
   */
  function SeekTarget(start: int, length: int, bufferPosition: int, offset: int, origin: SeekOrigin, readSoFar: int)
    : (r: Result<(int, int)>)
    requires offset <= IntMax
    ensures r.Ok? ==> r.value.0 >= start
  {
    match origin
    case Begin =>
      var temp := Wrap32(start + Wrap32(offset));
      if offset < 0 || temp < start then Err(IOError) else Ok((temp, Wrap32(offset)))
    case Current =>
      var temp := Wrap32(bufferPosition + Wrap32(offset));
      if bufferPosition + offset < start || temp < start then Err(IOError)
      else Ok((temp, Wrap32(readSoFar + Wrap32(offset))))
    case End =>
      var temp := Wrap32(start + length + Wrap32(offset));
      if start + length + offset < start || temp < start then Err(IOError)
      else Ok((temp, Wrap32(length + Wrap32(offset))))
    case InvalidOrigin => Err(ArgumentOutOfRange)
  }

  /**
   * While the buffer position is `start + position` and everything is in 32-bit range,
   * a successful seek keeps that relation, lands at or after the start, and
   * Begin/Current/End land on offset, position + offset and length + offset.
   * Nothing bounds the target from above.
   */
  lemma SeekKeepsWindow(start: int, length: int, position: int, offset: int, origin: SeekOrigin)
    requires 0 <= start && IsInt32(start + position) && 0 <= position && 0 <= length && IsInt32(start + length)
    requires offset <= IntMax
    requires SeekTarget(start, length, start + position, offset, origin, position).Ok?
    ensures var (p, read) := SeekTarget(start, length, start + position, offset, origin, position).value;
            p == start + read && read >= 0
            && (origin == Begin ==> read == offset)
            && (origin == Current ==> read == position + offset)
            && (origin == End ==> read == length + offset)
  {
  }

  /** Nothing bounds a seek from above: from the end, any offset up to the 32-bit limit is accepted. */
  lemma SeekPastEndAccepted(start: nat, length: nat, position: nat, offset: nat)
    requires start + length + offset <= IntMax && start + position <= IntMax
    ensures SeekTarget(start, length, start + position, offset, End, position) == Ok((start + length + offset, length + offset))
  {
  }

  /** The number of bytes `Read(Span)` asks the buffer for, as written: negative past the end. */
  function ReadCountAsWritten(spanLength: nat, length: int, position: int): (r: Result<nat>)
    ensures r.Err? <==> position > length
    ensures r.Err? ==> r.error == ArgumentOutOfRange
    ensures r.Ok? ==> r.value <= spanLength && r.value <= (if length > position then length - position else 0)
  {
    var count := Min(spanLength, length - position);
    if count == 0 then Ok(0)
    else if count < 0 then Err(ArgumentOutOfRange)   // Span.Slice(0, count) with count < 0
    else Ok(count)
  }

  /** After a seek beyond the end, `Read` fails instead of reporting the end of the stream. */
  lemma ReadAfterSeekPastEndThrows()
    ensures SeekTarget(0, 2, 0, 1, End, 0) == Ok((3, 3))
    ensures ReadCountAsWritten(4, 2, 3) == Err(ArgumentOutOfRange)
  {
  }

  /** The count `Read` evidently intends: at or past the end there is nothing to read. */
  function ReadCount(spanLength: nat, length: int, position: int): (r: nat)
    ensures r <= spanLength
    ensures position >= length ==> r == 0
    ensures position < length ==> r == Min(spanLength, length - position)
  {
    var count := Min(spanLength, length - position);
    if count <= 0 then 0 else count
  }

  /** The corrected count agrees with the code wherever the code does not throw. */
  lemma ReadCountAgrees(spanLength: nat, length: int, position: int)
    ensures ReadCountAsWritten(spanLength, length, position).Ok? ==>
              ReadCountAsWritten(spanLength, length, position).value == ReadCount(spanLength, length, position)
    ensures ReadCountAsWritten(spanLength, length, position).Err? <==> position > length
  {
  }

  class ColumnStream {
    const buf: ReadBuffer
    const commandScoped: bool
    var start: nat
    var position: int
    var canSeek: bool
    var currentLength: int
    var isDisposed: bool

    /** A new stream is disposed until `Init`. */
    constructor (buf: ReadBuffer, commandScoped: bool)
      ensures this.buf == buf && this.commandScoped == commandScoped && isDisposed
    {
      this.buf := buf;
      this.commandScoped := commandScoped;
      start := 0;
      position := 0;
      canSeek := false;
      currentLength := 0;
      isDisposed := true;
    }

    method Init(len: int, canSeek: bool)
      modifies this
      ensures start == buf.readPosition && currentLength == len && position == 0
      ensures this.canSeek == canSeek && !isDisposed
    {
      start := buf.readPosition;
      currentLength := len;
      position := 0;
      this.canSeek := canSeek;
      isDisposed := false;
    }

    function CheckDisposed(): (r: Result<Unit>)
      reads this
      ensures r.Err? <==> isDisposed
      ensures r.Err? ==> r.error == ObjectDisposed
    {
      if isDisposed then Err(ObjectDisposed) else Ok(Unit)
    }

    function Length(): (r: Result<int>)
      reads this
      ensures r.Err? <==> isDisposed
      ensures r.Err? ==> r.error == ObjectDisposed
      ensures r.Ok? ==> r.value == currentLength
    {
      if isDisposed then Err(ObjectDisposed) else Ok(currentLength)
    }

    function Position(): (r: Result<int>)
      reads this
      ensures r.Err? <==> isDisposed
      ensures r.Err? ==> r.error == ObjectDisposed
      ensures r.Ok? ==> r.value == position
    {
      if isDisposed then Err(ObjectDisposed) else Ok(position)
    }

    function Flush(): (r: Result<Unit>)
      reads this
      ensures r.Err? <==> isDisposed
    {
      CheckDisposed()
    }

    function CanWrite(): bool { false }

    function SetLength(value: int): (r: Result<Unit>)
      ensures r == Err(NotSupported)
    {
      Err(NotSupported)
    }

    function Write(bytes: seq<byte>): (r: Result<Unit>)
      ensures r == Err(NotSupported)
    {
      Err(NotSupported)
    }

    method Seek(offset: int, origin: SeekOrigin) returns (r: Result<int>)
      modifies this`position, buf`readPosition
      ensures old(isDisposed) ==> r == Err(ObjectDisposed)
      ensures !old(isDisposed) && !canSeek ==> r == Err(NotSupported)
      ensures !old(isDisposed) && canSeek && offset > IntMax ==> r == Err(ArgumentOutOfRange)
      ensures !old(isDisposed) && canSeek && offset <= IntMax ==>
                var t := SeekTarget(start, currentLength, old(buf.readPosition), offset, origin, old(position));
                (t.Err? ==> r == Err(t.error) && position == old(position) && buf.readPosition == old(buf.readPosition))
                && (t.Ok? ==> r == Ok(t.value.1) && buf.readPosition == t.value.0 && position == t.value.1)
      ensures r.Err? ==> position == old(position) && buf.readPosition == old(buf.readPosition)
    {
      if isDisposed {
        return Err(ObjectDisposed);
      }
      if !canSeek {
        return Err(NotSupported);
      }
      if offset > IntMax {
        return Err(ArgumentOutOfRange);
      }
      var t := SeekTarget(start, currentLength, buf.readPosition, offset, origin, position);
      if t.Err? {
        return Err(t.error);
      }
      buf.readPosition := t.value.0;
      position := t.value.1;
      return Ok(position);
    }

    /** `Position` setter: negatives are rejected, anything else is a seek from the beginning. */
    method SetPosition(value: int) returns (r: Result<int>)
      modifies this`position, buf`readPosition
      ensures value < 0 ==> r == Err(ArgumentOutOfRange)
      ensures r.Err? ==> position == old(position) && buf.readPosition == old(buf.readPosition)
      ensures r.Ok? ==> position == value && buf.readPosition == start + value && r.value == value
    {
      if value < 0 {
        return Err(ArgumentOutOfRange);
      }
      r := Seek(value, Begin);
    }

    /**
     * `Read(Span)`: at most `min(request, length - position)` bytes, position advanced by
     * the bytes actually read; at or past the end nothing is read.
     */
    method Read(spanLength: nat) returns (r: Result<seq<byte>>)
      modifies this`position, buf`readPosition
      ensures old(isDisposed) <==> r == Err(ObjectDisposed)
      ensures r.Ok? ==> |r.value| <= ReadCount(spanLength, currentLength, old(position))
      ensures r.Ok? && ReadCount(spanLength, currentLength, old(position)) == 0 ==>
                r.value == [] && buf.readPosition == old(buf.readPosition)
      ensures r.Ok? ==> position == old(position) + |r.value| && buf.readPosition == old(buf.readPosition) + |r.value|
      ensures r.Ok? && |r.value| > 0 ==>
                buf.readPosition <= |buf.data| && r.value == buf.data[old(buf.readPosition)..buf.readPosition]
      ensures r.Ok? && old(buf.ReadBytesLeft()) >= ReadCount(spanLength, currentLength, old(position)) ==>
                |r.value| == ReadCount(spanLength, currentLength, old(position))
      ensures r.Err? ==> position == old(position) && buf.readPosition == old(buf.readPosition)
    {
      if isDisposed {
        return Err(ObjectDisposed);
      }
      var count := ReadCount(spanLength, currentLength, position);
      if count == 0 {
        return Ok([]);
      }
      var bytes := buf.Read(count);
      position := position + |bytes|;
      return Ok(bytes);
    }

    /** `Read(byte[], offset, count)`: the arguments are validated before anything is read. */
    method ReadInto(bufferLength: Option<nat>, offset: int, count: int) returns (r: Result<seq<byte>>)
      modifies this`position, buf`readPosition
      ensures ValidateArguments(bufferLength, offset, count).Err? ==>
                r == Err(ValidateArguments(bufferLength, offset, count).error)
                && position == old(position) && buf.readPosition == old(buf.readPosition)
      ensures ValidateArguments(bufferLength, offset, count).Ok? ==>
                var n := ReadCount(count, currentLength, old(position));
                && (old(isDisposed) <==> r == Err(ObjectDisposed))
                && (r.Ok? ==> |r.value| <= n && |r.value| <= count)
                && (r.Ok? ==> position == old(position) + |r.value| && buf.readPosition == old(buf.readPosition) + |r.value|)
                && (r.Ok? && |r.value| > 0 ==>
                      buf.readPosition <= |buf.data| && r.value == buf.data[old(buf.readPosition)..buf.readPosition])
                && (r.Ok? && old(buf.ReadBytesLeft()) >= n ==> |r.value| == n)
                && (r.Err? ==> position == old(position) && buf.readPosition == old(buf.readPosition))
    {
      var v := ValidateArguments(bufferLength, offset, count);
      if v.Err? {
        return Err(v.error);
      }
      r := Read(count);
    }

    /** `ReadByte`: the next byte, or -1 at the end. */
    method ReadByte() returns (r: Result<int>)
      modifies this`position, buf`readPosition
      ensures old(isDisposed) <==> r == Err(ObjectDisposed)
      ensures r.Ok? && r.value != -1 ==>
                position == old(position) + 1 && old(buf.readPosition) < |buf.data| && r.value == buf.data[old(buf.readPosition)]
      ensures r.Ok? && r.value == -1 ==> position == old(position)
      ensures r.Ok? && old(position) < currentLength && old(buf.ReadBytesLeft()) > 0 ==> r.value != -1
    {
      var bytes := Read(1);
      if bytes.Err? {
        return Err(bytes.error);
      }
      return if |bytes.value| > 0 then Ok(bytes.value[0]) else Ok(-1);
    }

    /**
     * `DisposeAsync(disposing)`: idempotent; the first dispose skips the unread rest of
     * the column unless the connector is broken.
     */
    method Dispose(disposing: bool, connectorBroken: bool) returns (r: Result<Unit>)
      modifies this`isDisposed, buf`readPosition
      ensures old(isDisposed) || !disposing ==> r.Ok? && isDisposed == old(isDisposed) && buf.readPosition == old(buf.readPosition)
      ensures !old(isDisposed) && disposing && (connectorBroken || currentLength - position <= 0) ==>
                r.Ok? && isDisposed && buf.readPosition == old(buf.readPosition)
      ensures !old(isDisposed) && disposing && !connectorBroken && currentLength - position > 0 ==>
                var left := currentLength - position;
                if old(buf.readPosition) + left <= |buf.data| then
                  r.Ok? && isDisposed && buf.readPosition == old(buf.readPosition) + left
                else
                  r == Err(EndOfData) && !isDisposed && buf.readPosition == old(buf.readPosition)
    {
      if isDisposed || !disposing {
        return Ok(Unit);
      }
      if !connectorBroken {
        var leftToSkip := currentLength - position;
        if leftToSkip > 0 {
          r := buf.Skip(leftToSkip);
          if r.Err? {
            return r;
          }
        }
      }
      isDisposed := true;
      return Ok(Unit);
    }
  }
}
