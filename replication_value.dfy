/**
 * `ReplicationValue`: one column of a replicated row as the tuple enumerator hands
 * it out, reading its payload from the connector's buffer.
 */
module ReplicationValues {
  import opened Wrappers
  import opened Wire
  import opened ReadBuffers

  /** What a typed read asks for, as far as null handling goes: `Nullable<T>`, `object`, or another type. */
  datatype Target = NullableTarget | ObjectTarget | OtherTarget

  datatype FieldValue<V> = DefaultValue | DBNullValue | Value(v: V)

  /** The type handler's read of a column's bytes: a value, or a failure after consuming some of them. */
  datatype Decoding<V> = Decoded(v: V) | Failed(consumed: nat, error: Error)

  /**
   * A null column read as `T`: `default` when `T` is a `Nullable<T>`, `DBNull` when it is
   * `object`, and `InvalidCastException` for any other type.
   */
  function NullAs<V>(target: Target): (r: Result<FieldValue<V>>)
    ensures r.Ok? <==> target != OtherTarget
    ensures r.Err? ==> r.error == InvalidCast
    ensures r.Ok? ==> (r.value.DefaultValue? <==> target == NullableTarget)
                      && (r.value.DBNullValue? <==> target == ObjectTarget)
  {
    match target
    case NullableTarget => Ok(DefaultValue)
    case ObjectTarget => Ok(DBNullValue)
    case OtherTarget => Err(InvalidCast)
  }

  /** How many bytes `Consume` skips: what is left of a positive length. */
  function Unread(length: int, bytePos: nat): (n: nat)
    ensures n > 0 <==> bytePos < length
    ensures bytePos < length ==> bytePos + n == length
  {
    if bytePos < length then length - bytePos else 0
  }

  class ReplicationValue {
    const readBuffer: ReadBuffer
    var length: int
    var bytePos: nat

    constructor (readBuffer: ReadBuffer)
      ensures this.readBuffer == readBuffer && length == 0 && bytePos == 0
    {
      this.readBuffer := readBuffer;
      length := 0;
      bytePos := 0;
    }

    /** `Reset`: a new column, nothing of it read yet. */
    method Reset(length: int)
      modifies this`length, this`bytePos
      ensures this.length == length && bytePos == 0
    {
      this.length := length;
      bytePos := 0;
    }

    /** `IsDBNull`: the enumerator gives a null column the length -1. */
    function IsDBNull(): (b: bool)
      reads this
      ensures b <==> length == -1
      ensures b ==> Unread(length, bytePos) == 0 && !IsUnchangedToastedValue()
    {
      length == -1
    }

    /** `IsUnchangedToastedValue`: the enumerator gives an unchanged TOASTed column the length -2. */
    function IsUnchangedToastedValue(): (b: bool)
      reads this
      ensures b <==> length == -2
      ensures b ==> Unread(length, bytePos) == 0
    {
      length == -2
    }

    /**
     * `GetAsync<T>`: a column can be read once. Null reads as `NullAs(target)`, an
     * unchanged TOASTed value cannot be read, and otherwise the handler decodes the
     * `Length` bytes, which then count as read. A handler failure propagates with the
     * bytes it consumed gone from the buffer.
     */
    method GetAsync<V>(target: Target, decode: seq<byte> -> Decoding<V>) returns (r: Result<FieldValue<V>>)
      modifies this`bytePos, readBuffer`readPosition
      ensures old(bytePos) > 0 ==>
                r == Err(NotSupported) && bytePos == old(bytePos) && readBuffer.readPosition == old(readBuffer.readPosition)
      ensures old(bytePos) == 0 && length == -1 ==>
                r == NullAs(target) && bytePos == 0 && readBuffer.readPosition == old(readBuffer.readPosition)
      ensures old(bytePos) == 0 && length == -2 ==>
                r == Err(InvalidCast) && bytePos == 0 && readBuffer.readPosition == old(readBuffer.readPosition)
      ensures old(bytePos) == 0 && length < -2 ==>
                r == Err(ArgumentOutOfRange) && bytePos == 0 && readBuffer.readPosition == old(readBuffer.readPosition)
      ensures old(bytePos) == 0 && length >= 0 && old(readBuffer.readPosition) + length > |readBuffer.data| ==>
                r == Err(EndOfData) && bytePos == 0 && readBuffer.readPosition == old(readBuffer.readPosition)
      ensures old(bytePos) == 0 && length >= 0 && old(readBuffer.readPosition) + length <= |readBuffer.data| ==>
                var p := old(readBuffer.readPosition);
                match decode(readBuffer.data[p..p + length])
                case Decoded(v) =>
                  r == Ok(Value(v)) && bytePos == length && readBuffer.readPosition == p + length
                case Failed(n, e) =>
                  r == Err(e) && bytePos == 0 && readBuffer.readPosition == p + Min(n, length)
    {
      if bytePos > 0 {
        return Err(NotSupported);
      }
      if length == -1 {
        return NullAs(target);
      }
      if length == -2 {
        return Err(InvalidCast);
      }
      if length < 0 {
        return Err(ArgumentOutOfRange);
      }
      var p := readBuffer.readPosition;
      if p + length > |readBuffer.data| {
        return Err(EndOfData);
      }
      match decode(readBuffer.data[p..p + length]) {
        case Decoded(v) =>
          readBuffer.readPosition := p + length;
          bytePos := bytePos + length;
          return Ok(Value(v));
        case Failed(n, e) =>
          readBuffer.readPosition := p + Min(n, length);
          return Err(e);
      }
    }

    /**
     * `Consume`, as written: skips what is left of the payload but does not record it,
     * so a second call skips the same number of bytes again.
     */
    method Consume() returns (r: Result<Unit>)
      modifies readBuffer`readPosition
      ensures r.Ok? <==> Unread(length, bytePos) == 0 || old(readBuffer.readPosition) + Unread(length, bytePos) <= |readBuffer.data|
      ensures r.Ok? ==> readBuffer.readPosition == old(readBuffer.readPosition) + Unread(length, bytePos)
      ensures r.Err? ==> r.error == EndOfData && readBuffer.readPosition == old(readBuffer.readPosition)
    {
      r := Ok(Unit);
      if bytePos < length {
        r := readBuffer.Skip(length - bytePos);
      }
    }

    /** `Consume` with the skipped payload recorded as read, so that it is skipped once. */
    method ConsumeRest() returns (r: Result<Unit>)
      modifies readBuffer`readPosition, this`bytePos
      ensures r.Ok? <==> Unread(length, old(bytePos)) == 0
                         || old(readBuffer.readPosition) + Unread(length, old(bytePos)) <= |readBuffer.data|
      ensures r.Ok? ==> readBuffer.readPosition == old(readBuffer.readPosition) + Unread(length, old(bytePos))
                        && bytePos == old(bytePos) + Unread(length, old(bytePos))
                        && Unread(length, bytePos) == 0
      ensures r.Err? ==> r.error == EndOfData && readBuffer.readPosition == old(readBuffer.readPosition)
                         && bytePos == old(bytePos)
    {
      r := Ok(Unit);
      if bytePos < length {
        r := readBuffer.Skip(length - bytePos);
        if r.Ok? {
          bytePos := length;
        }
      }
    }
  }
}
