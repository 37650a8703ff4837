/**
 * The connector's read buffer as the column stream and the replication reader
 * see it: the bytes of the current message and a read position. Reading past
 * the last byte is `EndOfData` (the driver would wait for more network data).
 */
module ReadBuffers {
  import opened Wrappers
  import opened Wire

  function Min(a: int, b: int): int { if a <= b then a else b }

  class ReadBuffer {
    const data: seq<byte>
    var readPosition: nat

    constructor (data: seq<byte>)
      ensures this.data == data && readPosition == 0
    {
      this.data := data;
      readPosition := 0;
    }

    function ReadBytesLeft(): int
      reads this
    {
      |data| - readPosition
    }

    /** Copies up to `count` bytes: fewer only when the message ends first. */
    method Read(count: nat) returns (bytes: seq<byte>)
      modifies this`readPosition
      ensures |bytes| == if old(ReadBytesLeft()) <= 0 then 0 else Min(count, old(ReadBytesLeft()))
      ensures |bytes| > 0 ==> bytes == data[old(readPosition)..old(readPosition) + |bytes|]
      ensures readPosition == old(readPosition) + |bytes|
    {
      if ReadBytesLeft() <= 0 {
        return [];
      }
      var n := Min(count, ReadBytesLeft());
      bytes := data[readPosition..readPosition + n];
      readPosition := readPosition + n;
    }

    method Skip(count: nat) returns (r: Result<Unit>)
      modifies this`readPosition
      ensures r.Ok? <==> old(readPosition) + count <= |data|
      ensures r.Err? ==> r.error == EndOfData && readPosition == old(readPosition)
      ensures r.Ok? ==> r == Ok(Unit) && readPosition == old(readPosition) + count
    {
      if readPosition + count > |data| {
        return Err(EndOfData);
      }
      readPosition := readPosition + count;
      return Ok(Unit);
    }

    method ReadByte() returns (r: Result<byte>)
      modifies this`readPosition
      ensures r.Ok? <==> old(readPosition) < |data|
      ensures r.Ok? ==> r.value == data[old(readPosition)] && readPosition == old(readPosition) + 1
      ensures r.Err? ==> r.error == EndOfData && readPosition == old(readPosition)
    {
      if readPosition >= |data| {
        return Err(EndOfData);
      }
      r := Ok(data[readPosition]);
      readPosition := readPosition + 1;
    }

    method ReadInt32() returns (r: Result<int>)
      modifies this`readPosition
      ensures r == ReadInt32At(data, old(readPosition))
      ensures r.Ok? ==> readPosition == old(readPosition) + 4
      ensures r.Err? ==> readPosition == old(readPosition)
    {
      r := ReadInt32At(data, readPosition);
      if r.Ok? {
        readPosition := readPosition + 4;
      }
    }
  }
}
