/**
 * `HstoreConverter<T>`: the binary layout of the hstore extension's `hstore_send`/
 * `hstore_recv` (an Int32 pair count, then for each pair an Int32 key length and the key,
 * an Int32 value length, -1 for null, and the value), written in two passes.
 */
module Hstore {
  import opened Wrappers
  import opened Wire
  import opened Sizes
  import opened PgWriters
  import opened ReadBuffers

  /** The text encoding: `GetBytes`/`GetByteCount` and `GetString`. */
  datatype Encoding = Encoding(encode: string -> seq<byte>, decode: seq<byte> -> string)

  ghost predicate Coherent(enc: Encoding)
  {
    forall s: string {:trigger enc.encode(s)} :: |enc.encode(s)| < TwoTo31 && enc.decode(enc.encode(s)) == s
  }

  /** One dictionary entry as the enumeration yields it; an `IDictionary` may hold a null key. */
  datatype Entry = Entry(key: Option<string>, value: Option<string>)

  /** The write state: the hstore `WriteState` with its size slots, none, or some other converter's state. */
  datatype WriteState = NoState | HstoreState(data: seq<Size>) | OtherState

  /** A null string's span is empty. */
  function EncodeOpt(enc: Encoding, s: Option<string>): seq<byte>
  {
    if s.Some? then enc.encode(s.value) else []
  }

  predicate AllKeysPresent(entries: seq<Entry>)
  {
    forall i | 0 <= i < |entries| :: entries[i].key.Some?
  }

  /** The value's byte count, -1 for null. */
  function ValueSize(enc: Encoding, e: Entry): int
  {
    if e.value.None? then -1 else |enc.encode(e.value.value)|
  }

  /** The key and value bytes of one entry, lengths not included. */
  function PayloadSize(enc: Encoding, entries: seq<Entry>): int
  {
    if entries == [] then 0
    else
      var e := entries[|entries| - 1];
      PayloadSize(enc, entries[..|entries| - 1]) + |EncodeOpt(enc, e.key)| + (if e.value.None? then 0 else ValueSize(enc, e))
  }

  /** The size slots `GetSize` records: the key size, then the value size, per entry. */
  function Slots(enc: Encoding, entries: seq<Entry>): (r: seq<Size>)
    ensures |r| == 2 * |entries|
  {
    if entries == [] then []
    else
      var e := entries[|entries| - 1];
      Slots(enc, entries[..|entries| - 1]) + [Create(|EncodeOpt(enc, e.key)|), Create(ValueSize(enc, e))]
  }

  /** Total announced size: the count, two lengths per entry, and the payloads. */
  function TotalSize(enc: Encoding, entries: seq<Entry>): int
  {
    4 + 8 * |entries| + PayloadSize(enc, entries)
  }

  /**
   * `GetSize`: fills the size slots entry by entry, with a running total. A null key is
   * an ArgumentException; an empty dictionary returns the count's size and leaves the
   * incoming write state alone.
   */
  method GetSize(enc: Encoding, entries: seq<Entry>, incoming: WriteState) returns (r: Result<(int, WriteState)>)
    ensures r.Err? <==> !AllKeysPresent(entries)
    ensures r.Err? ==> r.error == Argument
    ensures entries == [] ==> r == Ok((4, incoming))
    ensures r.Ok? && entries != [] ==> r.value == (TotalSize(enc, entries), HstoreState(Slots(enc, entries)))
  {
    var totalSize := 4 + |entries| * 8;
    if |entries| == 0 {
      return Ok((totalSize, incoming));
    }
    var data := new Size[|entries| * 2];
    var i := 0;
    while i < |entries|
      invariant 0 <= i <= |entries|
      invariant AllKeysPresent(entries[..i])
      invariant data[..2 * i] == Slots(enc, entries[..i])
      invariant totalSize == TotalSize(enc, entries[..i]) + 8 * (|entries| - i)
    {
      var kv := entries[i];
      if kv.key.None? {
        assert !AllKeysPresent(entries);
        return Err(Argument);
      }
      var keySize := |enc.encode(kv.key.value)|;
      var valueSize := if kv.value.None? then -1 else |enc.encode(kv.value.value)|;
      totalSize := totalSize + keySize + (if valueSize == -1 then 0 else valueSize);
      data[2 * i] := Create(keySize);
      data[2 * i + 1] := Create(valueSize);
      assert entries[..i + 1][..i] == entries[..i];
      assert data[..2 * (i + 1)] == data[..2 * i] + [data[2 * i], data[2 * i + 1]];
      i := i + 1;
    }
    assert entries[..i] == entries;
    return Ok((totalSize, HstoreState(data[..2 * |entries|])));
  }

  /** The bytes a write emitted, and whether it completed. */
  datatype Emitted = Emitted(bytes: seq<byte>, result: Result<Unit>)

  /**
   * One entry of the write loop from the slots at `2 * i`: the key length and key, then
   * the value length and, unless it is -1, the value's bytes. `keyAsValue` is the
   * synchronous path, which emits the key's bytes in the value's place.
   */
  function EntryBytes(enc: Encoding, e: Entry, data: seq<Size>, i: nat, keyAsValue: bool): Emitted
  {
    if 2 * i >= |data| then Emitted([], Err(IndexOutOfRange))
    else if !data[2 * i].IsKnown() then Emitted([], Err(NotImplemented))
    else
      var keyPart := Int32Bytes(Wrap32(data[2 * i].byteCount)) + EncodeOpt(enc, e.key);
      if 2 * i + 1 >= |data| then Emitted(keyPart, Err(IndexOutOfRange))
      else if !data[2 * i + 1].IsKnown() then Emitted(keyPart, Err(NotImplemented))
      else
        var valueLength := Wrap32(data[2 * i + 1].byteCount);
        var valuePart := Int32Bytes(valueLength)
                         + (if valueLength == -1 then [] else EncodeOpt(enc, if keyAsValue then e.key else e.value));
        Emitted(keyPart + valuePart, Ok(Unit))
  }

  /** The first `n` entries of the write loop, stopping at the first failure. */
  function EntriesBytes(enc: Encoding, entries: seq<Entry>, data: seq<Size>, n: nat, keyAsValue: bool): (r: Emitted)
    requires n <= |entries|
  {
    if n == 0 then Emitted([], Ok(Unit))
    else
      var prev := EntriesBytes(enc, entries, data, n - 1, keyAsValue);
      if prev.result.Err? then prev
      else
        var e := EntryBytes(enc, entries[n - 1], data, n - 1, keyAsValue);
        Emitted(prev.bytes + e.bytes, e.result)
  }

  /** `Write`: the state check, the count, then every entry from its slots. */
  function WriteSpec(enc: Encoding, entries: seq<Entry>, state: WriteState, keyAsValue: bool): (r: Emitted)
    ensures !state.HstoreState? && entries != [] ==> r == Emitted([], Err(InvalidCast))
  {
    if !state.HstoreState? && |entries| != 0 then Emitted([], Err(InvalidCast))
    else
      var head := Int32Bytes(Wrap32(|entries|));
      if |entries| == 0 || !state.HstoreState? then Emitted(head, Ok(Unit))
      else
        var body := EntriesBytes(enc, entries, state.data, |entries|, keyAsValue);
        Emitted(head + body.bytes, body.result)
  }

  /** One entry on the writer: the key length and key, then the value length and the value's (or key's) bytes. */
  method WriteEntry(writer: PgWriter, enc: Encoding, kv: Entry, data: seq<Size>, i: nat, keyAsValue: bool)
    returns (r: Result<Unit>)
    requires writer.Valid() && writer.capacity >= 4
    modifies writer`pending, writer`sent
    ensures writer.Valid()
    ensures r == EntryBytes(enc, kv, data, i, keyAsValue).result
    ensures writer.Output() == old(writer.Output()) + EntryBytes(enc, kv, data, i, keyAsValue).bytes
  {
    if 2 * i >= |data| {
      return Err(IndexOutOfRange);
    }
    if !data[2 * i].IsKnown() {
      return Err(NotImplemented);
    }
    var keyPart := EncodeOpt(enc, kv.key);
    writer.WriteLengthPrefixed(Wrap32(data[2 * i].byteCount), keyPart);
    if 2 * i + 1 >= |data| {
      return Err(IndexOutOfRange);
    }
    if !data[2 * i + 1].IsKnown() {
      return Err(NotImplemented);
    }
    var valueLength := Wrap32(data[2 * i + 1].byteCount);
    var valuePart := if valueLength == -1 then [] else EncodeOpt(enc, if keyAsValue then kv.key else kv.value);
    writer.WriteLengthPrefixed(valueLength, valuePart);
    return Ok(Unit);
  }

  /** The loop shared by both write paths. */
  method WriteEntries(writer: PgWriter, enc: Encoding, entries: seq<Entry>, data: seq<Size>, keyAsValue: bool)
    returns (r: Result<Unit>)
    requires writer.Valid() && writer.capacity >= 4
    modifies writer`pending, writer`sent
    ensures writer.Valid()
    ensures r == EntriesBytes(enc, entries, data, |entries|, keyAsValue).result
    ensures writer.Output() == old(writer.Output()) + EntriesBytes(enc, entries, data, |entries|, keyAsValue).bytes
  {
    var i := 0;
    while i < |entries|
      invariant 0 <= i <= |entries|
      invariant writer.Valid()
      invariant EntriesBytes(enc, entries, data, i, keyAsValue).result.Ok?
      invariant writer.Output() == old(writer.Output()) + EntriesBytes(enc, entries, data, i, keyAsValue).bytes
    {
      ghost var prev := EntriesBytes(enc, entries, data, i, keyAsValue).bytes;
      r := WriteEntry(writer, enc, entries[i], data, i, keyAsValue);
      EntriesStep(enc, entries, data, i, keyAsValue);
      AppendAssoc(old(writer.Output()), prev, EntryBytes(enc, entries[i], data, i, keyAsValue).bytes);
      if r.Err? {
        EntriesStopAt(enc, entries, data, i + 1, |entries|, keyAsValue);
        return;
      }
      i := i + 1;
    }
    return Ok(Unit);
  }

  lemma EntriesStep(enc: Encoding, entries: seq<Entry>, data: seq<Size>, i: nat, keyAsValue: bool)
    requires i < |entries|
    requires EntriesBytes(enc, entries, data, i, keyAsValue).result.Ok?
    ensures var e := EntryBytes(enc, entries[i], data, i, keyAsValue);
            EntriesBytes(enc, entries, data, i + 1, keyAsValue)
            == Emitted(EntriesBytes(enc, entries, data, i, keyAsValue).bytes + e.bytes, e.result)
  {
  }

  /** Once an entry fails, the later entries add nothing. */
  lemma {:induction false} EntriesStopAt(enc: Encoding, entries: seq<Entry>, data: seq<Size>, n: nat, m: nat, keyAsValue: bool)
    requires 0 < n <= m <= |entries|
    requires EntriesBytes(enc, entries, data, n, keyAsValue).result.Err?
    ensures EntriesBytes(enc, entries, data, m, keyAsValue) == EntriesBytes(enc, entries, data, n, keyAsValue)
    decreases m
  {
    if m > n {
      EntriesStopAt(enc, entries, data, n, m - 1, keyAsValue);
    }
  }

  /** `Write` through a `PgWriter`: the state check, the count, then the entry loop. */
  method WriteWith(writer: PgWriter, enc: Encoding, entries: seq<Entry>, state: WriteState, keyAsValue: bool)
    returns (r: Result<Unit>)
    requires writer.Valid() && writer.capacity >= 4
    modifies writer`pending, writer`sent
    ensures writer.Valid()
    ensures r == WriteSpec(enc, entries, state, keyAsValue).result
    ensures writer.Output() == old(writer.Output()) + WriteSpec(enc, entries, state, keyAsValue).bytes
  {
    if !state.HstoreState? && |entries| != 0 {
      return Err(InvalidCast);
    }
    var _ := writer.Ensure(4);
    writer.WriteInt32(Wrap32(|entries|));
    if |entries| == 0 || !state.HstoreState? {
      return Ok(Unit);
    }
    r := WriteEntries(writer, enc, entries, state.data, keyAsValue);
    AppendAssoc(old(writer.Output()), Int32Bytes(Wrap32(|entries|)), EntriesBytes(enc, entries, state.data, |entries|, keyAsValue).bytes);
  }

  /** The asynchronous write path, which emits each value's bytes. */
  method WriteAsync(writer: PgWriter, enc: Encoding, entries: seq<Entry>, state: WriteState) returns (r: Result<Unit>)
    requires writer.Valid() && writer.capacity >= 4
    modifies writer`pending, writer`sent
    ensures writer.Valid()
    ensures r == WriteSpec(enc, entries, state, false).result
    ensures writer.Output() == old(writer.Output()) + WriteSpec(enc, entries, state, false).bytes
  {
    r := WriteWith(writer, enc, entries, state, false);
  }

  /** The synchronous write path as written: it emits each key's bytes where the value belongs. */
  method WriteSync(writer: PgWriter, enc: Encoding, entries: seq<Entry>, state: WriteState) returns (r: Result<Unit>)
    requires writer.Valid() && writer.capacity >= 4
    modifies writer`pending, writer`sent
    ensures writer.Valid()
    ensures r == WriteSpec(enc, entries, state, true).result
    ensures writer.Output() == old(writer.Output()) + WriteSpec(enc, entries, state, true).bytes
  {
    r := WriteWith(writer, enc, entries, state, true);
  }

  /** The dictionary type being read into: the two that `Read` builds, and anything else. */
  datatype TargetKind = DictionaryTarget | IDictionaryTarget | ImmutableDictionaryTarget | OtherTarget

  type Hstore = map<string, Option<string>>

  /**
   * One pair from `pos`: a key and a value (-1 for null), added to `acc` so that a later
   * duplicate key overwrites an earlier one. A length below -1 is an error of the reader.
   */
  function ReadOnePair(enc: Encoding, s: seq<byte>, pos: nat, acc: Hstore): (r: Result<(Hstore, nat)>)
    ensures r.Ok? ==> pos + 8 <= r.value.1 <= |s|
  {
    var keySize :- ReadInt32At(s, pos);
    if keySize < 0 then Err(ArgumentOutOfRange)
    else
      var keyBytes :- ReadBytesAt(s, pos + 4, keySize);
      var key := enc.decode(keyBytes);
      var p := pos + 4 + keySize;
      var valueSize :- ReadInt32At(s, p);
      if valueSize == -1 then Ok((acc[key := None], p + 4))
      else if valueSize < 0 then Err(ArgumentOutOfRange)
      else
        var valueBytes :- ReadBytesAt(s, p + 4, valueSize);
        Ok((acc[key := Some(enc.decode(valueBytes))], p + 4 + valueSize))
  }

  /** `ReadInto` from `pos`: `count` pairs, stopping at the first malformed one. */
  function ReadPairs(enc: Encoding, s: seq<byte>, pos: nat, count: int, acc: Hstore): (r: Result<(Hstore, nat)>)
    decreases if count > 0 then count else 0
  {
    if count <= 0 then Ok((acc, pos))
    else
      var next :- ReadOnePair(enc, s, pos, acc);
      ReadPairs(enc, s, next.1, count - 1, next.0)
  }

  /**
   * `Read`: the count, then the pairs, unless the target type is one `Read` cannot build.
   * A `Dictionary` is created with the count as its capacity, which a negative count
   * refuses; the immutable builder takes no capacity, so there a negative count reads
   * no pairs.
   */
  function Read(enc: Encoding, s: seq<byte>, pos: nat, target: TargetKind): (r: Result<(Hstore, nat)>)
    ensures target == OtherTarget && pos + 4 <= |s| ==> r == Err(NotSupported)
    ensures target in {DictionaryTarget, IDictionaryTarget} && ReadInt32At(s, pos).Ok? && ReadInt32At(s, pos).value < 0 ==>
              r == Err(ArgumentOutOfRange)
    ensures target == ImmutableDictionaryTarget && ReadInt32At(s, pos).Ok? && ReadInt32At(s, pos).value < 0 ==>
              r.Ok? && r.value.0 == map[] && r.value.1 == pos + 4
  {
    var count :- ReadInt32At(s, pos);
    if target == OtherTarget then Err(NotSupported)
    else if target != ImmutableDictionaryTarget && count < 0 then Err(ArgumentOutOfRange)
    else ReadPairs(enc, s, pos + 4, count, map[])
  }

  /** One pair on the `ReadBuffer`. */
  method ReadPair(buf: ReadBuffer, enc: Encoding, acc: Hstore) returns (r: Result<Hstore>)
    modifies buf`readPosition
    ensures var spec := ReadOnePair(enc, buf.data, old(buf.readPosition), acc);
            (r.Ok? <==> spec.Ok?) && (r.Ok? ==> r.value == spec.value.0 && buf.readPosition == spec.value.1)
  {
    var keySize := buf.ReadInt32();
    if keySize.Err? {
      return Err(keySize.error);
    }
    if keySize.value < 0 {
      return Err(ArgumentOutOfRange);
    }
    if buf.ReadBytesLeft() < keySize.value {
      return Err(EndOfData);
    }
    var keyBytes := buf.Read(keySize.value);
    var key := enc.decode(keyBytes);
    var valueSize := buf.ReadInt32();
    if valueSize.Err? {
      return Err(valueSize.error);
    }
    if valueSize.value == -1 {
      return Ok(acc[key := None]);
    }
    if valueSize.value < 0 {
      return Err(ArgumentOutOfRange);
    }
    if buf.ReadBytesLeft() < valueSize.value {
      return Err(EndOfData);
    }
    var valueBytes := buf.Read(valueSize.value);
    return Ok(acc[key := Some(enc.decode(valueBytes))]);
  }

  /** `ReadInto`: the `for` loop adding `count` pairs to the dictionary. */
  method ReadInto(buf: ReadBuffer, enc: Encoding, count: int) returns (r: Result<Hstore>)
    modifies buf`readPosition
    ensures var spec := ReadPairs(enc, buf.data, old(buf.readPosition), count, map[]);
            (r.Ok? <==> spec.Ok?) && (r.Ok? ==> r.value == spec.value.0 && buf.readPosition == spec.value.1)
  {
    // The loop only needs how `ReadPairs` advances; how one pair is parsed stays out of its proof.
    hide ReadOnePair;
    var result: Hstore := map[];
    var i := 0;
    ghost var remaining := count;
    while i < count
      invariant 0 <= i <= if count > 0 then count else 0
      invariant remaining == count - i
      invariant ReadPairs(enc, buf.data, old(buf.readPosition), count, map[])
                == ReadPairs(enc, buf.data, buf.readPosition, remaining, result)
      decreases count - i
    {
      var next := ReadNextPair(buf, enc, result, remaining);
      if next.Err? {
        return Err(next.error);
      }
      result := next.value;
      i, remaining := i + 1, remaining - 1;
    }
    return Ok(result);
  }

  /** One iteration of `ReadInto`'s loop: a pair read, or the error that ends the whole read. */
  method ReadNextPair(buf: ReadBuffer, enc: Encoding, acc: Hstore, ghost remaining: int) returns (r: Result<Hstore>)
    requires remaining > 0
    modifies buf`readPosition
    ensures r.Err? ==> ReadPairs(enc, buf.data, old(buf.readPosition), remaining, acc).Err?
    ensures r.Ok? ==> ReadPairs(enc, buf.data, old(buf.readPosition), remaining, acc)
                      == ReadPairs(enc, buf.data, buf.readPosition, remaining - 1, r.value)
  {
    ghost var p := buf.readPosition;
    r := ReadPair(buf, enc, acc);
    if r.Err? {
      ReadPairsStops(enc, buf.data, p, remaining, acc);
    } else {
      ReadPairsStep(enc, buf.data, p, remaining, acc, r.value, buf.readPosition, remaining - 1);
    }
  }

  /** A pair that cannot be read ends the read with an error. */
  lemma ReadPairsStops(enc: Encoding, s: seq<byte>, pos: nat, count: int, acc: Hstore)
    requires count > 0 && ReadOnePair(enc, s, pos, acc).Err?
    ensures ReadPairs(enc, s, pos, count, acc).Err?
  {
  }

  /** `Read` on a `ReadBuffer`. */
  method ReadFrom(buf: ReadBuffer, enc: Encoding, target: TargetKind) returns (r: Result<Hstore>)
    modifies buf`readPosition
    ensures var spec := Read(enc, buf.data, old(buf.readPosition), target);
            (r.Ok? <==> spec.Ok?) && (r.Ok? ==> r.value == spec.value.0 && buf.readPosition == spec.value.1)
  {
    var count := buf.ReadInt32();
    if count.Err? {
      return Err(count.error);
    }
    if target == OtherTarget {
      return Err(NotSupported);
    }
    if target != ImmutableDictionaryTarget && count.value < 0 {
      return Err(ArgumentOutOfRange);
    }
    r := ReadInto(buf, enc, count.value);
  }

  /** One entry on the wire: key length and key, value length (-1 for null) and value. */
  function EntryWire(enc: Encoding, e: Entry): seq<byte>
    requires Coherent(enc)
  {
    Int32Bytes(|EncodeOpt(enc, e.key)|) + EncodeOpt(enc, e.key)
    + Int32Bytes(ValueSize(enc, e)) + (if e.value.None? then [] else enc.encode(e.value.value))
  }

  function PairsWire(enc: Encoding, entries: seq<Entry>): seq<byte>
    requires Coherent(enc)
  {
    if entries == [] then [] else PairsWire(enc, entries[..|entries| - 1]) + EntryWire(enc, entries[|entries| - 1])
  }

  /** The dictionary the entries describe: added in enumeration order, a later key overwriting an earlier one. */
  function MapFrom(acc: Hstore, entries: seq<Entry>): Hstore
    requires AllKeysPresent(entries)
    decreases |entries|
  {
    if entries == [] then acc else MapFrom(acc[entries[0].key.value := entries[0].value], entries[1..])
  }

  /** The slots `GetSize` records for entry `i` are its key and value sizes. */
  lemma {:induction false} SlotsAt(enc: Encoding, entries: seq<Entry>, i: nat)
    requires i < |entries|
    ensures Slots(enc, entries)[2 * i] == Create(|EncodeOpt(enc, entries[i].key)|)
    ensures Slots(enc, entries)[2 * i + 1] == Create(ValueSize(enc, entries[i]))
    decreases |entries|
  {
    if i < |entries| - 1 {
      var prefix := entries[..|entries| - 1];
      SlotsAt(enc, prefix, i);
      assert prefix[i] == entries[i];
    }
  }

  /** With an entry's slots as `GetSize` records them, the loop body emits its wire form. */
  lemma EntryBytesMeasured(enc: Encoding, e: Entry, data: seq<Size>, i: nat)
    requires Coherent(enc) && 2 * i + 1 < |data|
    requires data[2 * i] == Create(|EncodeOpt(enc, e.key)|)
    requires data[2 * i + 1] == Create(ValueSize(enc, e))
    ensures EntryBytes(enc, e, data, i, false) == Emitted(EntryWire(enc, e), Ok(Unit))
  {
    assert |EncodeOpt(enc, e.key)| < TwoTo31;
    assert e.value.Some? ==> |enc.encode(e.value.value)| < TwoTo31;
  }

  /** With the slots `GetSize` recorded, the value-writing loop emits each entry's wire form. */
  lemma {:induction false} EntriesBytesMeasured(enc: Encoding, entries: seq<Entry>, n: nat)
    requires Coherent(enc) && n <= |entries|
    ensures EntriesBytes(enc, entries, Slots(enc, entries), n, false) == Emitted(PairsWire(enc, entries[..n]), Ok(Unit))
  {
    if n > 0 {
      EntriesBytesMeasured(enc, entries, n - 1);
      SlotsAt(enc, entries, n - 1);
      EntryBytesMeasured(enc, entries[n - 1], Slots(enc, entries), n - 1);
      assert entries[..n][..n - 1] == entries[..n - 1];
    }
  }

  /** The wire form read from the front: the first entry, then the rest. */
  lemma {:induction false} PairsWireFront(enc: Encoding, entries: seq<Entry>)
    requires Coherent(enc) && entries != []
    ensures PairsWire(enc, entries) == EntryWire(enc, entries[0]) + PairsWire(enc, entries[1..])
    decreases |entries|
  {
    if |entries| > 1 {
      var prefix := entries[..|entries| - 1];
      PairsWireFront(enc, prefix);
      assert prefix[0] == entries[0];
      assert prefix[1..] == entries[1..][..|entries[1..]| - 1];
      AppendAssoc(EntryWire(enc, entries[0]), PairsWire(enc, prefix[1..]), EntryWire(enc, entries[|entries| - 1]));
    } else {
      assert entries[..0] == [] && entries[1..] == [];
    }
  }

  /** A pair laid out at `pos` as key length, key bytes, value length and value bytes reads back. */
  lemma PairAt(enc: Encoding, s: seq<byte>, pos: nat, k: seq<byte>, vs: int, vb: seq<byte>, acc: Hstore,
               key: string, value: Option<string>, end: nat)
    requires |k| < TwoTo31 && (vs == -1 || vs == |vb| < TwoTo31) && (vs == -1 ==> vb == [])
    requires pos + 8 + |k| + |vb| <= |s|
    requires s[pos..pos + 4] == Int32Bytes(|k|)
    requires s[pos + 4..pos + 4 + |k|] == k
    requires s[pos + 4 + |k|..pos + 8 + |k|] == Int32Bytes(vs)
    requires s[pos + 8 + |k|..pos + 8 + |k| + |vb|] == vb
    requires key == enc.decode(k) && value == (if vs == -1 then None else Some(enc.decode(vb)))
    requires end == pos + 8 + |k| + |vb|
    ensures ReadOnePair(enc, s, pos, acc) == Ok((acc[key := value], end))
  {
    Int32RoundTrip(|k|);
    Int32RoundTrip(vs);
  }

  /** One entry's wire form, found at `pos`, reads back as that entry added to the dictionary. */
  lemma EntryReadsBack(enc: Encoding, s: seq<byte>, pos: nat, e: Entry, acc: Hstore)
    requires Coherent(enc) && e.key.Some?
    requires pos + |EntryWire(enc, e)| <= |s| && s[pos..pos + |EntryWire(enc, e)|] == EntryWire(enc, e)
    ensures ReadOnePair(enc, s, pos, acc) == Ok((acc[e.key.value := e.value], pos + |EntryWire(enc, e)|))
  {
    var k := enc.encode(e.key.value);
    var vs := ValueSize(enc, e);
    var vb := if e.value.None? then [] else enc.encode(e.value.value);
    EntryParts(enc, e, k, vs, vb);
    FourPartsAt(s, pos, Int32Bytes(|k|), k, Int32Bytes(vs), vb, pos + 4, pos + 4 + |k|, pos + 8 + |k|, pos + 8 + |k| + |vb|);
    PairAt(enc, s, pos, k, vs, vb, acc, e.key.value, e.value, pos + |EntryWire(enc, e)|);
  }

  /** An entry's wire form as its four parts. */
  lemma EntryParts(enc: Encoding, e: Entry, k: seq<byte>, vs: int, vb: seq<byte>)
    requires Coherent(enc) && e.key.Some?
    requires k == enc.encode(e.key.value) && vs == ValueSize(enc, e)
    requires vb == if e.value.None? then [] else enc.encode(e.value.value)
    ensures |k| < TwoTo31 && (vs == -1 || vs == |vb| < TwoTo31) && (vs == -1 ==> vb == [])
    ensures enc.decode(k) == e.key.value && e.value == (if vs == -1 then None else Some(enc.decode(vb)))
    ensures EntryWire(enc, e) == Int32Bytes(|k|) + k + Int32Bytes(vs) + vb
    ensures |EntryWire(enc, e)| == 8 + |k| + |vb|
  {
  }

  /** The wire form of all entries, found at `pos`, reads back as their dictionary. */
  lemma {:induction false} PairsReadBack(enc: Encoding, s: seq<byte>, pos: nat, entries: seq<Entry>, acc: Hstore)
    requires Coherent(enc) && AllKeysPresent(entries)
    requires pos + |PairsWire(enc, entries)| <= |s| && s[pos..pos + |PairsWire(enc, entries)|] == PairsWire(enc, entries)
    ensures var r := ReadPairs(enc, s, pos, |entries|, acc);
            r.Ok? && r.value.0 == MapFrom(acc, entries) && r.value.1 == pos + |PairsWire(enc, entries)|
    decreases |entries|
  {
    if entries != [] {
      var next, acc' := PairsFront(enc, s, pos, entries, acc);
      PairsReadBack(enc, s, next, entries[1..], acc');
      ReadPairsStep(enc, s, pos, |entries|, acc, acc', next, |entries[1..]|);
      assert MapFrom(acc, entries) == MapFrom(acc', entries[1..]);
      assert ReadPairs(enc, s, pos, |entries|, acc) == ReadPairs(enc, s, next, |entries[1..]|, acc');
    }
  }

  /** The first entry read back from the wire form of all of them, and where the rest lies. */
  lemma PairsFront(enc: Encoding, s: seq<byte>, pos: nat, entries: seq<Entry>, acc: Hstore) returns (next: nat, acc': Hstore)
    requires Coherent(enc) && AllKeysPresent(entries) && entries != []
    requires pos + |PairsWire(enc, entries)| <= |s| && s[pos..pos + |PairsWire(enc, entries)|] == PairsWire(enc, entries)
    ensures ReadOnePair(enc, s, pos, acc) == Ok((acc', next))
    ensures acc' == acc[entries[0].key.value := entries[0].value] && AllKeysPresent(entries[1..])
    ensures next + |PairsWire(enc, entries[1..])| == pos + |PairsWire(enc, entries)|
    ensures s[next..next + |PairsWire(enc, entries[1..])|] == PairsWire(enc, entries[1..])
  {
    var e := entries[0];
    var ew := EntryWire(enc, e);
    var tail := PairsWire(enc, entries[1..]);
    next, acc' := pos + |ew|, acc[e.key.value := e.value];
    FrontBytes(enc, s, pos, entries, ew, tail, next);
    EntryReadsBack(enc, s, pos, e, acc);
    assert AllKeysPresent(entries[1..]);
  }

  /** The wire form of the entries, present at `pos`, holds the first entry's and then the rest's. */
  lemma FrontBytes(enc: Encoding, s: seq<byte>, pos: nat, entries: seq<Entry>, ew: seq<byte>, tail: seq<byte>, next: nat)
    requires Coherent(enc) && entries != []
    requires pos + |PairsWire(enc, entries)| <= |s| && s[pos..pos + |PairsWire(enc, entries)|] == PairsWire(enc, entries)
    requires ew == EntryWire(enc, entries[0]) && tail == PairsWire(enc, entries[1..]) && next == pos + |ew|
    ensures next + |tail| == pos + |PairsWire(enc, entries)|
    ensures s[pos..next] == ew && s[next..next + |tail|] == tail
  {
    PairsWireFront(enc, entries);
    assert PairsWire(enc, entries) == ew + tail;
    TwoPartsAt(s, pos, ew, tail, next, next + |tail|);
  }

  /** A pair read at `pos` and the rest read after it. */
  lemma ReadPairsStep(enc: Encoding, s: seq<byte>, pos: nat, count: int, acc: Hstore, acc': Hstore, next: nat, rest: int)
    requires count > 0 && rest == count - 1 && ReadOnePair(enc, s, pos, acc) == Ok((acc', next))
    ensures ReadPairs(enc, s, pos, count, acc) == ReadPairs(enc, s, next, rest, acc')
  {
  }

  /** The count followed by the entries' wire form reads back as their dictionary. */
  lemma WireReadsBack(enc: Encoding, entries: seq<Entry>, rest: seq<byte>)
    requires Coherent(enc) && AllKeysPresent(entries) && |entries| < TwoTo31
    ensures var wire := Int32Bytes(|entries|) + PairsWire(enc, entries);
            var r := Read(enc, wire + rest, 0, DictionaryTarget);
            r.Ok? && r.value.0 == MapFrom(map[], entries) && r.value.1 == |wire|
  {
    var head := Int32Bytes(|entries|);
    var pairs := PairsWire(enc, entries);
    var s := head + pairs + rest;
    assert s[0..4] == head;
    Int32RoundTrip(|entries|);
    assert s[4..4 + |pairs|] == pairs;
    PairsReadBack(enc, s, 4, entries, map[]);
  }

  /**
   * The asynchronous path round-trips: measuring a dictionary with no null key, writing
   * it with the measured state and reading it back gives the dictionary, in exactly the
   * announced number of bytes.
   */
  lemma HstoreRoundTrip(enc: Encoding, entries: seq<Entry>, rest: seq<byte>)
    requires Coherent(enc) && AllKeysPresent(entries) && |entries| < TwoTo31
    ensures var e := WriteSpec(enc, entries, HstoreState(Slots(enc, entries)), false);
            e.result.Ok?
            && (entries != [] ==> |e.bytes| == TotalSize(enc, entries))
            && var r := Read(enc, e.bytes + rest, 0, DictionaryTarget);
               r.Ok? && r.value.0 == MapFrom(map[], entries) && r.value.1 == |e.bytes|
  {
    EntriesBytesMeasured(enc, entries, |entries|);
    assert entries[..|entries|] == entries;
    var e := WriteSpec(enc, entries, HstoreState(Slots(enc, entries)), false);
    assert e.bytes == Int32Bytes(|entries|) + PairsWire(enc, entries);
    WireReadsBack(enc, entries, rest);
    PairsWireLength(enc, entries);
  }

  lemma {:induction false} PairsWireLength(enc: Encoding, entries: seq<Entry>)
    requires Coherent(enc)
    ensures |PairsWire(enc, entries)| == 8 * |entries| + PayloadSize(enc, entries)
    decreases |entries|
  {
    if entries != [] {
      PairsWireLength(enc, entries[..|entries| - 1]);
    }
  }

  /** The synchronous write of one measured entry: the count, the key, and the key again under the value's length. */
  lemma SyncEmits(enc: Encoding, k: string, v: string)
    requires Coherent(enc)
    ensures var entries := [Entry(Some(k), Some(v))];
            var e := WriteSpec(enc, entries, HstoreState(Slots(enc, entries)), true);
            e.result.Ok?
            && e.bytes == Int32Bytes(1) + (Int32Bytes(|enc.encode(k)|) + enc.encode(k)
                                           + (Int32Bytes(|enc.encode(v)|) + enc.encode(k)))
  {
    var entries := [Entry(Some(k), Some(v))];
    var data := Slots(enc, entries);
    assert entries[..0] == [];
    assert data == [Create(|enc.encode(k)|), Create(|enc.encode(v)|)];
    assert |enc.encode(k)| < TwoTo31 && |enc.encode(v)| < TwoTo31;
    var keyPart := Int32Bytes(|enc.encode(k)|) + enc.encode(k);
    var eb := EntryBytes(enc, entries[0], data, 0, true);
    assert eb == Emitted(keyPart + (Int32Bytes(|enc.encode(v)|) + enc.encode(k)), Ok(Unit));
    assert EntriesBytes(enc, entries, data, 0, true) == Emitted([], Ok(Unit));
    assert EntriesBytes(enc, entries, data, 1, true) == Emitted([] + eb.bytes, Ok(Unit));
    assert [] + eb.bytes == eb.bytes;
  }

  /** The announced size of one entry: the count, two lengths, the key and the value. */
  lemma SingleTotalSize(enc: Encoding, k: string, v: string)
    ensures TotalSize(enc, [Entry(Some(k), Some(v))]) == 12 + |enc.encode(k)| + |enc.encode(v)|
  {
    var entries := [Entry(Some(k), Some(v))];
    assert entries[..0] == [];
    assert PayloadSize(enc, entries) == PayloadSize(enc, []) + |EncodeOpt(enc, Some(k))| + ValueSize(enc, entries[0]);
  }

  /**
   * The synchronous path as written emits the key's bytes under the value's length, so
   * the payload no longer matches the announced size when the two encodings differ in length.
   */
  lemma SyncSizeMismatch(enc: Encoding, k: string, v: string)
    requires Coherent(enc)
    ensures var entries := [Entry(Some(k), Some(v))];
            var e := WriteSpec(enc, entries, HstoreState(Slots(enc, entries)), true);
            e.result.Ok? && |e.bytes| == TotalSize(enc, entries) + |enc.encode(k)| - |enc.encode(v)|
  {
    SyncEmits(enc, k, v);
    SingleTotalSize(enc, k, v);
  }

  /** When key and value encode to the same length, the synchronous write reads back with the key as the value. */
  lemma SyncReadsKeyAsValue(enc: Encoding, k: string, v: string, rest: seq<byte>)
    requires Coherent(enc) && |enc.encode(k)| == |enc.encode(v)|
    ensures var entries := [Entry(Some(k), Some(v))];
            var e := WriteSpec(enc, entries, HstoreState(Slots(enc, entries)), true);
            var r := Read(enc, e.bytes + rest, 0, DictionaryTarget);
            r.Ok? && r.value.0 == map[k := Some(k)]
  {
    var mirrored := [Entry(Some(k), Some(k))];
    SyncWritesMirror(enc, k, v);
    WireReadsBack(enc, mirrored, rest);
    assert MapFrom(map[], mirrored) == map[k := Some(k)];
  }

  /** Under that condition the synchronous write is the wire form of the entry mapping the key to itself. */
  lemma SyncWritesMirror(enc: Encoding, k: string, v: string)
    requires Coherent(enc) && |enc.encode(k)| == |enc.encode(v)|
    ensures var entries := [Entry(Some(k), Some(v))];
            var mirrored := [Entry(Some(k), Some(k))];
            WriteSpec(enc, entries, HstoreState(Slots(enc, entries)), true).bytes
            == Int32Bytes(|mirrored|) + PairsWire(enc, mirrored)
  {
    SyncEmits(enc, k, v);
    var mirrored := [Entry(Some(k), Some(k))];
    var a, b, c := Int32Bytes(|enc.encode(k)|), enc.encode(k), Int32Bytes(|enc.encode(v)|);
    assert mirrored[..0] == [];
    assert EntryWire(enc, mirrored[0]) == a + b + c + b;
    assert PairsWire(enc, mirrored) == [] + EntryWire(enc, mirrored[0]) == a + b + c + b;
    AppendAssoc(a + b, c, b);
  }
}
