/**
 * `NpgsqlRangeHandler<TSubtype>`: the older type-handler path for ranges. It writes the
 * flags unchanged and every finite bound with a length, -1 for a null bound.
 */
module RangeHandlers {
  import opened Wrappers
  import opened Wire
  import opened Ranges
  import opened PgWriters
  import opened ReadBuffers
  import RangeConverters

  /**
   * The subtype handler: its null test, `ValidateAndGetLength`, the length-cache slots
   * that call consumes, its payload writer and reader, and `default(TSubtype)`.
   */
  datatype SubtypeHandler<!T> = SubtypeHandler(
    isNull: T -> bool,
    lengthOf: T -> int,
    cacheSlots: T -> nat,
    write: T -> seq<byte>,
    read: seq<byte> -> T,
    defaultValue: T)

  ghost predicate Coherent<T(!new)>(h: SubtypeHandler<T>)
  {
    forall x: T {:trigger h.write(x)} :: !h.isNull(x) ==>
      0 <= h.lengthOf(x) < TwoTo31 && |h.write(x)| == h.lengthOf(x) && h.read(h.write(x)) == x
  }

  /** A range handler cannot itself be the subtype of another range. */
  function CreateRangeHandler(): (r: Result<Unit>)
    ensures r == Err(NotSupported)
  {
    Err(NotSupported)
  }

  /** `WriteWithLength` on a bound: -1 for null, else the length and the payload. */
  function WriteWithLength<T>(h: SubtypeHandler<T>, x: T): (r: seq<byte>)
    ensures h.isNull(x) ==> r == Int32Bytes(-1)
    ensures !h.isNull(x) ==> r == Int32Bytes(Wrap32(h.lengthOf(x))) + h.write(x)
  {
    if h.isNull(x) then Int32Bytes(-1) else Int32Bytes(Wrap32(h.lengthOf(x))) + h.write(x)
  }

  /** The handler's reads are the converter's: a -1 length gives the default value. */
  function AsSubtype<T>(h: SubtypeHandler<T>): RangeConverters.Subtype<T, Unit>
  {
    RangeConverters.Subtype(true, h.isNull, x => (h.lengthOf(x), None), (x, _) => h.write(x), h.read, h.defaultValue)
  }

  /** `ValidateAndGetLengthRange`: the flags byte, and four bytes plus the payload for each finite bound. */
  function RangeLength<T>(h: SubtypeHandler<T>, v: RangeValue<T>): int
  {
    1 + (if v.IsEmpty() then 0
         else (if v.LowerInfinite() then 0 else 4 + (if h.isNull(v.lower) then 0 else h.lengthOf(v.lower)))
              + (if v.UpperInfinite() then 0 else 4 + (if h.isNull(v.upper) then 0 else h.lengthOf(v.upper))))
  }

  /** `WriteRange`: the flags byte as given (no normalisation), then each finite bound with its length. */
  function WriteRangeBytes<T>(h: SubtypeHandler<T>, v: RangeValue<T>): (r: seq<byte>)
    ensures |r| >= 1 && r[0] == FlagsByte(v.flags)
  {
    [FlagsByte(v.flags)]
    + (if v.IsEmpty() then []
       else (if v.LowerInfinite() then [] else WriteWithLength(h, v.lower))
            + (if v.UpperInfinite() then [] else WriteWithLength(h, v.upper)))
  }

  /** What the handler reads back: the same flags, and the default value for an infinite or null bound. */
  function HandlerCanonical<T>(h: SubtypeHandler<T>, v: RangeValue<T>): RangeValue<T>
  {
    if v.IsEmpty() then EmptyRange(h.defaultValue)
    else RangeValue(if v.LowerInfinite() || h.isNull(v.lower) then h.defaultValue else v.lower,
                    if v.UpperInfinite() || h.isNull(v.upper) then h.defaultValue else v.upper,
                    v.flags)
  }

  /** A bound written with its length reads back as the value, or the default when null. */
  lemma WriteWithLengthReadsBack<T(!new)>(h: SubtypeHandler<T>, prefix: seq<byte>, x: T, rest: seq<byte>)
    requires Coherent(h)
    ensures RangeConverters.ReadBound(AsSubtype(h), prefix + WriteWithLength(h, x) + rest, |prefix|, false)
            == Ok((if h.isNull(x) then h.defaultValue else x, |prefix| + |WriteWithLength(h, x)|))
  {
    var b := WriteWithLength(h, x);
    if h.isNull(x) {
      ReadInt32AtWritten(prefix, -1, rest);
    } else {
      var n := h.lengthOf(x);
      assert Wrap32(n) == n;
      var s := prefix + b + rest;
      assert s == prefix + Int32Bytes(n) + (h.write(x) + rest);
      ReadInt32AtWritten(prefix, n, h.write(x) + rest);
      assert s == (prefix + Int32Bytes(n)) + h.write(x) + rest;
      ReadBytesAtWritten(prefix + Int32Bytes(n), h.write(x), rest);
    }
  }

  /** The written range has the length `ValidateAndGetLengthRange` announced. */
  lemma WriteRangeLength<T(!new)>(h: SubtypeHandler<T>, v: RangeValue<T>)
    requires Coherent(h)
    ensures |WriteRangeBytes(h, v)| == RangeLength(h, v)
  {
  }

  /** A written range reads back, through the same wire read as the converter's, as its canonical form. */
  lemma RangeHandlerRoundTrip<T(!new)>(h: SubtypeHandler<T>, v: RangeValue<T>, rest: seq<byte>)
    requires Coherent(h)
    ensures RangeConverters.ReadAt(AsSubtype(h), WriteRangeBytes(h, v) + rest, 0)
            == Ok((HandlerCanonical(h, v), |WriteRangeBytes(h, v)|))
  {
    FlagsByteRoundTrip(v.flags);
    if !v.IsEmpty() {
      NonEmptyRoundTrip(h, v, rest);
    } else {
      assert (WriteRangeBytes(h, v) + rest)[0] == FlagsByte(v.flags);
    }
  }

  /** The bounds of a non-empty range, each written with its length, read back after the flags byte. */
  lemma NonEmptyRoundTrip<T(!new)>(h: SubtypeHandler<T>, v: RangeValue<T>, rest: seq<byte>)
    requires Coherent(h) && !v.IsEmpty()
    requires FlagsOf(FlagsByte(v.flags)) == v.flags
    ensures RangeConverters.ReadAt(AsSubtype(h), WriteRangeBytes(h, v) + rest, 0)
            == Ok((HandlerCanonical(h, v), |WriteRangeBytes(h, v)|))
  {
    var head := [FlagsByte(v.flags)];
    var lower := BoundBytes(h, v.lower, v.LowerInfinite());
    var upper := BoundBytes(h, v.upper, v.UpperInfinite());
    var lv := if v.LowerInfinite() || h.isNull(v.lower) then h.defaultValue else v.lower;
    var uv := if v.UpperInfinite() || h.isNull(v.upper) then h.defaultValue else v.upper;
    var s := head + lower + upper + rest;
    var mid := 1 + |lower|;
    var end := mid + |upper|;
    assert WriteRangeBytes(h, v) == head + lower + upper;
    AppendAssoc(head + lower, upper, rest);
    BoundReadsBackAt(h, head, v.lower, v.LowerInfinite(), upper + rest, s, 1, lv, mid);
    BoundReadsBackAt(h, head + lower, v.upper, v.UpperInfinite(), rest, s, mid, uv, end);
    RangeConverters.ReadAtBounds(AsSubtype(h), s, v.flags, lv, mid, uv, end);
    assert HandlerCanonical(h, v) == RangeValue(lv, uv, v.flags);
    assert RangeConverters.ReadAt(AsSubtype(h), s, 0) == Ok((HandlerCanonical(h, v), end));
  }

  /** `BoundReadsBack` at the positions its caller names. */
  lemma BoundReadsBackAt<T(!new)>(h: SubtypeHandler<T>, prefix: seq<byte>, x: T, infinite: bool, rest: seq<byte>,
                                  s: seq<byte>, at: nat, value: T, end: nat)
    requires Coherent(h)
    requires s == prefix + BoundBytes(h, x, infinite) + rest && at == |prefix|
    requires end == |prefix| + |BoundBytes(h, x, infinite)|
    requires value == if infinite || h.isNull(x) then h.defaultValue else x
    ensures RangeConverters.ReadBound(AsSubtype(h), s, at, infinite) == Ok((value, end))
  {
    BoundReadsBack(h, prefix, x, infinite, rest);
  }

  /** The bytes `WriteRange` gives one bound: none when infinite, else the bound with its length. */
  function BoundBytes<T>(h: SubtypeHandler<T>, x: T, infinite: bool): seq<byte>
  {
    if infinite then [] else WriteWithLength(h, x)
  }

  /** A bound, finite or not, reads back as the value, or the default when infinite or null. */
  lemma BoundReadsBack<T(!new)>(h: SubtypeHandler<T>, prefix: seq<byte>, x: T, infinite: bool, rest: seq<byte>)
    requires Coherent(h)
    ensures RangeConverters.ReadBound(AsSubtype(h), prefix + BoundBytes(h, x, infinite) + rest, |prefix|, infinite)
            == Ok((if infinite || h.isNull(x) then h.defaultValue else x, |prefix| + |BoundBytes(h, x, infinite)|))
  {
    if !infinite {
      WriteWithLengthReadsBack(h, prefix, x, rest);
    }
  }

  /** `NpgsqlLengthCache`: a cursor over cached lengths, and whether the cache was already filled. */
  class LengthCache {
    var position: nat
    var isPopulated: bool

    constructor (isPopulated: bool)
      ensures position == 0 && this.isPopulated == isPopulated
    {
      position := 0;
      this.isPopulated := isPopulated;
    }
  }

  /** The cache slots the subtype handler uses for the finite non-null bounds. */
  function SlotsUsed<T>(h: SubtypeHandler<T>, v: RangeValue<T>): nat
  {
    if v.IsEmpty() then 0
    else (if v.LowerInfinite() || h.isNull(v.lower) then 0 else h.cacheSlots(v.lower))
         + (if v.UpperInfinite() || h.isNull(v.upper) then 0 else h.cacheSlots(v.upper))
  }

  /**
   * `ValidateAndGetLengthRange`: accumulates the length bound by bound, each subtype call
   * moving the cache cursor; a populated cache is rewound so the writes can replay it.
   */
  method ValidateAndGetLengthRange<T>(h: SubtypeHandler<T>, v: RangeValue<T>, cache: LengthCache?) returns (totalLen: int)
    modifies cache
    ensures totalLen == RangeLength(h, v)
    ensures cache != null ==> cache.isPopulated == old(cache.isPopulated)
    ensures cache != null && cache.isPopulated ==> cache.position == old(cache.position)
    ensures cache != null && !cache.isPopulated ==> cache.position == old(cache.position) + SlotsUsed(h, v)
  {
    totalLen := 1;
    var cachePos := if cache != null then cache.position else 0;
    if !v.IsEmpty() {
      if !v.LowerInfinite() {
        totalLen := totalLen + 4;
        if !h.isNull(v.lower) {
          totalLen := totalLen + h.lengthOf(v.lower);
          if cache != null {
            cache.position := cache.position + h.cacheSlots(v.lower);
          }
        }
      }
      if !v.UpperInfinite() {
        totalLen := totalLen + 4;
        if !h.isNull(v.upper) {
          totalLen := totalLen + h.lengthOf(v.upper);
          if cache != null {
            cache.position := cache.position + h.cacheSlots(v.upper);
          }
        }
      }
    }
    if cache != null && cache.isPopulated {
      cache.position := cachePos;
    }
  }

  /** `WriteRange` on a `PgWriter`: flush if not even the flags byte fits, then the bytes above. */
  method WriteRange<T>(writer: PgWriter, h: SubtypeHandler<T>, v: RangeValue<T>)
    requires writer.Valid() && writer.capacity >= 4
    modifies writer`pending, writer`sent
    ensures writer.Valid()
    ensures writer.Output() == old(writer.Output()) + WriteRangeBytes(h, v)
  {
    var _ := writer.Ensure(1);
    writer.WriteByte(FlagsByte(v.flags));
    if v.IsEmpty() {
      return;
    }
    if !v.LowerInfinite() {
      writer.WriteBytes(WriteWithLength(h, v.lower));
    }
    ghost var afterLower := writer.Output();
    if !v.UpperInfinite() {
      writer.WriteBytes(WriteWithLength(h, v.upper));
    }
    assert writer.Output() == afterLower + (if v.UpperInfinite() then [] else WriteWithLength(h, v.upper));
  }

  /** `ReadRange`: the same wire read as the converter's, on a `ReadBuffer`. */
  method ReadRange<T>(buf: ReadBuffer, h: SubtypeHandler<T>) returns (r: Result<RangeValue<T>>)
    requires buf.readPosition <= |buf.data|
    modifies buf`readPosition
    ensures var spec := RangeConverters.ReadAt(AsSubtype(h), buf.data, old(buf.readPosition));
            (r.Ok? <==> spec.Ok?) && (r.Ok? ==> r.value == spec.value.0 && buf.readPosition == spec.value.1)
  {
    r := RangeConverters.ReadFrom(buf, AsSubtype(h));
  }

  /**
   * For a null finite bound the handler writes a -1 length and keeps the flags, where the
   * converter writes nothing and marks the bound infinite: the two paths put different
   * bytes on the wire for the same range.
   */
  lemma HandlerKeepsNullBound<T>(h: SubtypeHandler<T>, v: RangeValue<T>)
    requires !v.IsEmpty() && !v.LowerInfinite() && h.isNull(v.lower) && v.UpperInfinite()
    ensures WriteRangeBytes(h, v) == [FlagsByte(v.flags)] + Int32Bytes(-1)
    ensures |WriteRangeBytes(h, v)| == RangeLength(h, v)
  {
  }
}
