/**
 * `RangeConverter<TSubtype>`: the binary range layout (a flags byte, then for each
 * finite bound an Int32 length, -1 for null, and the subtype's payload), written in
 * two passes: `GetSize` measures and fills a write state, `Write` consumes it.
 */
module RangeConverters {
  import opened Wrappers
  import opened Wire
  import opened Sizes
  import opened Ranges
  import opened PgWriters
  import opened ReadBuffers
  import opened ConverterResolvers

  /**
   * The subtype converter: whether it supports the binary format, its null predicate,
   * the Exact size and nested write state `GetSizeOrDbNull` gives a non-null value,
   * its writer and reader, and `default(TSubtype)`.
   */
  datatype Subtype<!T, !W> = Subtype(
    binary: bool,
    isDbNull: T -> bool,
    sizeOf: T -> (int, Option<W>),
    write: (T, Option<W>) -> seq<byte>,
    read: seq<byte> -> T,
    defaultValue: T)

  /** The subtype writes, for a non-null value, exactly the Int32 byte count it measured, and reads it back. */
  ghost predicate Coherent<T(!new), W>(st: Subtype<T, W>)
  {
    forall x: T {:trigger st.sizeOf(x)} :: !st.isDbNull(x) ==>
      0 <= st.sizeOf(x).0 < TwoTo31
      && |st.write(x, st.sizeOf(x).1)| == st.sizeOf(x).0
      && st.read(st.write(x, st.sizeOf(x).1)) == x
  }

  /** The constructor's check: the subtype converter must support the binary format. */
  function CheckSubtype<T, W>(st: Subtype<T, W>): (r: Result<Subtype<T, W>>)
    ensures r.Ok? <==> st.binary
    ensures r.Ok? ==> r.value == st
    ensures r.Err? ==> r.error == NotSupported
  {
    if st.binary then Ok(st) else Err(NotSupported)
  }

  /** `GetSizeOrDbNull`: nothing for a null value, else its Exact size and nested write state. */
  function SizeOrDbNull<T, W>(st: Subtype<T, W>, x: T): (r: Option<(Size, Option<W>)>)
    ensures r.None? <==> st.isDbNull(x)
    ensures r.Some? ==> r.value.0 == Create(st.sizeOf(x).0) && r.value.1 == st.sizeOf(x).1
  {
    if st.isDbNull(x) then None else Some((Create(st.sizeOf(x).0), st.sizeOf(x).1))
  }

  /** `RangeConverter.WriteState`; a fresh one holds two default (Unknown) sizes. */
  datatype WriteState<W> = WriteState(lowerSize: Size, lowerState: Option<W>, upperSize: Size, upperState: Option<W>)

  function FreshState<W>(): WriteState<W>
  {
    WriteState(UnknownSize, None, UnknownSize, None)
  }

  /** The bytes a write emitted, and whether it completed. */
  datatype Emitted = Emitted(bytes: seq<byte>, result: Result<Unit>)

  /**
   * Size and write state of the measuring pass. With `corrected` false this is the code as
   * written; with `corrected` true a null finite bound is always recorded as -1 and adds no
   * length prefix, matching what the write pass then emits for it (nothing).
   */
  function GetSizeWith<T, W>(st: Subtype<T, W>, v: RangeValue<T>, incoming: Option<WriteState<W>>, corrected: bool)
    : (Size, Option<WriteState<W>>)
  {
    if v.IsEmpty() then (Create(1), incoming)
    else
      var state0: Option<WriteState<W>> := None;
      var lower := if v.LowerInfinite() then None else SizeOrDbNull(st, v.lower);
      var total1 := if v.LowerInfinite() || (corrected && lower.None?) then Create(1) else Create(1).Combine(Create(4));
      var total2 := if lower.Some? then total1.Combine(lower.value.0) else total1;
      var state1 :=
        if lower.Some? then Some(state0.GetOr(FreshState()).(lowerSize := lower.value.0, lowerState := lower.value.1))
        else if !v.LowerInfinite() && (state0.Some? || corrected) then Some(state0.GetOr(FreshState()).(lowerSize := Create(-1)))
        else state0;
      var upper := if v.UpperInfinite() then None else SizeOrDbNull(st, v.upper);
      var total3 := if v.UpperInfinite() || (corrected && upper.None?) then total2 else total2.Combine(Create(4));
      var total4 := if upper.Some? then total3.Combine(upper.value.0) else total3;
      var state2 :=
        if upper.Some? then Some(state1.GetOr(FreshState()).(upperSize := upper.value.0, upperState := upper.value.1))
        else if !v.UpperInfinite() && state1.Some? then Some(state1.value.(upperSize := Create(-1)))
        else state1;
      (total4, state2)
  }

  /**
   * `GetSize` as written: a null finite lower bound is recorded only if a state already
   * exists, which it never does at that point, and every finite bound adds a length prefix.
   */
  function GetSize<T, W>(st: Subtype<T, W>, v: RangeValue<T>, incoming: Option<WriteState<W>>): (Size, Option<WriteState<W>>)
  {
    GetSizeWith(st, v, incoming, false)
  }

  /** `GetSize` corrected: a null finite bound is recorded as -1 and measured as the nothing `Write` emits for it. */
  function GetSizeCorrected<T, W>(st: Subtype<T, W>, v: RangeValue<T>, incoming: Option<WriteState<W>>)
    : (Size, Option<WriteState<W>>)
  {
    GetSizeWith(st, v, incoming, true)
  }

  /** The bytes one bound contributes to the measured total. */
  function MeasuredBound<T, W>(st: Subtype<T, W>, x: T, infinite: bool, corrected: bool): int
  {
    if infinite then 0
    else if st.isDbNull(x) then (if corrected then 0 else 4)
    else 4 + st.sizeOf(x).0
  }

  /** The measured total is always Exact: the flags byte plus what each bound contributes. */
  lemma GetSizeTotal<T, W>(st: Subtype<T, W>, v: RangeValue<T>, incoming: Option<WriteState<W>>, corrected: bool)
    ensures var total := GetSizeWith(st, v, incoming, corrected).0;
            total.kind == Exact
            && total.byteCount == if v.IsEmpty() then 1
                                  else 1 + MeasuredBound(st, v.lower, v.LowerInfinite(), corrected)
                                         + MeasuredBound(st, v.upper, v.UpperInfinite(), corrected)
  {
  }

  /** The size the write pass reads for a bound: the recorded one, or -1 when there is no state. */
  function LowerSizeOf<W>(state: Option<WriteState<W>>): Size
  {
    if state.Some? then state.value.lowerSize else Create(-1)
  }

  function UpperSizeOf<W>(state: Option<WriteState<W>>): Size
  {
    if state.Some? then state.value.upperSize else Create(-1)
  }

  /** The flags `Write` puts on the wire: a finite bound whose recorded size is -1 becomes infinite and exclusive. */
  function WrittenFlags<T>(v: RangeValue<T>, lowerSize: Size, upperSize: Size): (r: bv8)
    ensures v.IsEmpty() ==> r == v.flags
    ensures HasFlag(r, EmptyFlag) == v.IsEmpty()
    ensures HasFlag(r, LowerBoundInfinite) <==> v.LowerInfinite() || (!v.IsEmpty() && lowerSize == Create(-1))
    ensures HasFlag(r, UpperBoundInfinite) <==> v.UpperInfinite() || (!v.IsEmpty() && upperSize == Create(-1))
  {
    if v.IsEmpty() then v.flags
    else
      var f1 := if lowerSize == Create(-1) && !v.LowerInfinite() then MakeInfinite(v.flags, LowerBoundInclusive, LowerBoundInfinite)
                else v.flags;
      MakeLowerInfiniteKeepsOthers(v.flags);
      var f2 := if upperSize == Create(-1) && !v.UpperInfinite() then MakeInfinite(f1, UpperBoundInclusive, UpperBoundInfinite)
                else f1;
      MakeUpperInfiniteKeepsOthers(f1);
      f2
  }

  /** One bound of the write pass: nothing when infinite, else the recorded length and the nested write. */
  function WriteBound<T, W>(st: Subtype<T, W>, x: T, size: Size, nested: Option<W>, infinite: bool): (r: Emitted)
    ensures infinite ==> r == Emitted([], Ok(Unit))
    ensures !infinite && !size.IsKnown() ==> r == Emitted([], Err(InvalidOperation))
    ensures !infinite && size.IsKnown() ==>
              r == Emitted(Int32Bytes(Wrap32(size.byteCount)) + st.write(x, nested), Ok(Unit))
  {
    if infinite then Emitted([], Ok(Unit))
    else match size.Value()
      case Err(e) => Emitted([], Err(e))
      case Ok(length) => Emitted(Int32Bytes(Wrap32(length)) + st.write(x, nested), Ok(Unit))
  }

  /** `Write`: the flags byte, then each finite bound; an Unknown recorded size fails after the bytes before it were written. */
  function Write<T, W>(st: Subtype<T, W>, v: RangeValue<T>, state: Option<WriteState<W>>): (r: Emitted)
    ensures |r.bytes| >= 1
  {
    var flags := WrittenFlags(v, LowerSizeOf(state), UpperSizeOf(state));
    var head := [FlagsByte(flags)];
    if v.IsEmpty() then Emitted(head, Ok(Unit))
    else
      var lower := WriteBound(st, v.lower, LowerSizeOf(state), if state.Some? then state.value.lowerState else None,
                              HasFlag(flags, LowerBoundInfinite));
      if lower.result.Err? then Emitted(head + lower.bytes, lower.result)
      else
        var upper := WriteBound(st, v.upper, UpperSizeOf(state), if state.Some? then state.value.upperState else None,
                                HasFlag(flags, UpperBoundInfinite));
        Emitted(head + lower.bytes + upper.bytes, upper.result)
  }

  /** One bound of the read pass: the default value when infinite or null (-1), else the subtype read of `length` bytes. */
  function ReadBound<T, W>(st: Subtype<T, W>, s: seq<byte>, pos: nat, infinite: bool): (r: Result<(T, nat)>)
    ensures r.Ok? ==> pos <= r.value.1 <= |s|
  {
    if infinite then (if pos <= |s| then Ok((st.defaultValue, pos)) else Err(EndOfData))
    else
      var length :- ReadInt32At(s, pos);
      if length == -1 then Ok((st.defaultValue, pos + 4))
      else if length < 0 then Err(EndOfData)
      else
        var payload :- ReadBytesAt(s, pos + 4, length);
        Ok((st.read(payload), pos + 4 + length))
  }

  /** `Read` from position `pos`: the range and the position after it. */
  function ReadAt<T, W>(st: Subtype<T, W>, s: seq<byte>, pos: nat): (r: Result<(RangeValue<T>, nat)>)
    ensures r.Ok? ==> pos < r.value.1 <= |s|
    ensures pos >= |s| ==> r == Err(EndOfData)
  {
    if pos >= |s| then Err(EndOfData)
    else
      var flags := FlagsOf(s[pos]);
      if HasFlag(flags, EmptyFlag) then Ok((EmptyRange(st.defaultValue), pos + 1))
      else
        var lower :- ReadBound(st, s, pos + 1, HasFlag(flags, LowerBoundInfinite));
        var upper :- ReadBound(st, s, lower.1, HasFlag(flags, UpperBoundInfinite));
        Ok((RangeValue(lower.0, upper.0, flags), upper.1))
  }

  /** What a written range reads back as: the written flags, and the default value for every infinite bound. */
  function Canonical<T>(v: RangeValue<T>, flags: bv8, defaultValue: T): RangeValue<T>
  {
    if v.IsEmpty() then EmptyRange(defaultValue)
    else RangeValue(if HasFlag(flags, LowerBoundInfinite) then defaultValue else v.lower,
                    if HasFlag(flags, UpperBoundInfinite) then defaultValue else v.upper,
                    flags)
  }

  /** The null-bound normalisation PostgreSQL applies: a null finite bound becomes infinite and exclusive. */
  function NormalizedFlags<T, W>(st: Subtype<T, W>, v: RangeValue<T>): (r: bv8)
    ensures !v.IsEmpty() ==> (HasFlag(r, LowerBoundInfinite) <==> v.LowerInfinite() || st.isDbNull(v.lower))
    ensures !v.IsEmpty() ==> (HasFlag(r, UpperBoundInfinite) <==> v.UpperInfinite() || st.isDbNull(v.upper))
  {
    var l := if v.LowerInfinite() then Create(0) else if st.isDbNull(v.lower) then Create(-1) else Create(0);
    var u := if v.UpperInfinite() then Create(0) else if st.isDbNull(v.upper) then Create(-1) else Create(0);
    WrittenFlags(v, l, u)
  }

  /** The case `GetSize` mishandles: a non-empty range whose finite lower bound is null while its finite upper bound is not. */
  predicate NullLowerBeforeValue<T, W>(st: Subtype<T, W>, v: RangeValue<T>)
  {
    !v.IsEmpty() && !v.LowerInfinite() && st.isDbNull(v.lower) && !v.UpperInfinite() && !st.isDbNull(v.upper)
  }

  /** What the measuring pass records for each bound, given to the writing pass. */
  lemma GetSizeRecords<T, W>(st: Subtype<T, W>, v: RangeValue<T>, corrected: bool)
    requires !v.IsEmpty()
    ensures var state := GetSizeWith(st, v, None, corrected).1;
            (!v.LowerInfinite() && !st.isDbNull(v.lower) ==>
               state.Some? && state.value.lowerSize == Create(st.sizeOf(v.lower).0)
               && state.value.lowerState == st.sizeOf(v.lower).1)
            && (!v.UpperInfinite() && !st.isDbNull(v.upper) ==>
               state.Some? && state.value.upperSize == Create(st.sizeOf(v.upper).0)
               && state.value.upperState == st.sizeOf(v.upper).1)
            && (!v.LowerInfinite() && st.isDbNull(v.lower) ==>
                  LowerSizeOf(state) == (if NullLowerBeforeValue(st, v) && !corrected then UnknownSize else Create(-1)))
            && (!v.UpperInfinite() && st.isDbNull(v.upper) ==> UpperSizeOf(state) == Create(-1))
  {
  }

  /** A bound written from its recorded size reads back: the value itself if finite, the default if infinite. */
  lemma WriteBoundReadsBack<T(!new), W>(st: Subtype<T, W>, prefix: seq<byte>, x: T, infinite: bool, rest: seq<byte>)
    requires Coherent(st)
    requires !infinite ==> !st.isDbNull(x)
    ensures var e := WriteBound(st, x, Create(st.sizeOf(x).0), st.sizeOf(x).1, infinite);
            e.result.Ok?
            && |e.bytes| == (if infinite then 0 else 4 + st.sizeOf(x).0)
            && ReadBound(st, prefix + e.bytes + rest, |prefix|, infinite)
               == Ok((if infinite then st.defaultValue else x, |prefix| + |e.bytes|))
  {
    if !infinite {
      var n := st.sizeOf(x).0;
      var payload := st.write(x, st.sizeOf(x).1);
      assert Wrap32(n) == n;
      var s := prefix + (Int32Bytes(n) + payload) + rest;
      assert s == prefix + Int32Bytes(n) + (payload + rest);
      ReadInt32AtWritten(prefix, n, payload + rest);
      assert s == (prefix + Int32Bytes(n)) + payload + rest;
      ReadBytesAtWritten(prefix + Int32Bytes(n), payload, rest);
    }
  }

  /** The flags byte and both bounds written from the sizes and states the subtype reports for them. */
  function WriteMeasured<T, W>(st: Subtype<T, W>, v: RangeValue<T>, flags: bv8): Emitted
  {
    var lower := WriteBound(st, v.lower, Create(st.sizeOf(v.lower).0), st.sizeOf(v.lower).1, HasFlag(flags, LowerBoundInfinite));
    var upper := WriteBound(st, v.upper, Create(st.sizeOf(v.upper).0), st.sizeOf(v.upper).1, HasFlag(flags, UpperBoundInfinite));
    Emitted([FlagsByte(flags)] + lower.bytes + upper.bytes, if lower.result.Err? then lower.result else upper.result)
  }

  /** When the measured state covers every written bound, the write pass is `WriteMeasured` with the normalised flags. */
  lemma WriteUsesRecords<T(!new), W>(st: Subtype<T, W>, v: RangeValue<T>, corrected: bool)
    requires Coherent(st)
    requires !v.IsEmpty()
    requires corrected || !NullLowerBeforeValue(st, v)
    ensures Write(st, v, GetSizeWith(st, v, None, corrected).1) == WriteMeasured(st, v, NormalizedFlags(st, v))
  {
    var state := GetSizeWith(st, v, None, corrected).1;
    GetSizeRecords(st, v, corrected);
    assert !v.LowerInfinite() && !st.isDbNull(v.lower) ==> st.sizeOf(v.lower).0 >= 0;
    assert !v.UpperInfinite() && !st.isDbNull(v.upper) ==> st.sizeOf(v.upper).0 >= 0;
    var flags := WrittenFlags(v, LowerSizeOf(state), UpperSizeOf(state));
    assert flags == NormalizedFlags(st, v);
  }

  /** `ReadAt` on a non-empty flags byte is the two bound reads in sequence. */
  lemma ReadAtBounds<T, W>(st: Subtype<T, W>, s: seq<byte>, flags: bv8, lower: T, mid: nat, upper: T, end: nat)
    requires 0 < |s| && FlagsOf(s[0]) == flags && !HasFlag(flags, EmptyFlag)
    requires ReadBound(st, s, 1, HasFlag(flags, LowerBoundInfinite)) == Ok((lower, mid))
    requires ReadBound(st, s, mid, HasFlag(flags, UpperBoundInfinite)) == Ok((upper, end))
    ensures ReadAt(st, s, 0) == Ok((RangeValue(lower, upper, flags), end))
  {
  }

  /** The measured write of a non-empty range with any such flags completes and reads back canonically. */
  lemma WriteMeasuredReadsBack<T(!new), W>(st: Subtype<T, W>, v: RangeValue<T>, flags: bv8, rest: seq<byte>)
    requires Coherent(st)
    requires !v.IsEmpty() && !HasFlag(flags, EmptyFlag)
    requires !HasFlag(flags, LowerBoundInfinite) ==> !st.isDbNull(v.lower)
    requires !HasFlag(flags, UpperBoundInfinite) ==> !st.isDbNull(v.upper)
    ensures var e := WriteMeasured(st, v, flags);
            e.result.Ok?
            && |e.bytes| == 1 + MeasuredBound(st, v.lower, HasFlag(flags, LowerBoundInfinite), true)
                              + MeasuredBound(st, v.upper, HasFlag(flags, UpperBoundInfinite), true)
            && ReadAt(st, e.bytes + rest, 0) == Ok((Canonical(v, flags, st.defaultValue), |e.bytes|))
  {
    FlagsByteRoundTrip(flags);
    var head := [FlagsByte(flags)];
    var lowerInf := HasFlag(flags, LowerBoundInfinite);
    var upperInf := HasFlag(flags, UpperBoundInfinite);
    var lower := WriteBound(st, v.lower, Create(st.sizeOf(v.lower).0), st.sizeOf(v.lower).1, lowerInf);
    var upper := WriteBound(st, v.upper, Create(st.sizeOf(v.upper).0), st.sizeOf(v.upper).1, upperInf);
    var lv := if lowerInf then st.defaultValue else v.lower;
    var uv := if upperInf then st.defaultValue else v.upper;
    var e := WriteMeasured(st, v, flags);
    assert e.bytes == head + lower.bytes + upper.bytes;
    var s := e.bytes + rest;
    var mid := 1 + |lower.bytes|;
    var end := mid + |upper.bytes|;
    AppendAssoc(head + lower.bytes, upper.bytes, rest);
    BoundAt(st, head, v.lower, lowerInf, upper.bytes + rest, s, 1, lv, mid);
    BoundAt(st, head + lower.bytes, v.upper, upperInf, rest, s, mid, uv, end);
    ReadAtBounds(st, s, flags, lv, mid, uv, end);
    assert Canonical(v, flags, st.defaultValue) == RangeValue(lv, uv, flags);
    assert ReadAt(st, s, 0) == Ok((Canonical(v, flags, st.defaultValue), end));
  }

  /** `WriteBoundReadsBack` at the positions its caller names. */
  lemma BoundAt<T(!new), W>(st: Subtype<T, W>, prefix: seq<byte>, x: T, infinite: bool, rest: seq<byte>,
                            s: seq<byte>, at: nat, value: T, end: nat)
    requires Coherent(st)
    requires !infinite ==> !st.isDbNull(x)
    requires var e := WriteBound(st, x, Create(st.sizeOf(x).0), st.sizeOf(x).1, infinite);
             s == prefix + e.bytes + rest && at == |prefix| && end == |prefix| + |e.bytes|
    requires value == if infinite then st.defaultValue else x
    ensures var e := WriteBound(st, x, Create(st.sizeOf(x).0), st.sizeOf(x).1, infinite);
            e.result.Ok? && |e.bytes| == MeasuredBound(st, x, infinite, true)
            && ReadBound(st, s, at, infinite) == Ok((value, end))
  {
    WriteBoundReadsBack(st, prefix, x, infinite, rest);
  }

  /** How many finite bounds are null: each is measured with a length prefix as written, but emitted as nothing. */
  function NullFiniteBounds<T, W>(st: Subtype<T, W>, v: RangeValue<T>): nat
  {
    if v.IsEmpty() then 0
    else (if !v.LowerInfinite() && st.isDbNull(v.lower) then 1 else 0)
         + (if !v.UpperInfinite() && st.isDbNull(v.upper) then 1 else 0)
  }

  /**
   * Measuring, writing and reading back a range, when the measured state covers every
   * written bound: the write completes, reads back as the value with null bounds
   * normalised to infinite, and falls short of the measured size by four bytes per null
   * finite bound unless the measuring pass is the corrected one.
   */
  lemma RoundTripWith<T(!new), W>(st: Subtype<T, W>, v: RangeValue<T>, rest: seq<byte>, corrected: bool)
    requires Coherent(st)
    requires corrected || !NullLowerBeforeValue(st, v)
    ensures var (size, state) := GetSizeWith(st, v, None, corrected);
            var e := Write(st, v, state);
            e.result.Ok? && size.kind == Exact
            && |e.bytes| == size.byteCount - (if corrected then 0 else 4 * NullFiniteBounds(st, v))
            && ReadAt(st, e.bytes + rest, 0) == Ok((Canonical(v, NormalizedFlags(st, v), st.defaultValue), |e.bytes|))
  {
    GetSizeTotal(st, v, None, corrected);
    if v.IsEmpty() {
      var e := Write(st, v, None);
      FlagsByteRoundTrip(v.flags);
      assert (e.bytes + rest)[0] == FlagsByte(v.flags);
    } else {
      WriteUsesRecords(st, v, corrected);
      var flags := NormalizedFlags(st, v);
      MakeLowerInfiniteKeepsOthers(v.flags);
      assert !HasFlag(flags, EmptyFlag);
      WriteMeasuredReadsBack(st, v, flags, rest);
    }
  }

  /**
   * As written, a non-empty range whose finite lower bound is null and whose finite upper
   * bound is not cannot be written: the lower bound keeps the Unknown default size, so it
   * is not normalised, and reading its size fails after the flags byte went out.
   */
  lemma NullLowerWriteFails<T, W>(st: Subtype<T, W>, v: RangeValue<T>)
    requires NullLowerBeforeValue(st, v)
    ensures var e := Write(st, v, GetSize(st, v, None).1);
            e.result == Err(InvalidOperation) && |e.bytes| == 1
  {
    GetSizeRecords(st, v, false);
    var state := GetSize(st, v, None).1;
    assert LowerSizeOf(state) == UnknownSize;
  }

  /** As written, every other range measures, writes and reads back, but a null finite bound is measured four bytes too large. */
  lemma RoundTripAsWritten<T(!new), W>(st: Subtype<T, W>, v: RangeValue<T>, rest: seq<byte>)
    requires Coherent(st)
    requires !NullLowerBeforeValue(st, v)
    ensures var (size, state) := GetSize(st, v, None);
            var e := Write(st, v, state);
            e.result.Ok? && |e.bytes| == size.byteCount - 4 * NullFiniteBounds(st, v)
            && ReadAt(st, e.bytes + rest, 0) == Ok((Canonical(v, NormalizedFlags(st, v), st.defaultValue), |e.bytes|))
  {
    RoundTripWith(st, v, rest, false);
  }

  /**
   * As written, a null finite upper bound next to a present lower bound is normalised away
   * by `Write` but still measured with its four-byte length prefix: the value written is
   * shorter than the size announced for it.
   */
  lemma NullUpperMeasuredTooLarge<T(!new), W>(st: Subtype<T, W>, v: RangeValue<T>)
    requires Coherent(st)
    requires !v.IsEmpty() && !v.LowerInfinite() && !st.isDbNull(v.lower) && !v.UpperInfinite() && st.isDbNull(v.upper)
    ensures var (size, state) := GetSize(st, v, None);
            var e := Write(st, v, state);
            e.result.Ok? && |e.bytes| == size.byteCount - 4
  {
    RoundTripWith(st, v, [], false);
  }

  /**
   * With the corrected measuring pass every range writes exactly the measured byte count
   * and reads back as itself, null bounds turned infinite.
   */
  lemma RoundTripCorrected<T(!new), W>(st: Subtype<T, W>, v: RangeValue<T>, rest: seq<byte>)
    requires Coherent(st)
    ensures var (size, state) := GetSizeCorrected(st, v, None);
            var e := Write(st, v, state);
            e.result.Ok? && size.kind == Exact && |e.bytes| == size.byteCount
            && ReadAt(st, e.bytes + rest, 0) == Ok((Canonical(v, NormalizedFlags(st, v), st.defaultValue), |e.bytes|))
  {
    RoundTripWith(st, v, rest, true);
  }

  /** A range without null bounds reads back exactly, apart from the default value standing in for an infinite bound. */
  lemma RoundTripWithoutNulls<T(!new), W>(st: Subtype<T, W>, v: RangeValue<T>)
    requires Coherent(st)
    requires !v.IsEmpty() && !v.LowerInfinite() && !v.UpperInfinite()
    requires !st.isDbNull(v.lower) && !st.isDbNull(v.upper)
    ensures var (size, state) := GetSize(st, v, None);
            var e := Write(st, v, state);
            |e.bytes| == size.byteCount && ReadAt(st, e.bytes, 0) == Ok((v, |e.bytes|))
  {
    RoundTripWith(st, v, [], false);
    assert Write(st, v, GetSize(st, v, None).1).bytes + [] == Write(st, v, GetSize(st, v, None).1).bytes;
    assert NormalizedFlags(st, v) == v.flags;
  }

  /** One bound on a `PgWriter`: the recorded length, then the nested write of the value. */
  method WriteBoundTo<T, W>(writer: PgWriter, st: Subtype<T, W>, x: T, size: Size, nested: Option<W>, infinite: bool)
    returns (r: Result<Unit>)
    requires writer.Valid() && writer.capacity >= 4
    modifies writer`pending, writer`sent
    ensures writer.Valid()
    ensures r == WriteBound(st, x, size, nested, infinite).result
    ensures writer.Output() == old(writer.Output()) + WriteBound(st, x, size, nested, infinite).bytes
  {
    if infinite {
      return Ok(Unit);
    }
    if !size.IsKnown() {
      return Err(InvalidOperation);
    }
    var _ := writer.Ensure(4);
    writer.WriteInt32(Wrap32(size.byteCount));
    writer.WriteBytes(st.write(x, nested));
    return Ok(Unit);
  }

  /**
   * `Write` on a `PgWriter`: the flags byte, then each finite bound's length and nested
   * payload, flushing the buffer whenever the next item does not fit.
   */
  method WriteTo<T, W>(writer: PgWriter, st: Subtype<T, W>, v: RangeValue<T>, state: Option<WriteState<W>>)
    returns (r: Result<Unit>)
    requires writer.Valid() && writer.capacity >= 4
    modifies writer`pending, writer`sent
    ensures writer.Valid()
    ensures r == Write(st, v, state).result
    ensures writer.Output() == old(writer.Output()) + Write(st, v, state).bytes
  {
    ghost var start := writer.Output();
    var flags := WrittenFlags(v, LowerSizeOf(state), UpperSizeOf(state));
    var _ := writer.Ensure(1);
    writer.WriteByte(FlagsByte(flags));
    if v.IsEmpty() {
      return Ok(Unit);
    }
    ghost var head := [FlagsByte(flags)];
    ghost var lower := WriteBound(st, v.lower, LowerSizeOf(state), if state.Some? then state.value.lowerState else None,
                                  HasFlag(flags, LowerBoundInfinite));
    r := WriteBoundTo(writer, st, v.lower, LowerSizeOf(state), if state.Some? then state.value.lowerState else None,
                      HasFlag(flags, LowerBoundInfinite));
    AppendAssoc(start, head, lower.bytes);
    if r.Err? {
      return;
    }
    ghost var upper := WriteBound(st, v.upper, UpperSizeOf(state), if state.Some? then state.value.upperState else None,
                                  HasFlag(flags, UpperBoundInfinite));
    r := WriteBoundTo(writer, st, v.upper, UpperSizeOf(state), if state.Some? then state.value.upperState else None,
                      HasFlag(flags, UpperBoundInfinite));
    AppendAssoc(start, head + lower.bytes, upper.bytes);
  }

  /** One bound read from a `ReadBuffer`, as `ReadBound` specifies. */
  method ReadBoundFrom<T, W>(buf: ReadBuffer, st: Subtype<T, W>, infinite: bool) returns (r: Result<T>)
    requires buf.readPosition <= |buf.data|
    modifies buf`readPosition
    ensures var spec := ReadBound(st, buf.data, old(buf.readPosition), infinite);
            (r.Ok? <==> spec.Ok?) && (r.Ok? ==> r.value == spec.value.0 && buf.readPosition == spec.value.1)
  {
    if infinite {
      return Ok(st.defaultValue);
    }
    var length := buf.ReadInt32();
    if length.Err? {
      return Err(length.error);
    }
    if length.value == -1 {
      return Ok(st.defaultValue);
    }
    if length.value < 0 || buf.ReadBytesLeft() < length.value {
      return Err(EndOfData);
    }
    var payload := buf.Read(length.value);
    return Ok(st.read(payload));
  }

  /** `Read` from a `ReadBuffer`, as `ReadAt` specifies, leaving the position after the range. */
  method ReadFrom<T, W>(buf: ReadBuffer, st: Subtype<T, W>) returns (r: Result<RangeValue<T>>)
    requires buf.readPosition <= |buf.data|
    modifies buf`readPosition
    ensures var spec := ReadAt(st, buf.data, old(buf.readPosition));
            (r.Ok? <==> spec.Ok?) && (r.Ok? ==> r.value == spec.value.0 && buf.readPosition == spec.value.1)
  {
    var b := buf.ReadByte();
    if b.Err? {
      return Err(b.error);
    }
    var flags := FlagsOf(b.value);
    if HasFlag(flags, EmptyFlag) {
      return Ok(EmptyRange(st.defaultValue));
    }
    var lower := ReadBoundFrom(buf, st, HasFlag(flags, LowerBoundInfinite));
    if lower.Err? {
      return Err(lower.error);
    }
    var upper := ReadBoundFrom(buf, st, HasFlag(flags, UpperBoundInfinite));
    if upper.Err? {
      return Err(upper.error);
    }
    return Ok(RangeValue(lower.value, upper.value, flags));
  }

  /**
   * `RangeConverterResolver.GetEffectiveResolution`: each finite bound is resolved, the
   * upper one against the lower one's id. When the lower bound is infinite the expected
   * id is not passed on to the upper bound.
   */
  function EffectiveResolution<T>(effective: EffectiveInfo<T>, v: RangeValue<T>, expected: Option<PgTypeId>)
    : (r: Option<Resolution>)
    ensures v.LowerInfinite() && v.UpperInfinite() ==> r.None?
    ensures !v.LowerInfinite() && v.UpperInfinite() ==> r == Some(effective.getResolution(v.lower, expected))
    ensures !v.LowerInfinite() && !v.UpperInfinite() ==>
              r == Some(effective.getResolution(v.upper, Some(effective.getResolution(v.lower, expected).pgTypeId)))
    ensures v.LowerInfinite() && !v.UpperInfinite() ==> r == Some(effective.getResolution(v.upper, None))
  {
    var lower := if !v.LowerInfinite() then Some(effective.getResolution(v.lower, expected)) else None;
    if !v.UpperInfinite() then Some(effective.getResolution(v.upper, if lower.Some? then Some(lower.value.pgTypeId) else None))
    else lower
  }

  /**
   * The range resolver's outer id is the range type of the subtype's id when it has one;
   * the constructor check cannot then fail.
   */
  function RangeResolverId(effectiveId: Option<PgTypeId>, rangeOf: PgTypeId -> PgTypeId): (r: Option<PgTypeId>)
    ensures r.Some? <==> effectiveId.Some?
    ensures r.Some? ==> r.value == rangeOf(effectiveId.value)
    ensures ConstructorCheck(r, effectiveId).Ok?
  {
    if effectiveId.Some? then Some(rangeOf(effectiveId.value)) else None
  }
}
