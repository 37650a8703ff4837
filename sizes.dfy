/**
 * `Size`: a byte count that is Unknown, Exact or an UpperBound.
 * The constructor is private in the driver; values come from the factories below.
 */
module Sizes {
  import opened Wrappers

  datatype SizeKind = Unknown | Exact | UpperBound

  datatype Size = Size(byteCount: int, kind: SizeKind) {
    predicate IsKnown() { kind != Unknown }

    /** `Value`: the stored count, or InvalidOperationException for an Unknown size. */
    function Value(): (r: Result<int>)
      ensures r.Ok? <==> IsKnown()
      ensures r.Ok? ==> r.value == byteCount
      ensures r.Err? ==> r.error == InvalidOperation
    {
      if kind == Unknown then Err(InvalidOperation) else Ok(byteCount)
    }

    /** `Combine`: the receiver when either side is Unknown, otherwise the Exact sum. */
    function Combine(other: Size): (r: Size)
      ensures !IsKnown() || !other.IsKnown() ==> r == this
      ensures IsKnown() && other.IsKnown() ==> r.kind == Exact && r.Value() == Ok(byteCount + other.byteCount)
    {
      if kind == Unknown || other.kind == Unknown then this
      else Create(byteCount + other.byteCount)
    }
  }

  /** `Create`, also the implicit conversion from int. */
  function Create(n: int): (r: Size)
    ensures r.kind == Exact && r.Value() == Ok(n)
  {
    Size(n, Exact)
  }

  function CreateUpperBound(n: int): (r: Size)
    ensures r.kind == UpperBound && r.Value() == Ok(n)
  {
    Size(n, UpperBound)
  }

  /** `Size.Unknown`: the default count with kind Unknown. */
  const UnknownSize: Size := Size(0, Unknown)

  const Zero: Size := Size(0, Exact)

  lemma FactoriesAgree(n: int)
    ensures Create(n) == Size(n, Exact) && CreateUpperBound(n) == Size(n, UpperBound)
    ensures Zero == Create(0)
    ensures UnknownSize.Value() == Err(InvalidOperation)
  {
  }

  /** An Unknown receiver absorbs anything, but an Unknown argument is dropped: `Combine` is not symmetric. */
  lemma CombineUnknown(s: Size)
    ensures UnknownSize.Combine(s) == UnknownSize
    ensures s.Combine(UnknownSize) == s
  {
  }

  /** Two known sizes give the Exact sum whatever their kinds; an UpperBound operand is not preserved. */
  lemma CombineKnown(a: Size, b: Size)
    requires a.IsKnown() && b.IsKnown()
    ensures a.Combine(b).kind == Exact
    ensures a.Combine(b).Value() == Ok(a.byteCount + b.byteCount)
  {
  }

  /** Combining with `Zero` keeps a known count and normalises its kind to Exact. */
  lemma CombineZero(s: Size)
    requires s.IsKnown()
    ensures s.Combine(Zero) == Create(s.byteCount)
    ensures Zero.Combine(s) == Create(s.byteCount)
  {
  }

  /** A running total `start.Combine(s0).Combine(s1)...` as the converters accumulate one. */
  function CombineAll(start: Size, sizes: seq<Size>): Size
    decreases |sizes|
  {
    if sizes == [] then start else CombineAll(start.Combine(sizes[0]), sizes[1..])
  }

  function KnownCount(sizes: seq<Size>): int
  {
    if sizes == [] then 0
    else (if sizes[0].IsKnown() then sizes[0].byteCount else 0) + KnownCount(sizes[1..])
  }

  /**
   * A running total that starts known never becomes Unknown: it is the Exact
   * sum of the known parts, and every Unknown part is silently skipped.
   */
  lemma {:induction false} CombineAllSkipsUnknown(start: Size, sizes: seq<Size>)
    requires start.IsKnown()
    ensures CombineAll(start, sizes).IsKnown()
    ensures CombineAll(start, sizes).byteCount == start.byteCount + KnownCount(sizes)
    decreases |sizes|
  {
    if sizes != [] {
      CombineAllSkipsUnknown(start.Combine(sizes[0]), sizes[1..]);
    }
  }

  /** A running total that starts Unknown stays Unknown. */
  lemma {:induction false} CombineAllFromUnknown(sizes: seq<Size>)
    ensures CombineAll(UnknownSize, sizes) == UnknownSize
    decreases |sizes|
  {
    if sizes != [] {
      CombineAllFromUnknown(sizes[1..]);
    }
  }
}
