/**
 * `NpgsqlRange<T>` and its `RangeFlags`, with the bit values of PostgreSQL's
 * `range_send`/`range_recv` flags byte.
 */
module Ranges {
  import opened Wire

  const EmptyFlag: bv8 := 0x01
  const LowerBoundInclusive: bv8 := 0x02
  const UpperBoundInclusive: bv8 := 0x04
  const LowerBoundInfinite: bv8 := 0x08
  const UpperBoundInfinite: bv8 := 0x10

  predicate HasFlag(flags: bv8, flag: bv8)
  {
    flags & flag != 0
  }

  /** The flags byte as it goes on the wire, and back. */
  function FlagsByte(flags: bv8): (r: byte)
  {
    flags as int
  }

  function FlagsOf(b: byte): (r: bv8)
  {
    b as bv8
  }

  lemma FlagsByteRoundTrip(flags: bv8)
    ensures FlagsOf(FlagsByte(flags)) == flags
  {
  }

  /** A range value: its two bounds and its flags byte. */
  datatype RangeValue<T> = RangeValue(lower: T, upper: T, flags: bv8)
  {
    predicate IsEmpty() { HasFlag(flags, EmptyFlag) }
    predicate LowerInfinite() { HasFlag(flags, LowerBoundInfinite) }
    predicate UpperInfinite() { HasFlag(flags, UpperBoundInfinite) }
  }

  /** `NpgsqlRange<T>.Empty`: default bounds and only the Empty flag. */
  function EmptyRange<T>(defaultValue: T): (r: RangeValue<T>)
    ensures r.IsEmpty() && !r.LowerInfinite() && !r.UpperInfinite()
  {
    RangeValue(defaultValue, defaultValue, EmptyFlag)
  }

  /**
   * Turns a bound into an infinite one, as PostgreSQL does for a null bound:
   * sets `inf`, clears `inc`, and leaves every other bit alone.
   */
  function MakeInfinite(flags: bv8, inc: bv8, inf: bv8): (r: bv8)
    requires (inc == LowerBoundInclusive && inf == LowerBoundInfinite)
             || (inc == UpperBoundInclusive && inf == UpperBoundInfinite)
    ensures HasFlag(r, inf) && !HasFlag(r, inc)
    ensures r & !(inc | inf) == flags & !(inc | inf)
  {
    (flags & !inc) | inf
  }

  /** Making the lower bound infinite leaves the Empty flag and the whole upper bound as they were. */
  lemma MakeLowerInfiniteKeepsOthers(flags: bv8)
    ensures HasFlag(MakeInfinite(flags, LowerBoundInclusive, LowerBoundInfinite), EmptyFlag) == HasFlag(flags, EmptyFlag)
    ensures HasFlag(MakeInfinite(flags, LowerBoundInclusive, LowerBoundInfinite), UpperBoundInfinite)
            == HasFlag(flags, UpperBoundInfinite)
    ensures HasFlag(MakeInfinite(flags, LowerBoundInclusive, LowerBoundInfinite), UpperBoundInclusive)
            == HasFlag(flags, UpperBoundInclusive)
  {
  }

  /** Making the upper bound infinite leaves the Empty flag and the whole lower bound as they were. */
  lemma MakeUpperInfiniteKeepsOthers(flags: bv8)
    ensures HasFlag(MakeInfinite(flags, UpperBoundInclusive, UpperBoundInfinite), EmptyFlag) == HasFlag(flags, EmptyFlag)
    ensures HasFlag(MakeInfinite(flags, UpperBoundInclusive, UpperBoundInfinite), LowerBoundInfinite)
            == HasFlag(flags, LowerBoundInfinite)
    ensures HasFlag(MakeInfinite(flags, UpperBoundInclusive, UpperBoundInfinite), LowerBoundInclusive)
            == HasFlag(flags, LowerBoundInclusive)
  {
  }
}
