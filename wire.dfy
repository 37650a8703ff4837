/**
 * Network byte order as used by the PostgreSQL binary protocol: a big-endian
 * two's-complement Int32 and reads from a byte sequence at a position.
 */
module Wire {
  import opened Wrappers

  type byte = x: int | 0 <= x < 256

  const TwoTo31: int := 0x8000_0000
  const TwoTo32: int := 0x1_0000_0000

  predicate IsInt32(n: int) { -TwoTo31 <= n < TwoTo31 }

  /** Wrap an unbounded integer into the 32-bit two's-complement range, as `unchecked` C# arithmetic does. */
  function Wrap32(n: int): (r: int)
    ensures IsInt32(r)
    ensures (r - n) % TwoTo32 == 0
    ensures IsInt32(n) ==> r == n
  {
    var u := n % TwoTo32;
    if u >= TwoTo31 then u - TwoTo32 else u
  }

  function Pow256(k: nat): (r: nat)
    ensures r > 0
  {
    if k == 0 then 1 else 256 * Pow256(k - 1)
  }

  /** The `k` low-order bytes of `u`, most significant first. */
  function BigEndian(u: nat, k: nat): (r: seq<byte>)
    ensures |r| == k
  {
    if k == 0 then [] else BigEndian(u / 256, k - 1) + [u % 256]
  }

  function FromBigEndian(s: seq<byte>): nat
  {
    if s == [] then 0 else FromBigEndian(s[..|s| - 1]) * 256 + s[|s| - 1]
  }

  lemma {:induction false} BigEndianRoundTrip(u: nat, k: nat)
    requires u < Pow256(k)
    ensures FromBigEndian(BigEndian(u, k)) == u
  {
    if k > 0 {
      var s := BigEndian(u, k);
      assert s[..|s| - 1] == BigEndian(u / 256, k - 1);
      BigEndianRoundTrip(u / 256, k - 1);
    }
  }

  /** Concatenation is associative; stated once so that proofs about growing outputs need not rediscover it. */
  lemma AppendAssoc<X>(a: seq<X>, b: seq<X>, c: seq<X>)
    ensures (a + b) + c == a + (b + c)
  {
  }

  /** A slice of `s` that holds `w` holds each slice of `w` at the same offset. */
  lemma SliceWithin<X>(s: seq<X>, pos: nat, w: seq<X>, a: nat, b: nat)
    requires pos + |w| <= |s| && s[pos..pos + |w|] == w && a <= b <= |w|
    ensures s[pos + a..pos + b] == w[a..b]
  {
    assert forall i | 0 <= i < b - a :: s[pos + a..pos + b][i] == w[a..b][i];
  }

  /** `SliceWithin` with the slice's bounds given as the caller writes them. */
  lemma SliceWithinAt<X>(s: seq<X>, pos: nat, w: seq<X>, a: nat, b: nat, from: nat, to: nat)
    requires pos + |w| <= |s| && s[pos..pos + |w|] == w && a <= b <= |w|
    requires from == pos + a && to == pos + b
    ensures to <= |s| && s[from..to] == w[a..b]
  {
    SliceWithin(s, pos, w, a, b);
  }

  /** Two consecutive parts laid out at `pos`, each found at its own offset. */
  lemma TwoPartsAt<X>(s: seq<X>, pos: nat, a: seq<X>, b: seq<X>, p1: nat, p2: nat)
    requires p1 == pos + |a| && p2 == p1 + |b|
    requires p2 <= |s| && s[pos..p2] == a + b
    ensures s[pos..p1] == a && s[p1..p2] == b
  {
    var w := a + b;
    assert w[0..|a|] == a && w[|a|..|w|] == b;
    SliceWithinAt(s, pos, w, 0, |a|, pos, p1);
    SliceWithinAt(s, pos, w, |a|, |w|, p1, p2);
  }

  /** Four consecutive parts laid out at `pos`, each found at its own offset. */
  lemma FourPartsAt<X>(s: seq<X>, pos: nat, a: seq<X>, b: seq<X>, c: seq<X>, d: seq<X>, p1: nat, p2: nat, p3: nat, p4: nat)
    requires p1 == pos + |a| && p2 == p1 + |b| && p3 == p2 + |c| && p4 == p3 + |d|
    requires p4 <= |s| && s[pos..p4] == a + b + c + d
    ensures s[pos..p1] == a && s[p1..p2] == b && s[p2..p3] == c && s[p3..p4] == d
  {
    var w := a + b + c + d;
    assert w[0..|a|] == a && w[|a|..|a| + |b|] == b;
    assert w[|a| + |b|..|a| + |b| + |c|] == c && w[|a| + |b| + |c|..|w|] == d;
    SliceWithinAt(s, pos, w, 0, |a|, pos, p1);
    SliceWithinAt(s, pos, w, |a|, |a| + |b|, p1, p2);
    SliceWithinAt(s, pos, w, |a| + |b|, |a| + |b| + |c|, p2, p3);
    SliceWithinAt(s, pos, w, |a| + |b| + |c|, |w|, p3, p4);
  }

  lemma Pow256Four()
    ensures Pow256(4) == TwoTo32
  {
    assert Pow256(1) == 256;
    assert Pow256(2) == 65536;
    assert Pow256(3) == 16777216;
  }

  /** `WriteInt32`: four bytes, big-endian two's complement. */
  function Int32Bytes(n: int): (r: seq<byte>)
    requires IsInt32(n)
    ensures |r| == 4
  {
    BigEndian(if n < 0 then n + TwoTo32 else n, 4)
  }

  /** `ReadInt32` on exactly four bytes. */
  function Int32Of(s: seq<byte>): (r: int)
    requires |s| == 4
  {
    var u := FromBigEndian(s);
    if u >= TwoTo31 then u - TwoTo32 else u
  }

  lemma Int32RoundTrip(n: int)
    requires IsInt32(n)
    ensures Int32Of(Int32Bytes(n)) == n
  {
    Pow256Four();
    BigEndianRoundTrip(if n < 0 then n + TwoTo32 else n, 4);
  }

  /** The Int32 at `pos`, or `EndOfData` when fewer than four bytes remain. */
  function ReadInt32At(s: seq<byte>, pos: nat): (r: Result<int>)
    ensures r.Ok? <==> pos + 4 <= |s|
    ensures r.Err? ==> r.error == EndOfData
  {
    if pos + 4 <= |s| then Ok(Int32Of(s[pos..pos + 4])) else Err(EndOfData)
  }

  lemma ReadInt32AtWritten(prefix: seq<byte>, n: int, rest: seq<byte>)
    requires IsInt32(n)
    ensures ReadInt32At(prefix + Int32Bytes(n) + rest, |prefix|) == Ok(n)
  {
    var s := prefix + Int32Bytes(n) + rest;
    assert s[|prefix|..|prefix| + 4] == Int32Bytes(n);
    Int32RoundTrip(n);
  }

  /** The `count` bytes at `pos`, or `EndOfData` when the input is shorter. */
  function ReadBytesAt(s: seq<byte>, pos: nat, count: nat): (r: Result<seq<byte>>)
    ensures r.Ok? <==> pos + count <= |s|
    ensures r.Ok? ==> |r.value| == count
  {
    if pos + count <= |s| then Ok(s[pos..pos + count]) else Err(EndOfData)
  }

  lemma ReadBytesAtWritten(prefix: seq<byte>, b: seq<byte>, rest: seq<byte>)
    ensures ReadBytesAt(prefix + b + rest, |prefix|, |b|) == Ok(b)
  {
    assert (prefix + b + rest)[|prefix|..|prefix| + |b|] == b;
  }
}
