/**
 * Names the driver generates for server-side prepared statements: a fixed prefix
 * ("_p", "_auto", "_ds") followed by a counter written in decimal, as .NET's
 * integer `ToString` writes it (no sign, no leading zeros).
 */
module StatementNames {
  function DigitChar(d: nat): (c: char)
    requires d < 10
    ensures '0' <= c <= '9'
  {
    "0123456789"[d]
  }

  function Decimal(n: nat): (s: string)
    ensures 1 <= |s|
    ensures forall k | 0 <= k < |s| :: '0' <= s[k] <= '9'
  {
    if n < 10 then [DigitChar(n)] else Decimal(n / 10) + [DigitChar(n % 10)]
  }

  /** A name made of the prefix followed by the counter's decimal digits. */
  function Numbered(prefix: string, n: nat): (r: string)
    ensures |r| > |prefix| && r[..|prefix|] == prefix
    ensures forall k | |prefix| <= k < |r| :: '0' <= r[k] <= '9'
  {
    prefix + Decimal(n)
  }

  lemma DigitCharInjective(a: nat, b: nat)
    requires a < 10 && b < 10 && DigitChar(a) == DigitChar(b)
    ensures a == b
  {
  }

  /** Only numbers of ten or more take two digits or more. */
  lemma DecimalLength(n: nat)
    ensures |Decimal(n)| == 1 <==> n < 10
  {
    if n >= 10 {
      assert |Decimal(n)| == |Decimal(n / 10)| + 1;
    }
  }

  /** Distinct counters are written differently. */
  lemma {:induction false} DecimalInjective(a: nat, b: nat)
    requires Decimal(a) == Decimal(b)
    ensures a == b
  {
    DecimalLength(a);
    DecimalLength(b);
    if a < 10 {
      DigitCharInjective(a, b);
    } else {
      var sa, sb := Decimal(a), Decimal(b);
      assert sa[|sa| - 1] == DigitChar(a % 10);
      assert sb[|sb| - 1] == DigitChar(b % 10);
      DigitCharInjective(a % 10, b % 10);
      assert sa[..|sa| - 1] == Decimal(a / 10);
      assert sb[..|sb| - 1] == Decimal(b / 10);
      DecimalInjective(a / 10, b / 10);
    }
  }

  /** Under one prefix, distinct counters give distinct names. */
  lemma NumberedInjective(prefix: string, a: nat, b: nat)
    requires a != b
    ensures Numbered(prefix, a) != Numbered(prefix, b)
  {
    if Numbered(prefix, a) == Numbered(prefix, b) {
      assert Decimal(a) == Numbered(prefix, a)[|prefix|..];
      assert Decimal(b) == Numbered(prefix, b)[|prefix|..];
      DecimalInjective(a, b);
    }
  }
}
