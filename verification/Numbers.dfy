/** Integer arithmetic the way the services do it, and decimal numerals as text. */
module Numbers {
  type Pos = n: int | n > 0 witness 1

  /** `Math.round(num / den)`: the nearest integer, a half going up. */
  function RoundHalfUp(num: int, den: int): (r: int)
    requires den > 0
    ensures 2 * den * r - den <= 2 * num < 2 * den * r + den
  {
    var q := (2 * num + den) / (2 * den);
    assert 2 * den * q <= 2 * num + den < 2 * den * q + 2 * den;
    q
  }

  lemma RoundHalfUpBounds(num: int, den: int)
    requires den > 0
    ensures den * (2 * RoundHalfUp(num, den) - 1) <= 2 * num < den * (2 * RoundHalfUp(num, den) + 1)
  {
    var r := RoundHalfUp(num, den);
    assert den * (2 * r - 1) == 2 * den * r - den && den * (2 * r + 1) == 2 * den * r + den;
  }

  lemma MulMonotone(k: int, a: int, b: int)
    requires k >= 0 && a <= b
    ensures k * a <= k * b
  {
  }

  /** A positive factor cancels. */
  lemma CancelFactor(q: int, a: int, b: int)
    requires q > 0
    ensures q * a < q * b <==> a < b
  {
    if a < b { MulMonotone(q, a + 1, b); } else { MulMonotone(q, b, a); }
  }

  lemma QuotientBounds(a: nat, d: int)
    requires d > 0
    ensures 0 <= a / d && d * (a / d) <= a < d * (a / d) + d
  {
    CancelFactor(d, a / d, 0);
  }

  /** The nearest integer is the only one the bounds admit. */
  lemma RoundHalfUpUnique(num: int, den: int, r: int)
    requires den > 0 && 2 * den * r - den <= 2 * num < 2 * den * r + den
    ensures r == RoundHalfUp(num, den)
  {
    var q, w := RoundHalfUp(num, den), 2 * den;
    if r < q {
      MulMonotone(w, r + 1, q);
    } else if r > q {
      MulMonotone(w, q + 1, r);
    }
  }

  /** BigInt division: the quotient is cut off toward zero. */
  function TruncDiv(a: int, b: int): int
    requires b > 0
  {
    if a >= 0 then a / b else -((-a) / b)
  }

  function Max(a: int, b: int): int { if a < b then b else a }

  function Min(a: int, b: int): int { if a <= b then a else b }

  function Abs(a: int): nat { if a < 0 then -a else a }

  predicate IsDigit(c: char) { '0' <= c <= '9' }

  predicate AllDigits(s: string) { forall k | 0 <= k < |s| :: IsDigit(s[k]) }

  function Digit(d: nat): (c: char)
    requires d < 10
    ensures IsDigit(c)
  {
    ('0' as int + d) as char
  }

  /** The text of `${n}` for a natural number. */
  function Decimal(n: nat): (s: string)
    ensures |s| > 0 && AllDigits(s)
  {
    if n < 10 then [Digit(n)] else Decimal(n / 10) + [Digit(n % 10)]
  }

  /** `parseInt` of a run of digits. */
  function ParseNat(s: string): nat
    requires AllDigits(s)
  {
    if s == "" then 0
    else ParseNat(s[..|s| - 1]) * 10 + (s[|s| - 1] as int - '0' as int)
  }

  lemma {:induction false} ParseDecimal(n: nat)
    ensures ParseNat(Decimal(n)) == n
  {
    var s := Decimal(n);
    if n < 10 {
      assert s[..0] == "";
    } else {
      assert s[..|s| - 1] == Decimal(n / 10);
      ParseDecimal(n / 10);
    }
  }

  lemma DecimalInjective(a: nat, b: nat)
    requires Decimal(a) == Decimal(b)
    ensures a == b
  {
    ParseDecimal(a);
    ParseDecimal(b);
  }

  /** A text splits at the last occurrence of a character in one way only. */
  lemma SplitAtLast(sep: char, a: string, b: string, c: string, d: string)
    requires sep !in b && sep !in d && a + [sep] + b == c + [sep] + d
    ensures a == c && b == d
  {
    var s := a + [sep] + b;
    assert s[|a|] == sep && s[|c|] == sep;
    assert forall i | |a| < i < |s| :: s[i] == b[i - |a| - 1];
    assert forall i | |c| < i < |s| :: s[i] == d[i - |c| - 1];
    assert s[..|a|] == a && s[..|c|] == c && s[|a| + 1..] == b && s[|c| + 1..] == d;
  }

  /** `String(n).padStart(2, '0')` */
  function PadTwo(n: nat): (s: string)
    ensures |s| >= 2 && AllDigits(s)
  {
    if n < 10 then "0" + Decimal(n) else Decimal(n)
  }

  /** The text of a year and a month, as in 2026-04. */
  function YearMonth(year: nat, month: nat): string { Decimal(year) + "-" + PadTwo(month) }

  lemma PadTwoHasNoDash(m: nat)
    ensures '-' !in PadTwo(m) && '-' !in Decimal(m)
  {
    assert AllDigits(Decimal(m));
  }

  lemma PadTwoInjective(m: nat, n: nat)
    requires PadTwo(m) == PadTwo(n)
    ensures m == n
  {
    if m < 10 && n < 10 {
      assert PadTwo(m)[1..] == Decimal(m) && PadTwo(n)[1..] == Decimal(n);
      DecimalInjective(m, n);
    } else if m >= 10 && n >= 10 {
      DecimalInjective(m, n);
    } else {
      DecimalNoLeadingZero(if m < 10 then n else m);
    }
  }

  lemma {:induction false} DecimalNoLeadingZero(n: nat)
    requires n > 0
    ensures Decimal(n)[0] != '0'
  {
    if n >= 10 { DecimalNoLeadingZero(n / 10); }
  }
}
