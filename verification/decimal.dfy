/** Exact decimal helpers: the safe-integer test zod 4 applies with `.int()`, decimal
    rendering of integers, and `Number.prototype.toFixed(2)` over exact reals. */
module Decimal {

  /** `Number.MAX_SAFE_INTEGER`, 2^53 - 1. */
  const MaxSafeInteger: int := 0x1F_FFFF_FFFF_FFFF

  /** `Number.isSafeInteger` on a value already known to be whole. */
  predicate IsSafe(k: int) {
    -MaxSafeInteger <= k <= MaxSafeInteger
  }

  /** zod 4's `.int()`: the number has no fractional part and lies within the
      safe-integer range, so 2^53 is refused although it is whole. */
  predicate IsInt(x: real) {
    x.Floor as real == x && IsSafe(x.Floor)
  }

  /** Every safe integer passes `.int()`. */
  lemma WholeIsInt(k: int)
    requires IsSafe(k)
    ensures IsInt(k as real)
  {
  }

  /** The first whole number `.int()` refuses. */
  lemma TwoToThe53IsNotInt()
    ensures !IsInt((MaxSafeInteger + 1) as real)
    ensures IsInt(MaxSafeInteger as real)
  {
    WholeIsInt(MaxSafeInteger);
  }

  /** Negation keeps a number whole or fractional. */
  lemma NegatedIsInt(x: real)
    ensures IsInt(-x) <==> IsInt(x)
  {
    if IsInt(x) {
      var k := x.Floor;
      assert -x == (-k) as real;
      WholeIsInt(-k);
    }
    if IsInt(-x) {
      var k := (-x).Floor;
      assert x == (-k) as real;
      WholeIsInt(-k);
    }
  }

  predicate IsDigit(c: char) {
    '0' <= c <= '9'
  }

  function DigitChar(d: nat): (c: char)
    requires d < 10
    ensures IsDigit(c)
    ensures (c as int) - ('0' as int) == d
  {
    ['0', '1', '2', '3', '4', '5', '6', '7', '8', '9'][d]
  }

  function DigitValue(c: char): nat
    requires IsDigit(c)
  {
    (c as int) - ('0' as int)
  }

  /** The value of a string of decimal digits, most significant first. */
  function DigitsValue(s: string): nat
    requires forall i :: 0 <= i < |s| ==> IsDigit(s[i])
  {
    if |s| == 0 then 0 else DigitsValue(s[..|s| - 1]) * 10 + DigitValue(s[|s| - 1])
  }

  /** Decimal rendering of a natural number, as JavaScript prints it. */
  function NatToString(n: nat): (s: string)
    ensures 1 <= |s|
    ensures forall i :: 0 <= i < |s| ==> IsDigit(s[i])
    ensures |s| > 1 ==> s[0] != '0'
  {
    if n < 10 then [DigitChar(n)] else NatToString(n / 10) + [DigitChar(n % 10)]
  }

  /** Reading the rendering back gives the number: the rendering loses nothing. */
  lemma {:induction false} NatToStringRoundTrip(n: nat)
    ensures DigitsValue(NatToString(n)) == n
  {
    var s := NatToString(n);
    if n >= 10 {
      NatToStringRoundTrip(n / 10);
      assert s[..|s| - 1] == NatToString(n / 10);
    }
  }

  /** Distinct numbers render to distinct strings. */
  lemma NatToStringInjective(m: nat, n: nat)
    requires NatToString(m) == NatToString(n)
    ensures m == n
  {
    NatToStringRoundTrip(m);
    NatToStringRoundTrip(n);
  }

  /** Decimal rendering of an integer, with a leading minus sign when negative. */
  function IntToString(i: int): (s: string)
    ensures i < 0 <==> (|s| > 0 && s[0] == '-')
    ensures i >= 0 ==> s == NatToString(i)
    ensures i < 0 ==> s[1..] == NatToString(-i)
  {
    if i < 0 then "-" + NatToString(-i) else NatToString(i)
  }

  /** The whole number of hundredths nearest to `x`; a tie goes to the larger one,
      which is how `toFixed` picks its digits. */
  function RoundCents(x: real): (n: nat)
    requires x >= 0.0
    ensures (n as real) / 100.0 - 1.0 / 200.0 <= x < (n as real) / 100.0 + 1.0 / 200.0
  {
    (x * 100.0 + 0.5).Floor
  }

  /** Renders a count of hundredths as "<units>.<two digits>". */
  function CentsToString(n: nat): string {
    NatToString(n / 100) + "." + [DigitChar((n / 10) % 10), DigitChar(n % 10)]
  }

  /** A string of the form "<digits>.<two digits>". */
  predicate IsFixed2(s: string) {
    && |s| >= 4
    && s[|s| - 3] == '.'
    && (forall i :: 0 <= i < |s| - 3 ==> IsDigit(s[i]))
    && IsDigit(s[|s| - 2]) && IsDigit(s[|s| - 1])
  }

  /** Reads "<digits>.<two digits>" back as a count of hundredths. */
  function Fixed2Cents(s: string): nat
    requires IsFixed2(s)
  {
    DigitsValue(s[..|s| - 3]) * 100 + DigitValue(s[|s| - 2]) * 10 + DigitValue(s[|s| - 1])
  }

  /** The rendering of a count of hundredths is well formed and reads back to it. */
  lemma CentsToStringReadsBack(n: nat)
    ensures IsFixed2(CentsToString(n))
    ensures Fixed2Cents(CentsToString(n)) == n
  {
    var s := CentsToString(n);
    var units := NatToString(n / 100);
    assert s[..|s| - 3] == units;
    NatToStringRoundTrip(n / 100);
    assert n == (n / 100) * 100 + ((n / 10) % 10) * 10 + n % 10;
  }

  /** `x.toFixed(2)` computed on the exact value `x`: the sign is taken off first,
      the magnitude is rounded to hundredths, and the sign is put back (so a small
      negative number prints as "-0.00", as in JavaScript). The digits after the
      sign read back to the hundredth nearest the magnitude. */
  function ToFixed2(x: real): (s: string)
    ensures (|s| > 0 && s[0] == '-') <==> x < 0.0
    ensures var body := if x < 0.0 then s[1..] else s;
      && IsFixed2(body)
      && var shown := Fixed2Cents(body) as real / 100.0;
      && var magnitude := if x < 0.0 then -x else x;
      shown - 1.0 / 200.0 <= magnitude < shown + 1.0 / 200.0
  {
    var magnitude := if x < 0.0 then -x else x;
    var cents := CentsToString(RoundCents(magnitude));
    CentsToStringReadsBack(RoundCents(magnitude));
    var s := (if x < 0.0 then "-" else "") + cents;
    assert (if x < 0.0 then s[1..] else s) == cents;
    s
  }

  /** For an integer value the two decimals are zeros and the integer part is
      the plain decimal rendering. */
  lemma ToFixed2OfInteger(x: real)
    requires IsInt(x)
    ensures ToFixed2(x) == IntToString(x.Floor) + ".00"
  {
    var k := x.Floor;
    var magnitude := if x < 0.0 then -x else x;
    var n := RoundCents(magnitude);
    if x < 0.0 {
      assert magnitude == (-k) as real;
    } else {
      assert magnitude == k as real;
    }
    assert n == 100 * (if k < 0 then -k else k);
    assert n / 100 == (if k < 0 then -k else k);
    assert (n / 10) % 10 == 0 && n % 10 == 0;
    assert [DigitChar(0), DigitChar(0)] == "00";
  }
}
