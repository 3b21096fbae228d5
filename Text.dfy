/** Decimal rendering of non-negative integers, as `int.ToString()` produces
    it (invariant culture: ASCII digits, no sign, no leading zeros). */
module Text {

  predicate IsDigit(c: char) {
    '0' <= c <= '9'
  }

  predicate AllDigits(s: string) {
    forall i :: 0 <= i < |s| ==> IsDigit(s[i])
  }

  function DigitChar(d: int): (c: char)
    requires 0 <= d < 10
    ensures IsDigit(c) && DigitValue(c) == d
  {
    ('0' as int + d) as char
  }

  function DigitValue(c: char): (d: int)
    requires IsDigit(c)
    ensures 0 <= d < 10
  {
    c as int - '0' as int
  }

  function DecimalString(n: nat): (s: string)
    ensures |s| >= 1 && AllDigits(s)
    ensures s[0] == '0' ==> n == 0
    decreases n
  {
    if n < 10 then [DigitChar(n)] else DecimalString(n / 10) + [DigitChar(n % 10)]
  }

  /** Reads a string of digits back as a number. */
  function ParseDecimal(s: string): nat
    requires AllDigits(s)
    decreases |s|
  {
    if s == [] then 0 else ParseDecimal(s[..|s| - 1]) * 10 + DigitValue(s[|s| - 1])
  }

  /** Rendering loses nothing: the digits read back as the number. */
  lemma {:induction false} ParseDecimalString(n: nat)
    ensures ParseDecimal(DecimalString(n)) == n
    decreases n
  {
    var s := DecimalString(n);
    if n >= 10 {
      ParseDecimalString(n / 10);
      assert s[..|s| - 1] == DecimalString(n / 10);
    }
  }

  function Pow10(k: nat): (p: nat)
    ensures p >= 1
  {
    if k == 0 then 1 else 10 * Pow10(k - 1)
  }

  /** A number with exactly k digits renders as k characters. */
  lemma {:induction false} DecimalLength(n: nat, k: nat)
    requires 1 <= k && (k == 1 || Pow10(k - 1) <= n) && n < Pow10(k)
    ensures |DecimalString(n)| == k
    decreases k
  {
    if k > 1 {
      Pow10Grows(k - 1);
      assert k - 1 == 1 || Pow10(k - 2) <= n / 10;
      DecimalLength(n / 10, k - 1);
    }
  }

  lemma {:induction false} Pow10Grows(k: nat)
    requires k >= 1
    ensures Pow10(k) >= 10
  {
    if k > 1 { Pow10Grows(k - 1); }
  }

  /** Every number from 100000 to 999999 renders as six digits. */
  lemma SixDigits(n: nat)
    requires 100000 <= n < 1000000
    ensures |DecimalString(n)| == 6 && AllDigits(DecimalString(n))
  {
    assert Pow10(5) == 100000 && Pow10(6) == 1000000;
    DecimalLength(n, 6);
  }
}
