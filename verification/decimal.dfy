/**
 * Decimal text of non-negative integers, as JavaScript's `Number#toString()` and
 * template literals print a safe integer, and the inverse reading of an ASCII digit run.
 */
module Decimal {

  /** An ASCII digit, the class `\d` matches in a JavaScript regular expression without the `u` flag. */
  predicate IsDigit(c: char) {
    '0' <= c <= '9'
  }

  predicate AllDigits(s: string) {
    forall i :: 0 <= i < |s| ==> IsDigit(s[i])
  }

  function DigitChar(d: nat): (c: char)
    requires d < 10
    ensures IsDigit(c)
  {
    ('0' as int + d) as char
  }

  function DigitValue(c: char): (d: nat)
    requires IsDigit(c)
    ensures d < 10 && DigitChar(d) == c
  {
    c as int - '0' as int
  }

  function Pow10(k: nat): (p: nat)
    ensures p >= 1
  {
    if k == 0 then 1 else 10 * Pow10(k - 1)
  }

  /** The decimal text of `n`: digits only, and a leading zero only for zero itself. */
  function FromNat(n: nat): (s: string)
    ensures |s| >= 1 && AllDigits(s)
    ensures s[0] == '0' <==> n == 0
  {
    if n < 10 then [DigitChar(n)] else FromNat(n / 10) + [DigitChar(n % 10)]
  }

  /** The value of a digit run, most significant digit first; the empty run reads as zero. */
  function ToNat(s: string): nat
    requires AllDigits(s)
  {
    if s == [] then 0 else ToNat(s[..|s| - 1]) * 10 + DigitValue(s[|s| - 1])
  }

  /** Reading back the printed text gives the number that was printed. */
  lemma {:induction false} ToNatFromNat(n: nat)
    ensures ToNat(FromNat(n)) == n
  {
    var s := FromNat(n);
    if n >= 10 {
      var t := FromNat(n / 10);
      assert s[..|s| - 1] == t;
      ToNatFromNat(n / 10);
    }
  }

  /** Printing is injective, so two different numbers never print the same text. */
  lemma FromNatInjective(m: nat, n: nat)
    requires m != n
    ensures FromNat(m) != FromNat(n)
  {
    ToNatFromNat(m);
    ToNatFromNat(n);
  }

  /** A number with exactly `k` significant digits prints as `k` characters. */
  lemma {:induction false} FromNatLength(n: nat, k: nat)
    requires 1 <= k && (k == 1 || Pow10(k - 1) <= n) && n < Pow10(k)
    ensures |FromNat(n)| == k
  {
    if n >= 10 {
      assert k != 1;
      FromNatLength(n / 10, k - 1);
    }
  }

  /** Every number from 100000 to 999999 prints as six digits, the first of them not zero. */
  lemma SixDigits(n: nat)
    requires 100000 <= n <= 999999
    ensures |FromNat(n)| == 6 && AllDigits(FromNat(n)) && FromNat(n)[0] != '0'
  {
    assert Pow10(5) == 100000 && Pow10(6) == 1000000;
    FromNatLength(n, 6);
  }
}
