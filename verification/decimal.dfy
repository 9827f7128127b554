/** Decimal rendering of a non-negative integer, as a JavaScript template
    literal renders the millisecond clock reading, and its inverse. */
module Decimal {

  predicate IsDigit(c: char) {
    '0' <= c <= '9'
  }

  predicate AllDigits(s: string) {
    forall i :: 0 <= i < |s| ==> IsDigit(s[i])
  }

  /** The shortest rendering: non-empty, and no leading zero unless it is "0". */
  predicate Canonical(s: string) {
    && |s| > 0
    && AllDigits(s)
    && (s[0] != '0' || s == "0")
  }

  function DigitValue(c: char): (d: nat)
    requires IsDigit(c)
    ensures d < 10
  {
    c as int - '0' as int
  }

  function DigitChar(d: nat): (c: char)
    requires d < 10
    ensures IsDigit(c) && DigitValue(c) == d
    ensures (c == '0') == (d == 0)
  {
    ('0' as int + d) as char
  }

  /** The number a string of digits denotes, most significant digit first. */
  function Value(s: string): nat
    requires AllDigits(s)
  {
    if |s| == 0 then 0 else 10 * Value(s[..|s| - 1]) + DigitValue(s[|s| - 1])
  }

  /** `${n}` for a non-negative integer `n`. */
  function ToDecimal(n: nat): (r: string)
    ensures Canonical(r)
    ensures (r == "0") == (n == 0)
    decreases n
  {
    if n < 10 then [DigitChar(n)] else ToDecimal(n / 10) + [DigitChar(n % 10)]
  }

  /** Reading the rendering back gives the number. */
  lemma {:induction false} ValueOfToDecimal(n: nat)
    ensures Value(ToDecimal(n)) == n
    decreases n
  {
    if n >= 10 {
      ValueOfToDecimal(n / 10);
      var r := ToDecimal(n);
      assert r[..|r| - 1] == ToDecimal(n / 10);
    }
  }

  /** Different numbers render differently. */
  lemma ToDecimalInjective(m: nat, n: nat)
    ensures ToDecimal(m) == ToDecimal(n) ==> m == n
  {
    ValueOfToDecimal(m);
    ValueOfToDecimal(n);
  }

  /** A canonical string starting with a non-zero digit denotes a positive number. */
  lemma {:induction false} ValuePositive(s: string)
    requires |s| > 0 && AllDigits(s) && s[0] != '0'
    ensures Value(s) > 0
    decreases |s|
  {
    if |s| > 1 {
      var t := s[..|s| - 1];
      assert t[0] == s[0];
      ValuePositive(t);
    }
  }

  /** Every canonical string is the rendering of the number it denotes. */
  lemma {:induction false} ToDecimalOfValue(s: string)
    requires Canonical(s)
    ensures ToDecimal(Value(s)) == s
    decreases |s|
  {
    if |s| > 1 {
      var t := s[..|s| - 1];
      assert t[0] == s[0];
      ValuePositive(t);
      ToDecimalOfValue(t);
      var n := Value(s);
      assert n / 10 == Value(t) && n % 10 == DigitValue(s[|s| - 1]);
      assert s == t + [s[|s| - 1]];
    }
  }
}
