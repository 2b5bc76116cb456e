/** Decimal spelling of non-negative integers: what JavaScript's `String(n)`
    produces for the user-id counter, and the value such a string denotes.
    The round trips between the two give the injectivity that makes issued
    user ids fresh. */
module Decimal {

  predicate IsDigit(c: char) {
    '0' <= c <= '9'
  }

  function DigitValue(c: char): (d: nat)
    requires IsDigit(c)
    ensures d < 10
  {
    c as int - '0' as int
  }

  function DigitChar(d: nat): (c: char)
    requires d < 10
    ensures IsDigit(c) && DigitValue(c) == d
  {
    ('0' as int + d) as char
  }

  lemma DigitRoundTrip(c: char)
    requires IsDigit(c)
    ensures DigitChar(DigitValue(c)) == c
  {
  }

  /** A non-empty string of decimal digits. */
  predicate IsDecimal(s: string) {
    |s| > 0 && forall i :: 0 <= i < |s| ==> IsDigit(s[i])
  }

  /** A decimal string without leading zeros ("0" itself excepted). */
  predicate IsCanonical(s: string) {
    IsDecimal(s) && (|s| > 1 ==> s[0] != '0')
  }

  /** `String(n)` for a non-negative integer `n`. */
  function Show(n: nat): (s: string)
    ensures IsCanonical(s)
    ensures (s[0] == '0') == (n == 0)
    ensures (|s| == 1) == (n < 10)
    decreases n
  {
    if n < 10 then [DigitChar(n)] else Show(n / 10) + [DigitChar(n % 10)]
  }

  /** The number a decimal string denotes. */
  function Value(s: string): (n: nat)
    requires IsDecimal(s)
    decreases |s|
  {
    var last := DigitValue(s[|s| - 1]);
    if |s| == 1 then last else 10 * Value(s[..|s| - 1]) + last
  }

  lemma {:induction false} ValueOfShow(n: nat)
    ensures Value(Show(n)) == n
    decreases n
  {
    if n >= 10 {
      var s := Show(n);
      assert s[..|s| - 1] == Show(n / 10);
      ValueOfShow(n / 10);
    }
  }

  lemma ShowInjective(m: nat, n: nat)
    ensures Show(m) == Show(n) <==> m == n
  {
    if Show(m) == Show(n) {
      ValueOfShow(m);
      ValueOfShow(n);
    }
  }

  lemma {:induction false} LeadingDigitNonZero(s: string)
    requires IsDecimal(s) && s[0] != '0'
    ensures Value(s) >= 1
    decreases |s|
  {
    if |s| > 1 {
      LeadingDigitNonZero(s[..|s| - 1]);
    }
  }

  lemma {:induction false} ShowOfValue(s: string)
    requires IsCanonical(s)
    ensures Show(Value(s)) == s
    decreases |s|
  {
    var c := s[|s| - 1];
    var d := DigitValue(c);
    DigitRoundTrip(c);
    if |s| > 1 {
      var p := s[..|s| - 1];
      assert p[0] == s[0];
      ShowOfValue(p);
      LeadingDigitNonZero(p);
      var v := Value(s);
      assert v == 10 * Value(p) + d;
      assert v / 10 == Value(p) && v % 10 == d;
      assert s == p + [c];
    }
  }
}
