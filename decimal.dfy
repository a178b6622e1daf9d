/** Decimal rendering of natural numbers, as `format!("{}", n)` produces it
    for the token id that a mint derives when none is given, with the
    parser that inverts it. */
module Decimal {

  predicate IsDigit(c: char) { '0' <= c <= '9' }

  predicate IsDigits(s: string) { forall i :: 0 <= i < |s| ==> IsDigit(s[i]) }

  /** The shape of a rendered natural number: at least one digit, digits only,
      and no leading zero unless the number is zero itself. */
  predicate IsCanonical(s: string) {
    |s| >= 1 && IsDigits(s) && (s[0] == '0' ==> |s| == 1)
  }

  function DigitChar(d: nat): (c: char)
    requires d < 10
    ensures IsDigit(c)
  {
    ('0' as int + d) as char
  }

  function DigitValue(c: char): (d: nat)
    requires IsDigit(c)
    ensures d < 10
  {
    c as int - '0' as int
  }

  /** The decimal string of `n`: canonical, and starting with '0' exactly
      when `n` is zero. */
  function DecimalString(n: nat): (s: string)
    ensures IsCanonical(s)
    ensures s[0] == '0' <==> n == 0
    decreases n
  {
    if n < 10 then [DigitChar(n)] else DecimalString(n / 10) + [DigitChar(n % 10)]
  }

  /** The number a string of digits denotes (most significant digit first). */
  function DecimalValue(s: string): nat
    requires IsDigits(s)
  {
    if s == [] then 0 else DecimalValue(s[..|s| - 1]) * 10 + DigitValue(s[|s| - 1])
  }

  /** Reading back a rendered number gives the number. */
  lemma {:induction false} DecimalRoundTrip(n: nat)
    ensures DecimalValue(DecimalString(n)) == n
    decreases n
  {
    var s := DecimalString(n);
    if n < 10 {
      assert s[..|s| - 1] == [];
    } else {
      DecimalRoundTrip(n / 10);
      assert s[..|s| - 1] == DecimalString(n / 10);
    }
  }

  /** A non-empty digit string denotes at least its leading digit. */
  lemma {:induction false} LeadingDigitBound(s: string)
    requires |s| >= 1 && IsDigits(s)
    ensures DecimalValue(s) >= DigitValue(s[0])
    decreases |s|
  {
    if |s| > 1 {
      var p := s[..|s| - 1];
      assert p[0] == s[0];
      LeadingDigitBound(p);
    }
  }

  /** Rendering the number a canonical string denotes gives back that string,
      so two different canonical strings never name the same number. */
  lemma {:induction false} DecimalParseRoundTrip(s: string)
    requires IsCanonical(s)
    ensures DecimalString(DecimalValue(s)) == s
    decreases |s|
  {
    var last := s[|s| - 1];
    var p := s[..|s| - 1];
    if |s| == 1 {
      assert p == [];
      assert DigitChar(DigitValue(last)) == last;
      assert s == [last];
    } else {
      assert p[0] == s[0];
      assert IsCanonical(p);
      DecimalParseRoundTrip(p);
      LeadingDigitBound(p);
      var n := DecimalValue(s);
      assert n == DecimalValue(p) * 10 + DigitValue(last);
      assert n / 10 == DecimalValue(p) && n % 10 == DigitValue(last);
      assert DigitChar(DigitValue(last)) == last;
      assert s == p + [last];
    }
  }
}
