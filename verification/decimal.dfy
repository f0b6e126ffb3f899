/** Decimal rendering of non-negative integers, as Python's `f"{n}"` writes
    them, together with the reading that undoes it. The chat session id of a
    channel is the decimal rendering of the channel's id. */
module Decimal {

  predicate IsDigit(c: char) {
    '0' <= c <= '9'
  }

  predicate AllDigits(s: string) {
    forall i :: 0 <= i < |s| ==> IsDigit(s[i])
  }

  function DigitValue(c: char): (d: nat)
    requires IsDigit(c)
    ensures d < 10
  {
    c as int - '0' as int
  }

  function DigitChar(d: nat): (c: char)
    requires d < 10
    ensures IsDigit(c)
    ensures DigitValue(c) == d
  {
    ('0' as int + d) as char
  }

  /** The decimal numeral of `n`: digits only, never empty, no leading zero. */
  function FromNat(n: nat): (s: string)
    ensures |s| >= 1
    ensures AllDigits(s)
    ensures n == 0 ==> s == "0"
    ensures n > 0 ==> s[0] != '0'
    decreases n
  {
    if n < 10 then [DigitChar(n)] else FromNat(n / 10) + [DigitChar(n % 10)]
  }

  /** The number a string of digits denotes. */
  function ToNat(s: string): (n: nat)
    requires AllDigits(s)
    decreases |s|
  {
    if s == [] then 0 else ToNat(s[..|s| - 1]) * 10 + DigitValue(s[|s| - 1])
  }

  /** Reading a rendered numeral gives back the number. */
  lemma {:induction false} RoundTrip(n: nat)
    ensures ToNat(FromNat(n)) == n
    decreases n
  {
    if n >= 10 {
      var s := FromNat(n);
      assert s[..|s| - 1] == FromNat(n / 10);
      RoundTrip(n / 10);
    }
  }

  /** A numeral as `FromNat` writes it: digits only, non-empty, and without
      a leading zero unless it is "0" itself. */
  predicate Canonical(s: string) {
    AllDigits(s) && |s| >= 1 && (|s| > 1 ==> s[0] != '0')
  }

  /** A numeral without a leading zero denotes a positive number. */
  lemma {:induction false} PositiveWithoutLeadingZero(s: string)
    requires AllDigits(s) && |s| >= 1 && s[0] != '0'
    ensures ToNat(s) >= 1
    decreases |s|
  {
    if |s| > 1 {
      PositiveWithoutLeadingZero(s[..|s| - 1]);
    }
  }

  /** Rendering the number a canonical numeral denotes gives the numeral
      back, so every number has exactly one canonical numeral. */
  lemma {:induction false} CanonicalRoundTrip(s: string)
    requires Canonical(s)
    ensures FromNat(ToNat(s)) == s
    decreases |s|
  {
    var t := s[..|s| - 1];
    var c := s[|s| - 1];
    if |s| == 1 {
      assert t == [];
      assert DigitChar(DigitValue(c)) == c;
    } else {
      PositiveWithoutLeadingZero(t);
      CanonicalRoundTrip(t);
      var n := ToNat(s);
      assert n == ToNat(t) * 10 + DigitValue(c);
      assert n / 10 == ToNat(t) && n % 10 == DigitValue(c);
      assert DigitChar(DigitValue(c)) == c;
      assert s == t + [c];
    }
  }

  /** Distinct numbers are rendered as distinct numerals. */
  lemma Injective(a: nat, b: nat)
    ensures FromNat(a) == FromNat(b) ==> a == b
  {
    if FromNat(a) == FromNat(b) {
      RoundTrip(a);
      RoundTrip(b);
    }
  }
}
