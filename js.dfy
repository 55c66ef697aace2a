/**
 * The slice of JavaScript semantics the client relies on: truthiness of the
 * optional fields it tests with `if (x)` or `x || default`, and the string
 * form `${n}` of an integer-valued number.
 *
 * Numbers are modelled as mathematical integers; NaN, infinities,
 * fractions and exponent notation are outside the model.
 */
module Js {
  import opened Wrappers

  // ---------------------------------------------------------------------
  // Truthiness. An absent field (`undefined`) is falsy, as are "", 0 and false.
  // ---------------------------------------------------------------------

  /** A string-typed field is truthy iff present and non-empty. */
  predicate TruthyString(o: Option<string>) {
    o.Some? && |o.value| > 0
  }

  /** A number-typed field is truthy iff present and non-zero. */
  predicate TruthyNumber(o: Option<int>) {
    o.Some? && o.value != 0
  }

  /** A boolean-typed field is truthy iff present and true. */
  predicate TruthyBoolean(o: Option<bool>) {
    o == Some(true)
  }

  /** An array is an object, so it is truthy whenever present, even when empty. */
  predicate TruthyArray<T>(o: Option<seq<T>>) {
    o.Some?
  }

  /** `x || fallback` on a number-typed field. */
  function NumberOr(o: Option<int>, fallback: int): (r: int)
    ensures TruthyNumber(o) ==> r == o.value
    ensures !TruthyNumber(o) ==> r == fallback
  {
    if TruthyNumber(o) then o.value else fallback
  }

  /** A field as the client sees it after a truthiness test: falsy values read as absent. */
  function KeepString(o: Option<string>): Option<string> {
    if TruthyString(o) then o else None
  }

  function KeepNumber(o: Option<int>): Option<int> {
    if TruthyNumber(o) then o else None
  }

  function KeepBoolean(o: Option<bool>): Option<bool> {
    if TruthyBoolean(o) then o else None
  }

  // ---------------------------------------------------------------------
  // Decimal digits.
  // ---------------------------------------------------------------------

  predicate IsDigit(c: char) {
    '0' <= c <= '9'
  }

  predicate AllDigits(s: string) {
    forall i | 0 <= i < |s| :: IsDigit(s[i])
  }

  /** One or more digits, and no leading zero unless the string is "0". */
  predicate Canonical(s: string) {
    |s| > 0 && AllDigits(s) && (s[0] == '0' ==> |s| == 1)
  }

  function DigitChar(d: nat): (c: char)
    requires d < 10
    ensures IsDigit(c) && DigitValue(c) == d
  {
    ('0' as int + d) as char
  }

  function DigitValue(c: char): (d: nat)
    requires IsDigit(c)
    ensures d < 10
  {
    c as int - '0' as int
  }

  /** The decimal digits of a natural number, most significant first. */
  function NatDigits(n: nat): (s: string)
    ensures Canonical(s)
    ensures s[|s| - 1] == DigitChar(n % 10)
    decreases n
  {
    if n < 10 then [DigitChar(n)] else NatDigits(n / 10) + [DigitChar(n % 10)]
  }

  /** The value of a string of decimal digits (leading zeros allowed); "" is 0. */
  function ParseNat(s: string): (n: nat)
    requires AllDigits(s)
    decreases |s|
  {
    if s == [] then 0
    else ParseNat(s[..|s| - 1]) * 10 + DigitValue(s[|s| - 1])
  }

  /** The template literal `${n}` of an integer-valued number. */
  function DecimalString(n: int): (s: string)
  {
    if n < 0 then "-" + NatDigits(-n) else NatDigits(n)
  }

  /** Reading the text `DecimalString` produces back into a number; None for any other text. */
  function ParseDecimal(s: string): (r: Option<int>)
  {
    if |s| > 1 && s[0] == '-' && Canonical(s[1..]) && s[1..] != "0" then Some(0 - ParseNat(s[1..]))
    else if Canonical(s) then Some(ParseNat(s))
    else None
  }

  // ---------------------------------------------------------------------
  // Lemmas: `${n}` and its reading are inverse bijections between the
  // integers and the canonical decimal texts.
  // ---------------------------------------------------------------------

  lemma {:induction false} ParseNatOfNatDigits(n: nat)
    ensures ParseNat(NatDigits(n)) == n
    decreases n
  {
    var s := NatDigits(n);
    if n >= 10 {
      assert s[..|s| - 1] == NatDigits(n / 10);
      ParseNatOfNatDigits(n / 10);
    }
  }

  /** A canonical text of two or more digits denotes at least 10. */
  lemma {:induction false} ParseNatLowerBound(s: string)
    requires Canonical(s) && |s| > 1
    ensures ParseNat(s) >= 10
    decreases |s|
  {
    var t := s[..|s| - 1];
    assert t[0] == s[0];
    if |t| > 1 {
      ParseNatLowerBound(t);
    } else {
      assert DigitValue(t[0]) >= 1;
    }
  }

  lemma {:induction false} NatDigitsOfParseNat(s: string)
    requires Canonical(s)
    ensures NatDigits(ParseNat(s)) == s
    decreases |s|
  {
    var n := ParseNat(s);
    if |s| == 1 {
      assert s[..0] == [];
    } else {
      var t := s[..|s| - 1];
      assert t[0] == s[0];
      ParseNatLowerBound(s);
      NatDigitsOfParseNat(t);
      assert n / 10 == ParseNat(t) && n % 10 == DigitValue(s[|s| - 1]);
      assert s == t + [s[|s| - 1]];
    }
  }

  lemma DecimalStringRoundTrip(n: int)
    ensures ParseDecimal(DecimalString(n)) == Some(n)
  {
    var s := DecimalString(n);
    if n < 0 {
      assert s[1..] == NatDigits(-n);
      ParseNatOfNatDigits(-n);
      assert s[1..] != "0";
    } else {
      ParseNatOfNatDigits(n);
    }
  }

  lemma ParseDecimalRoundTrip(s: string, n: int)
    requires ParseDecimal(s) == Some(n)
    ensures DecimalString(n) == s
  {
    if |s| > 1 && s[0] == '-' && Canonical(s[1..]) && s[1..] != "0" {
      NatDigitsOfParseNat(s[1..]);
      assert s == "-" + s[1..];
    } else {
      NatDigitsOfParseNat(s);
    }
  }

  /** Distinct numbers have distinct string forms. */
  lemma DecimalStringInjective(m: int, n: int)
    requires DecimalString(m) == DecimalString(n)
    ensures m == n
  {
    DecimalStringRoundTrip(m);
    DecimalStringRoundTrip(n);
  }

  /** `${n}` is a digit string exactly when n is not negative. */
  lemma DecimalStringDigits(n: int)
    ensures AllDigits(DecimalString(n)) <==> n >= 0
  {
    if n < 0 {
      assert !IsDigit(DecimalString(n)[0]);
    }
  }
}
