/**
 * The id checks every id-taking call of the client makes before it builds a
 * request: the pattern `^\d+$` (and `^(me|\d+)$` for a customer) applied to
 * the template-literal string form of the argument. Without the `u` or `m`
 * flag, `\d` is exactly the ASCII digits and `$` matches only the end of
 * the text.
 */
module IdGuard {
  import opened Wrappers
  import opened Js

  /** An id argument typed `number | string` in the client. */
  datatype Id = NumberId(n: int) | StringId(s: string)

  /** The string form `${id}` the pattern is tested against and the path is built from. */
  function IdText(id: Id): string {
    match id
    case NumberId(n) => DecimalString(n)
    case StringId(s) => s
  }

  /** `^\d+$`: one or more ASCII digits and nothing else. */
  predicate IsIntegerLiteral(s: string) {
    |s| > 0 && AllDigits(s)
  }

  /** `^(me|\d+)$`: the literal "me" or an integer literal. */
  predicate IsCustomerId(s: string) {
    s == "me" || IsIntegerLiteral(s)
  }

  /**
   * A numeric id passes the check exactly when it is not negative, and its
   * string form then reads back as the same number.
   */
  lemma NumberIdAccepted(n: int)
    ensures IsIntegerLiteral(IdText(NumberId(n))) <==> n >= 0
    ensures ParseDecimal(IdText(NumberId(n))) == Some(n)
  {
    DecimalStringDigits(n);
    DecimalStringRoundTrip(n);
  }

  /** Any character that is not an ASCII digit makes a text fail `^\d+$`, and `^(me|\d+)$` unless it is "me". */
  lemma NonDigitRejected(s: string, i: int)
    requires 0 <= i < |s| && !IsDigit(s[i])
    ensures !IsIntegerLiteral(s)
    ensures IsCustomerId(s) <==> s == "me"
  {
  }

  /** Concrete readings of the two patterns: empty, signed, fractional, padded and alphabetic texts fail. */
  lemma PatternExamples()
    ensures !IsIntegerLiteral("") && !IsIntegerLiteral("abc") && !IsIntegerLiteral("-1")
    ensures !IsIntegerLiteral("1.5") && !IsIntegerLiteral(" 1") && !IsIntegerLiteral("1\n")
    ensures IsIntegerLiteral("0") && IsIntegerLiteral("007") && IsIntegerLiteral("42")
    ensures IsCustomerId("me") && !IsIntegerLiteral("me")
    ensures !IsCustomerId("") && !IsCustomerId("me1") && !IsCustomerId("ME") && !IsCustomerId("mee")
  {
    assert !IsDigit("abc"[0]) && !IsDigit("-1"[0]) && !IsDigit("1.5"[1]);
    assert !IsDigit(" 1"[0]) && !IsDigit("1\n"[1]) && !IsDigit("me"[0]);
    assert !IsDigit("me1"[0]) && !IsDigit("ME"[0]) && !IsDigit("mee"[0]);
  }
}
