/**
 * ECMAScript's `Number(string)` conversion, for the forms the bot's
 * category tokens can produce: white space is trimmed, the empty string is 0,
 * and an optionally signed run of decimal digits is that integer. Every other
 * form is NaN here (see README, "Left out").
 */
module JsNumber {

  /** The values `Number(...)` can take in this model. */
  datatype Number = NaN | Int(value: int)

  /** StrWhiteSpaceChar: the white space and line terminator code points. */
  predicate IsWhiteSpace(c: char) {
    c == '\U{0009}' || c == '\U{000B}' || c == '\U{000C}' || c == '\U{FEFF}'
    || c == '\U{000A}' || c == '\U{000D}' || c == '\U{2028}' || c == '\U{2029}'
    // the space separators (general category Zs)
    || c == ' ' || c == '\U{00A0}' || c == '\U{1680}' || ('\U{2000}' <= c <= '\U{200A}')
    || c == '\U{202F}' || c == '\U{205F}' || c == '\U{3000}'
  }

  function TrimStart(s: string): string {
    if |s| > 0 && IsWhiteSpace(s[0]) then TrimStart(s[1..]) else s
  }

  function TrimEnd(s: string): string {
    if |s| > 0 && IsWhiteSpace(s[|s| - 1]) then TrimEnd(s[..|s| - 1]) else s
  }

  /** The string with its leading and trailing white space removed. */
  function Trim(s: string): string {
    TrimEnd(TrimStart(s))
  }

  predicate IsDigit(c: char) {
    '0' <= c <= '9'
  }

  predicate AllDigits(s: string) {
    forall k :: 0 <= k < |s| ==> IsDigit(s[k])
  }

  /** The value of a run of decimal digits, most significant first. */
  function DigitsValue(s: string): nat
    requires AllDigits(s)
  {
    if |s| == 0 then 0 else 10 * DigitsValue(s[..|s| - 1]) + (s[|s| - 1] as int - '0' as int)
  }

  /** `Number(s)`. */
  function ToNumber(s: string): Number {
    var t := Trim(s);
    if t == "" then
      Int(0)
    else if AllDigits(t) then
      Int(DigitsValue(t))
    else if |t| > 1 && (t[0] == '+' || t[0] == '-') && AllDigits(t[1..]) then
      if t[0] == '-' then Int(-(DigitsValue(t[1..]) as int)) else Int(DigitsValue(t[1..]))
    else
      NaN
  }

  /** The decimal spelling of a natural number, as `String(n)` writes it for n below 10^21. */
  function DecimalString(n: nat): (s: string)
    ensures |s| > 0 && AllDigits(s)
  {
    if n < 10 then ['0' + n as char] else DecimalString(n / 10) + ['0' + (n % 10) as char]
  }

  lemma {:induction false} DigitsValueOfDecimal(n: nat)
    ensures DigitsValue(DecimalString(n)) == n
  {
    if n >= 10 {
      var s := DecimalString(n);
      assert s[..|s| - 1] == DecimalString(n / 10);
      DigitsValueOfDecimal(n / 10);
    }
  }

  /** A string that neither starts nor ends with white space is its own trim. */
  lemma TrimUntouched(s: string)
    requires |s| > 0 && !IsWhiteSpace(s[0]) && !IsWhiteSpace(s[|s| - 1])
    ensures Trim(s) == s
  {
  }

  /** `ToNumber` inverts the decimal spelling of every natural number (JavaScript agrees below 2^53). */
  lemma DecimalRoundTrip(n: nat)
    ensures ToNumber(DecimalString(n)) == Int(n)
  {
    var s := DecimalString(n);
    TrimUntouched(s);
    DigitsValueOfDecimal(n);
  }

  /** A leading minus sign negates the decimal value (JavaScript agrees below 2^53). */
  lemma NegativeRoundTrip(n: nat)
    ensures ToNumber("-" + DecimalString(n)) == Int(-(n as int))
  {
    var s := "-" + DecimalString(n);
    TrimUntouched(s);
    assert s[1..] == DecimalString(n);
    assert !AllDigits(s) by { assert !IsDigit(s[0]); }
    DigitsValueOfDecimal(n);
  }

  /** Trimming never removes a character that is not white space. */
  lemma {:induction false} TrimKeeps(s: string, c: char)
    requires c in s && !IsWhiteSpace(c)
    ensures c in Trim(s)
  {
    TrimStartKeeps(s, c);
    TrimEndKeeps(TrimStart(s), c);
  }

  lemma {:induction false} TrimStartKeeps(s: string, c: char)
    requires c in s && !IsWhiteSpace(c)
    ensures c in TrimStart(s)
  {
    if |s| > 0 && IsWhiteSpace(s[0]) {
      assert c in s[1..] by {
        var k :| 0 <= k < |s| && s[k] == c;
        assert k > 0 && s[1..][k - 1] == c;
      }
      TrimStartKeeps(s[1..], c);
    }
  }

  lemma {:induction false} TrimEndKeeps(s: string, c: char)
    requires c in s && !IsWhiteSpace(c)
    ensures c in TrimEnd(s)
  {
    if |s| > 0 && IsWhiteSpace(s[|s| - 1]) {
      assert c in s[..|s| - 1] by {
        var k :| 0 <= k < |s| && s[k] == c;
        assert k < |s| - 1 && s[..|s| - 1][k] == c;
      }
      TrimEndKeeps(s[..|s| - 1], c);
    }
  }

  /** A string holding a character that is neither a digit, a sign nor white space is NaN. */
  lemma ForeignCharIsNaN(s: string, c: char)
    requires c in s && !IsWhiteSpace(c) && !IsDigit(c) && c != '+' && c != '-'
    ensures ToNumber(s) == NaN
  {
    TrimKeeps(s, c);
    var t := Trim(s);
    var k :| 0 <= k < |t| && t[k] == c;
    if |t| > 1 && k > 0 {
      assert t[1..][k - 1] == c;
    }
  }
}
