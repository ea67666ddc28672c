/**
 * The pieces of PHP's value semantics that the relay depends on: `null`,
 * truthiness of strings, the `?:` operator, `is_numeric` on array keys and
 * the decimal rendering of an integer inside a string concatenation.
 */
module Php {

  /** A PHP value that is either `null` (None) or a string. */
  datatype Option<+T> = None | Some(value: T)

  /** PHP truthiness of a string: only "" and "0" are falsy. */
  predicate Truthy(s: string)
  {
    |s| > 1 || (|s| == 1 && s[0] != '0')
  }

  /** PHP truthiness of a nullable string: `null` is falsy as well. */
  predicate IsTruthy(v: Option<string>)
  {
    v.Some? && Truthy(v.value)
  }

  /** The short ternary `a ?: b`. */
  function Elvis(a: Option<string>, b: Option<string>): Option<string>
  {
    if IsTruthy(a) then a else b
  }

  /** `$m[$k] ?? null` on a dictionary of strings. */
  function Lookup(m: map<string, string>, k: string): Option<string>
  {
    if k in m then Some(m[k]) else None
  }

  predicate IsDigit(c: char)
  {
    '0' <= c <= '9'
  }

  /** The white space PHP skips around a numeric string: " \t\n\r\v\f". */
  predicate IsWhitespace(c: char)
  {
    c == ' ' || c == '\t' || c == '\n' || c == '\r' || c == '\U{B}' || c == '\U{C}'
  }

  function TrimStart(s: string): string
  {
    if |s| > 0 && IsWhitespace(s[0]) then TrimStart(s[1..]) else s
  }

  function TrimEnd(s: string): string
  {
    if |s| > 0 && IsWhitespace(s[|s| - 1]) then TrimEnd(s[..|s| - 1]) else s
  }

  function DropSign(s: string): string
  {
    if |s| > 0 && (s[0] == '+' || s[0] == '-') then s[1..] else s
  }

  /** The index of the first non-digit of `s` at or after `from`. */
  function DigitsEnd(s: string, from: nat): (r: nat)
    requires from <= |s|
    ensures from <= r <= |s|
    ensures forall i :: from <= i < r ==> IsDigit(s[i])
    ensures r < |s| ==> !IsDigit(s[r])
    decreases |s| - from
  {
    if from < |s| && IsDigit(s[from]) then DigitsEnd(s, from + 1) else from
  }

  /**
   * `is_numeric` on a string (PHP 8): optional surrounding white space, an
   * optional sign, a decimal mantissa with at least one digit and an
   * optional exponent. Hexadecimal and binary forms are not numeric.
   */
  predicate IsNumericString(s: string)
  {
    var t := DropSign(TrimEnd(TrimStart(s)));
    var i := DigitsEnd(t, 0);
    var j := if i < |t| && t[i] == '.' then DigitsEnd(t, i + 1) else i;
    var hasDigits := i > 0 || j > i + 1;
    if j < |t| && (t[j] == 'e' || t[j] == 'E') then
      var e := DropSign(t[j + 1..]);
      hasDigits && |e| > 0 && DigitsEnd(e, 0) == |e|
    else
      hasDigits && j == |t|
  }

  function DigitChar(d: nat): (c: char)
    requires d < 10
    ensures IsDigit(c)
  {
    "0123456789"[d]
  }

  function DigitValue(c: char): (d: nat)
    requires IsDigit(c)
    ensures d < 10
  {
    (c as int) - ('0' as int)
  }

  /** The decimal text PHP produces for a non-negative integer. */
  function DecimalString(n: nat): (s: string)
    ensures |s| > 0
    ensures forall i :: 0 <= i < |s| ==> IsDigit(s[i])
    ensures |s| > 1 ==> s[0] != '0'
  {
    if n < 10 then [DigitChar(n)] else DecimalString(n / 10) + [DigitChar(n % 10)]
  }

  /** Reads a string of decimal digits back as a number. */
  function DecimalValue(s: string): nat
    requires forall i :: 0 <= i < |s| ==> IsDigit(s[i])
  {
    if s == [] then 0 else DecimalValue(s[..|s| - 1]) * 10 + DigitValue(s[|s| - 1])
  }

  /** The decimal rendering of a size loses nothing: it reads back as the same number. */
  lemma {:induction false} DecimalRoundTrip(n: nat)
    ensures DecimalValue(DecimalString(n)) == n
  {
    var s := DecimalString(n);
    if n >= 10 {
      DecimalRoundTrip(n / 10);
      assert s[..|s| - 1] == DecimalString(n / 10);
      assert DigitValue(DigitChar(n % 10)) == n % 10;
    } else {
      assert DigitValue(DigitChar(n)) == n;
    }
  }
}
