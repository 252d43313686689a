/**
 * The pieces of JavaScript semantics that the route handlers lean on: truthiness of
 * request fields, `parseInt(s, 10)` on query strings and path segments, and `String(n)`,
 * with which the frontend writes a numeric id into a URL.
 */
module Js {
  import opened Options

  /** `if (field)` on a string field of a JSON body: undefined and "" are falsy. */
  predicate Given(field: Option<string>) {
    field.Some? && field.value != ""
  }

  /** `if (field)` on a numeric field of a JSON body: undefined and 0 are falsy. */
  predicate GivenId(field: Option<int>) {
    field.Some? && field.value != 0
  }

  /** The white space and line terminators that `parseInt` skips before the number. */
  predicate IsSpace(c: char) {
    c == '\t' || c == '\n' || c == '\U{000B}' || c == '\U{000C}' || c == '\r' || c == ' '
    || c == '\U{00A0}' || c == '\U{1680}' || ('\U{2000}' <= c <= '\U{200A}')
    || c == '\U{2028}' || c == '\U{2029}' || c == '\U{202F}' || c == '\U{205F}'
    || c == '\U{3000}' || c == '\U{FEFF}'
  }

  predicate IsDigit(c: char) {
    '0' <= c <= '9'
  }

  predicate AllDigits(s: string) {
    forall i :: 0 <= i < |s| ==> IsDigit(s[i])
  }

  function TrimStart(s: string): (r: string) {
    if s != [] && IsSpace(s[0]) then TrimStart(s[1..]) else s
  }

  /** The longest prefix of `s` made of decimal digits. */
  function LeadingDigits(s: string): (r: string)
    ensures AllDigits(r) && |r| <= |s| && r == s[..|r|]
    ensures |r| < |s| ==> !IsDigit(s[|r|])
  {
    if s != [] && IsDigit(s[0]) then [s[0]] + LeadingDigits(s[1..]) else []
  }

  function DigitValue(c: char): (r: nat)
    requires IsDigit(c)
  {
    c as int - '0' as int
  }

  function DigitsValue(d: string): (r: nat)
    requires AllDigits(d)
  {
    if d == [] then 0 else DigitsValue(d[..|d| - 1]) * 10 + DigitValue(d[|d| - 1])
  }

  /**
   * `parseInt(s, 10)`: skip leading white space, read an optional sign and then as many
   * decimal digits as there are; `None` is NaN (no digit at all).
   */
  function ParseInt(s: string): (r: Option<int>) {
    var t := TrimStart(s);
    var negative := t != [] && t[0] == '-';
    var unsigned := if t != [] && (t[0] == '-' || t[0] == '+') then t[1..] else t;
    var digits := LeadingDigits(unsigned);
    if digits == [] then None
    else
      var magnitude: int := DigitsValue(digits);
      Some(if negative then -magnitude else magnitude)
  }

  function Digit(k: nat): (c: char)
    requires k < 10
  {
    ('0' as int + k) as char
  }

  /** The decimal digits of a natural number, without leading zeros. */
  function NatDigits(n: nat): (r: string)
    decreases n
  {
    if n < 10 then [Digit(n)] else NatDigits(n / 10) + [Digit(n % 10)]
  }

  /** `String(n)` for an integer `n`, as in the template literal `/users/${id}/doctors`. */
  function DecimalString(n: int): (r: string) {
    if n < 0 then "-" + NatDigits(-n) else NatDigits(n)
  }

  lemma {:induction false} NatDigitsValue(n: nat)
    ensures NatDigits(n) != [] && AllDigits(NatDigits(n))
    ensures DigitsValue(NatDigits(n)) == n
    decreases n
  {
    if n >= 10 {
      NatDigitsValue(n / 10);
      var p := NatDigits(n / 10);
      var d := p + [Digit(n % 10)];
      assert d[..|d| - 1] == p;
    }
  }

  lemma {:induction false} LeadingDigitsStopsAtNonDigit(d: string, rest: string)
    requires AllDigits(d)
    requires rest == [] || !IsDigit(rest[0])
    ensures LeadingDigits(d + rest) == d
  {
    if d != [] {
      assert (d + rest)[1..] == d[1..] + rest;
      LeadingDigitsStopsAtNonDigit(d[1..], rest);
    } else {
      assert d + rest == rest;
    }
  }

  /**
   * `parseInt` reads back what `String(n)` wrote, and stops at the first character after
   * the number that is not a digit (as in `parseInt("12abc") == 12`).
   */
  lemma ParseIntReadsDecimal(n: int, rest: string)
    requires rest == [] || !IsDigit(rest[0])
    ensures ParseInt(DecimalString(n) + rest) == Some(n)
  {
    var m: nat := if n < 0 then -n else n;
    NatDigitsValue(m);
    LeadingDigitsStopsAtNonDigit(NatDigits(m), rest);
    var s := DecimalString(n) + rest;
    if n < 0 {
      assert s == ['-'] + (NatDigits(m) + rest);
      UnsignedOfSigned('-', NatDigits(m) + rest);
    } else {
      assert s == NatDigits(m) + rest;
      assert IsDigit(s[0]);
      assert TrimStart(s) == s;
    }
  }

  lemma UnsignedOfSigned(sign: char, u: string)
    requires sign == '-' || sign == '+'
    ensures TrimStart([sign] + u) == [sign] + u
    ensures ([sign] + u)[1..] == u
  {
  }

  /** The round trip through a URL: `parseInt(String(n), 10) === n`. */
  lemma ParseIntOfDecimalString(n: int)
    ensures ParseInt(DecimalString(n)) == Some(n)
  {
    ParseIntReadsDecimal(n, "");
    assert DecimalString(n) + "" == DecimalString(n);
  }

  /** Leading white space never changes what `parseInt` reads. */
  lemma ParseIntSkipsSpace(c: char, s: string)
    requires IsSpace(c)
    ensures ParseInt([c] + s) == ParseInt(s)
  {
    assert ([c] + s)[1..] == s;
  }

  /** A string whose first non-space character is neither a sign nor a digit is NaN. */
  lemma ParseIntNaN(s: string)
    requires s != [] && !IsSpace(s[0]) && !IsDigit(s[0]) && s[0] != '-' && s[0] != '+'
    ensures ParseInt(s) == None
  {
  }
}
