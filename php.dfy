/** The few PHP primitives the bank codecs depend on, with PHP's own semantics. */
module Php {

  /** PHP truthiness of a string, as `if ($s)` and `!empty($s)` test it:
      the empty string and "0" are both falsy. */
  predicate IsSet(s: string) {
    s != "" && s != "0"
  }

  predicate IsDigit(c: char) {
    '0' <= c <= '9'
  }

  predicate AllDigits(s: string) {
    forall i :: 0 <= i < |s| ==> IsDigit(s[i])
  }

  /** `(int)` applied to a one-character string: the digit's value, or 0 for anything else. */
  function CastDigit(c: char): (d: nat)
    ensures d <= 9
    ensures IsDigit(c) ==> d == c as int - '0' as int
  {
    if IsDigit(c) then c as int - '0' as int else 0
  }

  /** The character of a decimal digit. */
  function DigitChar(d: int): (c: char)
    requires 0 <= d <= 9
    ensures IsDigit(c) && CastDigit(c) == d
  {
    ('0' as int + d) as char
  }

  /** PHP's `%` for a positive modulus: the remainder takes the sign of the dividend. */
  function Rem(a: int, m: int): (r: int)
    requires m > 0
    ensures a >= 0 ==> 0 <= r < m && r == a % m
    ensures a < 0 ==> -m < r <= 0 && r == -((-a) % m)
  {
    if a >= 0 then a % m else -((-a) % m)
  }

  /** Decimal representation of a natural number, as PHP's string conversion writes it. */
  function NatToString(n: nat): (r: string)
    ensures |r| >= 1 && AllDigits(r)
    ensures n <= 9 ==> r == [DigitChar(n)]
    ensures n > 9 ==> r[0] != '0'
  {
    if n <= 9 then [DigitChar(n)] else NatToString(n / 10) + [DigitChar(n % 10)]
  }

  /** Decimal representation of an integer, with a leading '-' when negative. */
  function IntToString(i: int): (r: string)
    ensures 0 <= i <= 9 ==> r == [DigitChar(i)]
    ensures i < 0 <==> (|r| > 0 && r[0] == '-')
  {
    if i < 0 then "-" + NatToString(-i) else NatToString(i)
  }

  /** `substr($s, $start, $length)` for a non-negative start and length. */
  function Substr(s: string, start: nat, len: nat): (r: string)
    ensures start + len <= |s| ==> r == s[start..start + len]
    ensures start <= |s| < start + len ==> r == s[start..]
    ensures start >= |s| ==> r == ""
  {
    if start >= |s| then "" else if start + len <= |s| then s[start..start + len] else s[start..]
  }

  /** `substr($s, $start)` for a non-negative start. */
  function SubstrFrom(s: string, start: nat): (r: string)
    ensures start <= |s| ==> r == s[start..]
    ensures start > |s| ==> r == ""
  {
    if start >= |s| then "" else s[start..]
  }
}
