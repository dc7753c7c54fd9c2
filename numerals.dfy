/**
 * Digit strings as an output stream writes an unsigned number in decimal
 * (`dec`) or hexadecimal (`hex`) mode, and the reader that recovers the
 * number from such a string.
 */
module Numerals {
  import opened Options

  /** The two modes a stream can be switched to. */
  predicate IsBase(base: nat) {
    base == 10 || base == 16
  }

  predicate IsHexChar(c: char) {
    '0' <= c <= '9' || 'a' <= c <= 'f'
  }

  function DigitValue(c: char): (d: nat)
    requires IsHexChar(c)
    ensures d < 16
  {
    if c <= '9' then c as int - '0' as int else c as int - 'a' as int + 10
  }

  /** The character for digit `d`; hexadecimal digits are lower case. */
  function DigitChar(d: nat): (c: char)
    requires d < 16
    ensures IsHexChar(c) && DigitValue(c) == d
  {
    if d < 10 then ('0' as int + d) as char else ('a' as int + d - 10) as char
  }

  predicate IsDigit(c: char, base: nat)
    requires IsBase(base)
  {
    IsHexChar(c) && DigitValue(c) < base
  }

  predicate AllDigits(s: string, base: nat)
    requires IsBase(base)
  {
    forall i :: 0 <= i < |s| ==> IsDigit(s[i], base)
  }

  /** The digits of `n` in `base`, most significant first, without leading zeros. */
  function Numeral(n: nat, base: nat): (s: string)
    requires IsBase(base)
    ensures |s| > 0
    ensures s[0] == '0' <==> n == 0
    decreases n
  {
    if n < base then [DigitChar(n)] else Numeral(n / base, base) + [DigitChar(n % base)]
  }

  lemma {:induction false} NumeralDigits(n: nat, base: nat)
    requires IsBase(base)
    ensures AllDigits(Numeral(n, base), base)
    decreases n
  {
    if n >= base {
      NumeralDigits(n / base, base);
    }
  }

  /** The number a digit string denotes. */
  function ValueOf(s: string, base: nat): nat
    requires IsBase(base) && AllDigits(s, base)
  {
    if s == [] then 0 else ValueOf(s[..|s| - 1], base) * base + DigitValue(s[|s| - 1])
  }

  lemma {:induction false} ValueOfNumeral(n: nat, base: nat)
    requires IsBase(base)
    ensures AllDigits(Numeral(n, base), base) && ValueOf(Numeral(n, base), base) == n
    decreases n
  {
    var s := Numeral(n, base);
    NumeralDigits(n, base);
    if n < base {
      assert s[..|s| - 1] == [];
    } else {
      assert s[..|s| - 1] == Numeral(n / base, base);
      ValueOfNumeral(n / base, base);
    }
  }

  /** Different numbers are written differently. */
  lemma NumeralInjective(m: nat, n: nat, base: nat)
    requires IsBase(base)
    ensures Numeral(m, base) == Numeral(n, base) <==> m == n
  {
    ValueOfNumeral(m, base);
    ValueOfNumeral(n, base);
  }

  /** The length of the longest prefix of `s` made of digits. */
  function DigitSpan(s: string, base: nat): (k: nat)
    requires IsBase(base)
    ensures k <= |s| && AllDigits(s[..k], base)
    ensures k < |s| ==> !IsDigit(s[k], base)
  {
    if s == [] || !IsDigit(s[0], base) then 0 else 1 + DigitSpan(s[1..], base)
  }

  datatype Reading = Reading(value: nat, rest: string)

  /** Reads the longest run of digits at the front of `s`, if there is one. */
  function ReadNumeral(s: string, base: nat): (r: Option<Reading>)
    requires IsBase(base)
    ensures r.Some? <==> |s| > 0 && IsDigit(s[0], base)
    ensures r.Some? ==> |r.value.rest| < |s| && s[|s| - |r.value.rest|..] == r.value.rest
  {
    var k := DigitSpan(s, base);
    if k == 0 then None else Some(Reading(ValueOf(s[..k], base), s[k..]))
  }

  lemma {:induction false} DigitSpanOfDigits(digits: string, rest: string, base: nat)
    requires IsBase(base) && AllDigits(digits, base)
    requires rest == [] || !IsDigit(rest[0], base)
    ensures DigitSpan(digits + rest, base) == |digits|
  {
    if digits == [] {
      assert digits + rest == rest;
    } else {
      assert (digits + rest)[1..] == digits[1..] + rest;
      DigitSpanOfDigits(digits[1..], rest, base);
    }
  }

  /** Reading back a written number stops at the first non-digit and yields the number. */
  lemma ReadNumeralBack(n: nat, base: nat, rest: string)
    requires IsBase(base)
    requires rest == [] || !IsDigit(rest[0], base)
    ensures ReadNumeral(Numeral(n, base) + rest, base) == Some(Reading(n, rest))
  {
    var s := Numeral(n, base);
    NumeralDigits(n, base);
    DigitSpanOfDigits(s, rest, base);
    assert (s + rest)[..|s|] == s;
    assert (s + rest)[|s|..] == rest;
    ValueOfNumeral(n, base);
  }
}
