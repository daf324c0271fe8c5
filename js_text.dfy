/**
 * The few JavaScript string operations the two edge functions rely on:
 * `String(n)` for integral numbers, `toLowerCase`, `startsWith`, `slice` and `includes`.
 */
module JsText {
  import opened Wrappers

  predicate IsDigit(c: char) {
    '0' <= c <= '9'
  }

  predicate AllDigits(s: string) {
    forall i :: 0 <= i < |s| ==> IsDigit(s[i])
  }

  function DigitChar(d: nat): (c: char)
    requires d < 10
    ensures IsDigit(c) && c as int - '0' as int == d
  {
    ('0' as int + d) as char
  }

  /** Decimal digits of a natural number, most significant first, without leading zeros. */
  function NatToDecimal(n: nat): (s: string)
    ensures |s| >= 1 && AllDigits(s)
    ensures s[0] == '0' <==> n == 0
    ensures |s| > 1 ==> s[0] != '0'
    decreases n
  {
    if n < 10 then [DigitChar(n)] else NatToDecimal(n / 10) + [DigitChar(n % 10)]
  }

  /** The value of a string of decimal digits (the reference reading of `NatToDecimal`). */
  function DigitsValue(s: string): nat
    requires AllDigits(s)
  {
    if s == [] then 0 else DigitsValue(s[..|s| - 1]) * 10 + (s[|s| - 1] as int - '0' as int)
  }

  lemma {:induction false} NatToDecimalValue(n: nat)
    ensures DigitsValue(NatToDecimal(n)) == n
    decreases n
  {
    if n >= 10 {
      var s := NatToDecimal(n);
      assert s[..|s| - 1] == NatToDecimal(n / 10);
      NatToDecimalValue(n / 10);
    }
  }

  /** Digits without a leading zero (a lone "0" excepted): the only way `NatToDecimal` writes a number. */
  predicate CanonicalDigits(s: string) {
    |s| >= 1 && AllDigits(s) && (|s| > 1 ==> s[0] != '0')
  }

  /** The decimal string `String(n)` gives: canonical digits, with a minus sign before a non-zero value. */
  predicate CanonicalNumber(s: string) {
    CanonicalDigits(s) || (|s| >= 2 && s[0] == '-' && CanonicalDigits(s[1..]) && s[1] != '0')
  }

  lemma {:induction false} LeadingDigitPositive(s: string)
    requires AllDigits(s) && |s| >= 1 && s[0] != '0'
    ensures DigitsValue(s) >= 1
    decreases |s|
  {
    if |s| > 1 {
      LeadingDigitPositive(s[..|s| - 1]);
    }
  }

  /** Canonical digits are the decimal writing of their own value. */
  lemma {:induction false} CanonicalDigitsWritten(s: string)
    requires CanonicalDigits(s)
    ensures NatToDecimal(DigitsValue(s)) == s
    decreases |s|
  {
    if |s| > 1 {
      var p := s[..|s| - 1];
      LeadingDigitPositive(p);
      CanonicalDigitsWritten(p);
      var v := DigitsValue(s);
      assert v / 10 == DigitsValue(p) && v % 10 == s[|s| - 1] as int - '0' as int;
      assert s == p + [s[|s| - 1]];
    }
  }

  /** Two canonical decimal strings that read as the same number are the same string. */
  lemma CanonicalNumberUnique(a: string, b: string)
    requires CanonicalNumber(a) && CanonicalNumber(b)
    requires ParseNumber(a).Some? && ParseNumber(a) == ParseNumber(b)
    ensures a == b
  {
    CanonicalReading(a);
    CanonicalReading(b);
  }

  /** A canonical decimal string is `NumberToString` of what it reads as. */
  lemma CanonicalReading(s: string)
    requires CanonicalNumber(s)
    ensures ParseNumber(s).Some? && NumberToString(ParseNumber(s).value) == s
  {
    if CanonicalDigits(s) {
      CanonicalDigitsWritten(s);
    } else {
      var d := s[1..];
      LeadingDigitPositive(d);
      CanonicalDigitsWritten(d);
      assert s == "-" + d;
    }
  }

  /** `String(n)` for an integral JavaScript number: an optional minus sign and the decimal digits. */
  function NumberToString(n: int): (s: string)
    ensures CanonicalNumber(s)
    ensures n >= 0 <==> AllDigits(s)
    ensures n < 0 ==> s[0] == '-'
  {
    if n < 0 then "-" + NatToDecimal(-n) else NatToDecimal(n)
  }

  /** Reads back a string written by `NumberToString`: optional '-' then one or more digits. */
  function ParseNumber(s: string): Option<int> {
    if |s| >= 2 && s[0] == '-' && AllDigits(s[1..]) then Some(0 - DigitsValue(s[1..]) as int)
    else if |s| >= 1 && AllDigits(s) then Some(DigitsValue(s))
    else None
  }

  /** The decimal rendering of a number loses nothing: it reads back as the same number. */
  lemma {:induction false} NumberToStringRoundTrip(n: int)
    ensures ParseNumber(NumberToString(n)) == Some(n)
  {
    if n < 0 {
      var s := NumberToString(n);
      assert s[1..] == NatToDecimal(-n);
      NatToDecimalValue(-n);
    } else {
      NatToDecimalValue(n);
    }
  }

  /** `toLowerCase` on one character, ASCII letters only. */
  function LowerChar(c: char): char {
    if 'A' <= c <= 'Z' then (c as int + 32) as char else c
  }

  /** `toLowerCase` with ASCII case mapping; every other character is kept. */
  function AsciiLower(s: string): (r: string)
    ensures |r| == |s|
    ensures forall i :: 0 <= i < |s| ==> r[i] == LowerChar(s[i])
  {
    seq(|s|, i requires 0 <= i < |s| => LowerChar(s[i]))
  }

  /** `s.startsWith(prefix)`. */
  predicate StartsWith(s: string, prefix: string) {
    |prefix| <= |s| && s[..|prefix|] == prefix
  }

  /** `pat` occurs in `s` at position `i`. */
  predicate OccursAt(s: string, pat: string, i: nat) {
    i + |pat| <= |s| && s[i..i + |pat|] == pat
  }

  /** `s.includes(pat)`: a left-to-right search, true exactly when `pat` occurs somewhere in `s`. */
  function Includes(s: string, pat: string): (r: bool)
    ensures r <==> exists i: nat :: OccursAt(s, pat, i)
    decreases |s|
  {
    if |s| < |pat| then
      false
    else if s[..|pat|] == pat then
      assert OccursAt(s, pat, 0);
      true
    else
      var rest := Includes(s[1..], pat);
      assert forall i: nat :: OccursAt(s[1..], pat, i) <==> OccursAt(s, pat, i + 1);
      assert forall i: nat :: OccursAt(s, pat, i) && i > 0 ==> OccursAt(s[1..], pat, i - 1);
      rest
  }
}
