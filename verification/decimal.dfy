/**
 * 32-bit integers and their decimal text, as produced by C# string
 * interpolation of an int (int.ToString() in the invariant culture), and a
 * reader for that text used to state that the text determines the number.
 */
module Decimal {
  import opened Wrappers

  /** C#'s int. */
  type Int32 = x: int | -0x8000_0000 <= x < 0x8000_0000

  predicate IsDigit(c: char) {
    '0' <= c <= '9'
  }

  /** A character that may occur in the text of an int. */
  predicate IsNumeralChar(c: char) {
    c == '-' || IsDigit(c)
  }

  predicate AllDigits(s: string) {
    forall i :: 0 <= i < |s| ==> IsDigit(s[i])
  }

  predicate AllNumeralChars(s: string) {
    forall i :: 0 <= i < |s| ==> IsNumeralChar(s[i])
  }

  function DigitChar(d: nat): (c: char)
    requires d < 10
    ensures IsDigit(c) && c as int - '0' as int == d
  {
    ('0' as int + d) as char
  }

  /** The decimal digits of n, most significant first, without leading zeros. */
  function NatToString(n: nat): string
    decreases n
  {
    if n < 10 then [DigitChar(n)] else NatToString(n / 10) + [DigitChar(n % 10)]
  }

  /** The text of an int: a minus sign before the digits of a negative number. */
  function IntToString(n: int): string {
    if n < 0 then "-" + NatToString(-n) else NatToString(n)
  }

  /** The value of a string of decimal digits. */
  function DigitsValue(s: string): nat
    requires AllDigits(s)
    decreases |s|
  {
    if s == [] then 0 else DigitsValue(s[..|s| - 1]) * 10 + (s[|s| - 1] as int - '0' as int)
  }

  /** Reads a whole string as an optionally negative decimal integer. */
  function ParseInt(s: string): Option<int> {
    if |s| > 1 && s[0] == '-' && AllDigits(s[1..]) then Some(-(DigitsValue(s[1..]) as int))
    else if |s| > 0 && AllDigits(s) then Some(DigitsValue(s) as int)
    else None
  }

  /** The length of the longest prefix of s made of numeral characters. */
  function NumeralSpan(s: string): (k: nat)
    ensures k <= |s|
  {
    if s == [] || !IsNumeralChar(s[0]) then 0 else 1 + NumeralSpan(s[1..])
  }

  /** Reads the integer at the head of s; returns it with what follows it. */
  function ReadInt(s: string): Option<(int, string)> {
    var k := NumeralSpan(s);
    match ParseInt(s[..k])
    case None => None
    case Some(v) => Some((v, s[k..]))
  }

  /** NatToString gives a non-empty digit string, with no leading zero, whose value is n. */
  lemma {:induction false} NatToStringDigits(n: nat)
    ensures |NatToString(n)| > 0 && AllDigits(NatToString(n))
    ensures DigitsValue(NatToString(n)) == n
    ensures n > 0 ==> NatToString(n)[0] != '0'
  {
    if n >= 10 {
      NatToStringDigits(n / 10);
      var s := NatToString(n / 10) + [DigitChar(n % 10)];
      assert s[..|s| - 1] == NatToString(n / 10);
    }
  }

  /** Reading the text of any integer back gives that integer. */
  lemma IntToStringRoundTrip(n: int)
    ensures AllNumeralChars(IntToString(n))
    ensures ParseInt(IntToString(n)) == Some(n)
  {
    if n < 0 {
      var t := NatToString(-n);
      NatToStringDigits(-n);
      var s := "-" + t;
      assert s[1..] == t;
      assert ParseInt(s) == Some(-(DigitsValue(t) as int));
      forall i | 0 <= i < |s| ensures IsNumeralChar(s[i]) {
        if i > 0 {
          assert s[i] == t[i - 1];
        }
      }
    } else {
      NatToStringDigits(n);
    }
  }

  lemma {:induction false} NumeralSpanOf(x: string, rest: string)
    requires AllNumeralChars(x)
    requires rest == [] || !IsNumeralChar(rest[0])
    ensures NumeralSpan(x + rest) == |x|
  {
    if x == [] {
      assert x + rest == rest;
    } else {
      assert (x + rest)[1..] == x[1..] + rest;
      NumeralSpanOf(x[1..], rest);
    }
  }

  /** The text of n, followed by anything that does not continue a numeral, reads back as n. */
  lemma ReadIntOf(n: int, rest: string)
    requires rest == [] || !IsNumeralChar(rest[0])
    ensures ReadInt(IntToString(n) + rest) == Some((n, rest))
  {
    var s := IntToString(n);
    IntToStringRoundTrip(n);
    NumeralSpanOf(s, rest);
    assert (s + rest)[..|s|] == s;
    assert (s + rest)[|s|..] == rest;
  }
}
