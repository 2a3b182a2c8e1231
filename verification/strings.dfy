/** The two pieces of JavaScript string behaviour the default formatter relies on:
    `String.prototype.toUpperCase` (ASCII letters only) and the decimal rendering of an
    integer inside a template literal. */
module Strings {
  import opened Wrappers

  predicate IsLower(c: char) { 'a' <= c <= 'z' }

  predicate IsDigit(c: char) { '0' <= c <= '9' }

  predicate AllDigits(s: string) { forall i :: 0 <= i < |s| ==> IsDigit(s[i]) }

  /** Upper-cases one ASCII letter; every other character is left as it is. */
  function UpperChar(c: char): (u: char)
    ensures IsLower(c) ==> u as int == c as int - 32
    ensures !IsLower(c) ==> u == c
    ensures !IsLower(u)
  {
    if IsLower(c) then (c as int - 32) as char else c
  }

  /** `s.toUpperCase()` restricted to ASCII. */
  function UpperCase(s: string): (u: string)
    ensures |u| == |s|
  {
    if s == [] then [] else [UpperChar(s[0])] + UpperCase(s[1..])
  }

  lemma {:induction false} UpperCaseAt(s: string, i: nat)
    requires i < |s|
    ensures UpperCase(s)[i] == UpperChar(s[i])
  {
    if i > 0 {
      UpperCaseAt(s[1..], i - 1);
    }
  }

  /** The upper-cased string holds no lower-case letter, and upper-casing it again changes nothing. */
  lemma {:induction false} UpperCaseIdempotent(s: string)
    ensures forall i :: 0 <= i < |s| ==> !IsLower(UpperCase(s)[i])
    ensures UpperCase(UpperCase(s)) == UpperCase(s)
  {
    forall i | 0 <= i < |s| ensures !IsLower(UpperCase(s)[i]) {
      UpperCaseAt(s, i);
    }
    if s != [] {
      UpperCaseIdempotent(s[1..]);
    }
  }

  function DigitChar(d: nat): (c: char)
    requires d < 10
    ensures IsDigit(c) && c as int - '0' as int == d
  {
    ('0' as int + d) as char
  }

  /** Decimal digits of a natural number, most significant first, without leading zeros. */
  function NatToDecimal(n: nat): (s: string)
    ensures |s| > 0 && AllDigits(s)
    ensures s[0] == '0' ==> n == 0
    decreases n
  {
    if n < 10 then [DigitChar(n)] else NatToDecimal(n / 10) + [DigitChar(n % 10)]
  }

  /** The number a string of decimal digits denotes (the partner of NatToDecimal). */
  function DecimalValue(s: string): nat
    requires AllDigits(s)
  {
    if s == [] then 0 else 10 * DecimalValue(s[..|s| - 1]) + (s[|s| - 1] as int - '0' as int)
  }

  lemma {:induction false} DecimalValueOfNat(n: nat)
    ensures DecimalValue(NatToDecimal(n)) == n
  {
    if n >= 10 {
      var s := NatToDecimal(n / 10);
      var t := s + [DigitChar(n % 10)];
      assert t[..|t| - 1] == s;
      DecimalValueOfNat(n / 10);
    }
  }

  /** `${n}` for an integral JavaScript number: a minus sign for negatives, then the digits. */
  function IntToDecimal(n: int): (s: string)
  {
    if n < 0 then "-" + NatToDecimal(-n) else NatToDecimal(n)
  }

  /** Reads back what IntToDecimal writes; None for anything that is not an optional '-' followed by digits. */
  function ParseInt(s: string): Option<int>
  {
    if |s| > 1 && s[0] == '-' && AllDigits(s[1..]) then Some(-(DecimalValue(s[1..]) as int))
    else if |s| > 0 && AllDigits(s) then Some(DecimalValue(s))
    else None
  }

  /** The rendering is exact and carries a sign exactly for negative numbers. */
  lemma IntToDecimalRoundTrip(n: int)
    ensures ParseInt(IntToDecimal(n)) == Some(n)
    ensures IntToDecimal(n)[0] == '-' <==> n < 0
    ensures n >= 0 ==> AllDigits(IntToDecimal(n))
  {
    if n < 0 {
      var s := IntToDecimal(n);
      assert s[1..] == NatToDecimal(-n);
      DecimalValueOfNat(-n);
    } else {
      DecimalValueOfNat(n);
    }
  }
}
