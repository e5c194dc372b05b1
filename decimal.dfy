/**
 * Decimal text of integers, as JavaScript's Number-to-String conversion writes an
 * integral value (`'bytes=' + n`) of magnitude below 10^21, and a parser that reads it
 * back. From 10^21 on JavaScript switches to exponent form ("1e+21"), which this
 * module does not produce.
 */
module Decimal {
  import opened Wrappers

  predicate IsDigit(c: char) {
    '0' <= c <= '9'
  }

  predicate AllDigits(s: string) {
    forall i :: 0 <= i < |s| ==> IsDigit(s[i])
  }

  function DigitChar(d: nat): (c: char)
    requires d < 10
    ensures IsDigit(c) && c as int - '0' as int == d
  {
    ('0' as int + d) as char
  }

  function DigitValue(c: char): nat
    requires IsDigit(c)
  {
    c as int - '0' as int
  }

  /** The shortest decimal numeral of `n`: only digits, and no leading zero except for 0 itself. */
  function NatToString(n: nat): (s: string)
    ensures 1 <= |s| && AllDigits(s)
    ensures s[0] == '0' <==> n == 0
    decreases n
  {
    if n < 10 then [DigitChar(n)] else NatToString(n / 10) + [DigitChar(n % 10)]
  }

  /** The value of a string of decimal digits, most significant first. */
  function DigitsValue(s: string): nat
    requires AllDigits(s)
    decreases |s|
  {
    if s == [] then 0 else 10 * DigitsValue(s[..|s| - 1]) + DigitValue(s[|s| - 1])
  }

  lemma {:induction false} NatToStringRoundTrip(n: nat)
    ensures DigitsValue(NatToString(n)) == n
  {
    if n >= 10 {
      NatToStringRoundTrip(n / 10);
      var s := NatToString(n);
      assert s[..|s| - 1] == NatToString(n / 10);
    }
  }

  /** A minus sign followed by the magnitude for negative values. */
  function IntToString(i: int): (s: string)
    ensures 1 <= |s|
    ensures s[0] == '-' <==> i < 0
    ensures forall k :: 1 <= k < |s| ==> IsDigit(s[k])
  {
    if i < 0 then "-" + NatToString(-i) else NatToString(i)
  }

  /** An optional minus sign followed by at least one digit; anything else is not a number. */
  function ParseInt(s: string): Option<int>
  {
    if 2 <= |s| && s[0] == '-' && AllDigits(s[1..]) then Some(-(DigitsValue(s[1..]) as int))
    else if 1 <= |s| && AllDigits(s) then Some(DigitsValue(s))
    else None
  }

  lemma {:induction false} IntToStringRoundTrip(i: int)
    ensures ParseInt(IntToString(i)) == Some(i)
  {
    var s := IntToString(i);
    if i < 0 {
      NatToStringRoundTrip(-i);
      assert s[1..] == NatToString(-i);
    } else {
      NatToStringRoundTrip(i);
    }
  }
}
