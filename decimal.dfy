/** Decimal text of integers: Python's str(int), int(str) and str.isdigit over ASCII digits. */
module Decimal {
  import opened Types

  predicate IsDigit(c: char) { '0' <= c <= '9' }

  /** str.isdigit(): at least one character, and every character a digit. */
  predicate IsDigitString(s: string)
  {
    |s| > 0 && forall i :: 0 <= i < |s| ==> IsDigit(s[i])
  }

  function DigitChar(d: nat): (c: char)
    requires d < 10
    ensures IsDigit(c)
  {
    "0123456789"[d]
  }

  function DigitValue(c: char): (d: nat)
    requires IsDigit(c)
    ensures d < 10
  {
    (c as int - '0' as int) as nat
  }

  /** The decimal digits of n, most significant first, without leading zeros. */
  function NatString(n: nat): (s: string)
    ensures IsDigitString(s)
  {
    if n < 10 then [DigitChar(n)] else NatString(n / 10) + [DigitChar(n % 10)]
  }

  /** The value of a digit string read in base ten. */
  function DigitsValue(s: string): nat
    requires forall i :: 0 <= i < |s| ==> IsDigit(s[i])
  {
    if s == [] then 0 else DigitsValue(s[..|s| - 1]) * 10 + DigitValue(s[|s| - 1])
  }

  /** str(n) for a Python int: a minus sign before the digits of a negative number. */
  function IntString(n: int): string
  {
    if n < 0 then "-" + NatString(-n) else NatString(n)
  }

  /** int(s) on an optional minus sign followed by ASCII digits; None where Python raises ValueError. */
  function ParseInt(s: string): Option<int>
  {
    if |s| > 1 && s[0] == '-' && IsDigitString(s[1..]) then Some(0 - DigitsValue(s[1..]) as int)
    else if IsDigitString(s) then Some(DigitsValue(s))
    else None
  }

  lemma {:induction false} DigitsOfNat(n: nat)
    ensures DigitsValue(NatString(n)) == n
  {
    if n < 10 {
      assert DigitValue(DigitChar(n)) == n;
    } else {
      var s := NatString(n);
      assert s[..|s| - 1] == NatString(n / 10);
      DigitsOfNat(n / 10);
      assert DigitValue(DigitChar(n % 10)) == n % 10;
    }
  }

  /** int(str(n)) == n: parsing the text of an integer gives the integer back. */
  lemma {:induction false} IntStringRoundTrip(n: int)
    ensures ParseInt(IntString(n)) == Some(n)
  {
    var s := IntString(n);
    if n < 0 {
      assert s[1..] == NatString(-n);
      DigitsOfNat(-n);
    } else {
      assert IsDigit(s[0]);
      DigitsOfNat(n);
    }
  }
}
