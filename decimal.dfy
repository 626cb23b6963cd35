/**
 * Decimal text of integers, as Python's `str(int)` writes it, and a reader
 * for that text. The manager puts the port into the launch command and the
 * server URL through this conversion.
 */
module Decimal {
  import opened Wrappers

  predicate IsDigit(c: char) {
    '0' <= c <= '9'
  }

  function DigitChar(d: nat): (c: char)
    requires d < 10
    ensures IsDigit(c)
  {
    ('0' as int + d) as char
  }

  function DigitValue(c: char): (d: nat)
    requires IsDigit(c)
    ensures d < 10 && DigitChar(d) == c
  {
    c as int - '0' as int
  }

  /** The shortest decimal digits of `n`, most significant first. */
  function FromNat(n: nat): (s: string)
    ensures |s| >= 1
    ensures forall i :: 0 <= i < |s| ==> IsDigit(s[i])
    ensures |s| > 1 ==> s[0] != '0'
  {
    if n < 10 then [DigitChar(n)] else FromNat(n / 10) + [DigitChar(n % 10)]
  }

  /** `str(n)`: a minus sign before the digits of a negative number. */
  function FromInt(n: int): (s: string)
    ensures |s| >= 1
    ensures s[0] == '-' <==> n < 0
  {
    if n < 0 then "-" + FromNat(-n) else FromNat(n)
  }

  /** Reads a non-empty string of digits; anything else is rejected. */
  function ToNat(s: string): Option<nat>
  {
    if s == [] || !IsDigit(s[|s| - 1]) then None
    else if |s| == 1 then Some(DigitValue(s[0]))
    else match ToNat(s[..|s| - 1])
      case None => None
      case Some(v) => Some(10 * v + DigitValue(s[|s| - 1]))
  }

  /** Reads an optional minus sign followed by digits. */
  function ToInt(s: string): Option<int>
  {
    var negative := |s| > 0 && s[0] == '-';
    match ToNat(if negative then s[1..] else s)
    case None => None
    case Some(v) => Some(if negative then -(v as int) else v as int)
  }

  lemma {:induction false} NatRoundTrip(n: nat)
    ensures ToNat(FromNat(n)) == Some(n)
  {
    if n >= 10 {
      var s := FromNat(n);
      assert s[..|s| - 1] == FromNat(n / 10);
      NatRoundTrip(n / 10);
    }
  }

  /** Reading back the text of any integer gives that integer. */
  lemma IntRoundTrip(n: int)
    ensures ToInt(FromInt(n)) == Some(n)
  {
    var s := FromInt(n);
    if n < 0 {
      assert s[1..] == FromNat(-n);
      NatRoundTrip(-n);
    } else {
      assert s == FromNat(n);
      NatRoundTrip(n);
    }
  }
}
