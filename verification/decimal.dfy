/** Decimal digit strings, as the "00" custom numeric format writes them, and
    their reading back. */
module Decimal {

  predicate IsDigit(ch: char)
  {
    '0' <= ch <= '9'
  }

  predicate AllDigits(s: string)
  {
    forall i :: 0 <= i < |s| ==> IsDigit(s[i])
  }

  function DigitValue(ch: char): (d: int)
    requires IsDigit(ch)
    ensures 0 <= d <= 9
  {
    ch as int - '0' as int
  }

  function DigitChar(d: int): (ch: char)
    requires 0 <= d <= 9
    ensures IsDigit(ch) && DigitValue(ch) == d
  {
    (d + '0' as int) as char
  }

  /** The shortest decimal writing of n: digits only, no leading zero, at most
      two characters below 100. */
  function NatToDecimal(n: nat): (s: string)
    ensures 1 <= |s| && AllDigits(s)
    ensures s[0] == '0' ==> n == 0
    ensures n < 10 ==> |s| == 1
    ensures n < 100 ==> |s| <= 2
    ensures n >= 10 ==> |s| >= 2
    decreases n
  {
    if n < 10 then [DigitChar(n)] else NatToDecimal(n / 10) + [DigitChar(n % 10)]
  }

  /** The number a digit string denotes, most significant digit first. */
  function DecimalValue(s: string): nat
    requires AllDigits(s)
    decreases |s|
  {
    if s == [] then 0 else DecimalValue(s[..|s| - 1]) * 10 + DigitValue(s[|s| - 1])
  }

  /** Reading back the decimal writing of n gives n. */
  lemma {:induction false} DecimalRoundTrip(n: nat)
    ensures DecimalValue(NatToDecimal(n)) == n
    decreases n
  {
    if n >= 10 {
      var s := NatToDecimal(n);
      DecimalRoundTrip(n / 10);
      assert s[..|s| - 1] == NatToDecimal(n / 10);
    }
  }

  /** A leading zero does not change the value of a digit string. */
  lemma {:induction false} LeadingZero(s: string)
    requires AllDigits(s)
    ensures AllDigits("0" + s) && DecimalValue("0" + s) == DecimalValue(s)
    decreases |s|
  {
    if s != [] {
      var t := "0" + s;
      assert t[..|t| - 1] == "0" + s[..|s| - 1];
      LeadingZero(s[..|s| - 1]);
    }
  }

  /** The custom numeric format "00" on a non-negative number: at least two
      digits, padded with a leading zero. */
  function PadTwoNat(n: nat): (s: string)
    ensures AllDigits(s) && 2 <= |s| && DecimalValue(s) == n
    ensures n <= 99 ==> |s| == 2
    ensures n >= 10 ==> s[0] != '0'
  {
    var digits := NatToDecimal(n);
    DecimalRoundTrip(n);
    if n < 10 then
      LeadingZero(digits);
      "0" + digits
    else digits
  }

  /** The custom numeric format "00": a negative number is written as a minus
      sign in front of its magnitude in the same format. */
  function PadTwo(n: int): (s: string)
    ensures n >= 0 ==> AllDigits(s) && 2 <= |s| && DecimalValue(s) == n
    ensures 0 <= n <= 99 ==> |s| == 2
    ensures n < 0 ==> |s| >= 3 && s[0] == '-' && AllDigits(s[1..]) && DecimalValue(s[1..]) == -n
    ensures n >= 10 ==> s[0] != '0'
    ensures n <= -10 ==> s[1] != '0'
    ensures -99 <= n < 0 ==> |s| == 3
  {
    if n < 0 then "-" + PadTwoNat(-n) else PadTwoNat(n)
  }
}
