/** Decimal rendering as done by `fmt`'s `%d` verb, with its parser as partner. */
module Format {

  function DigitChar(d: nat): char
    requires d < 10
  {
    "0123456789"[d]
  }

  predicate IsDigit(c: char) {
    '0' <= c <= '9'
  }

  /** `%d` of a non-negative integer: its shortest decimal numeral. */
  function NatToDecimal(n: nat): (s: string)
    ensures |s| >= 1
    ensures forall i :: 0 <= i < |s| ==> IsDigit(s[i])
    ensures n > 0 ==> s[0] != '0'
    decreases n
  {
    if n < 10 then [DigitChar(n)] else NatToDecimal(n / 10) + [DigitChar(n % 10)]
  }

  /**
   * `%d` of any integer: a leading minus exactly for negative values, then
   * the digits of the magnitude, which read back to it.
   */
  function IntToDecimal(n: int): (s: string)
    ensures |s| >= 1
    ensures s[0] == '-' <==> n < 0
    ensures n < 0 ==> |s| >= 2 && (forall i :: 1 <= i < |s| ==> IsDigit(s[i])) && DecimalValue(s[1..]) == -n
    ensures n >= 0 ==> (forall i :: 0 <= i < |s| ==> IsDigit(s[i])) && DecimalValue(s) == n
  {
    if n < 0 then
      DecimalRoundTrip(-n);
      MinusNumeral(NatToDecimal(-n), -n);
      "-" + NatToDecimal(-n)
    else
      DecimalRoundTrip(n);
      NatToDecimal(n)
  }

  /** A minus sign in front of a numeral keeps the numeral readable after it. */
  lemma MinusNumeral(digits: string, m: nat)
    requires |digits| >= 1 && forall i :: 0 <= i < |digits| ==> IsDigit(digits[i])
    requires DecimalValue(digits) == m
    ensures var s := "-" + digits;
      && |s| >= 2 && s[0] == '-' && s[1..] == digits
      && (forall i :: 1 <= i < |s| ==> IsDigit(s[i]))
      && DecimalValue(s[1..]) == m
  {
    var s := "-" + digits;
    assert s[1..] == digits;
    assert forall i :: 1 <= i < |s| ==> s[i] == digits[i - 1];
  }

  /** The value of a string of decimal digits. */
  function DecimalValue(s: string): nat
    requires forall i :: 0 <= i < |s| ==> IsDigit(s[i])
  {
    if s == [] then 0
    else
      assert IsDigit(s[|s| - 1]);
      DecimalValue(s[..|s| - 1]) * 10 + (s[|s| - 1] as int - '0' as int)
  }

  /** Reading back what `%d` printed gives the number again. */
  lemma {:induction false} DecimalRoundTrip(n: nat)
    ensures DecimalValue(NatToDecimal(n)) == n
    decreases n
  {
    var s := NatToDecimal(n);
    if n >= 10 {
      DecimalRoundTrip(n / 10);
      assert s[..|s| - 1] == NatToDecimal(n / 10);
    }
  }
}
