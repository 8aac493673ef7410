/** Integers written out in decimal, as a template literal `${n}` prints them. */
module Decimal {

  function DigitChar(d: nat): (c: char)
    requires d < 10
    ensures '0' <= c <= '9'
  {
    ('0' as int + d) as char
  }

  /** The decimal digits of `n`, without leading zeros, as JavaScript prints an integer. */
  function NatToString(n: nat): (s: string)
    ensures |s| > 0 && forall i :: 0 <= i < |s| ==> '0' <= s[i] <= '9'
    ensures |s| == 1 || s[0] != '0'
  {
    (if n < 10 then "" else NatToString(n / 10)) + [DigitChar(n % 10)]
  }

  /** The number a string of decimal digits denotes, reading each character as a digit. */
  function DigitsValue(s: string): int
  {
    if s == [] then 0 else DigitsValue(s[..|s| - 1]) * 10 + (s[|s| - 1] as int - '0' as int)
  }

  /** `${n}` for an integer `n`. */
  function IntToString(n: int): string
  {
    if n < 0 then "-" + NatToString(-n) else NatToString(n)
  }

  lemma DigitValue(d: nat)
    requires d < 10
    ensures DigitChar(d) as int - '0' as int == d
  {
  }

  /** Appending a digit multiplies the value by ten and adds the digit. */
  lemma {:induction false} DigitsValueAppend(prefix: string, d: nat)
    requires d < 10
    ensures DigitsValue(prefix + [DigitChar(d)]) == DigitsValue(prefix) * 10 + d
  {
    var s := prefix + [DigitChar(d)];
    assert s[..|s| - 1] == prefix;
    DigitValue(d);
  }

  /** The digits of an integer denote that integer. */
  lemma {:induction false} DigitsRoundTrip(n: nat)
    ensures DigitsValue(NatToString(n)) == n
  {
    if n < 10 {
      DigitsValueAppend("", n);
      assert NatToString(n) == "" + [DigitChar(n)];
    } else {
      DigitsRoundTrip(n / 10);
      DigitsValueAppend(NatToString(n / 10), n % 10);
    }
  }

  /** A non-negative integer is printed as digits that denote it. */
  lemma IntToStringNonNegative(n: int)
    requires n >= 0
    ensures DigitsValue(IntToString(n)) == n
  {
    DigitsRoundTrip(n);
  }

  /** A negative integer is printed as "-" followed by digits that denote its magnitude. */
  lemma IntToStringNegative(magnitude: nat)
    requires magnitude > 0
    ensures |IntToString(-(magnitude as int))| > 1 && IntToString(-(magnitude as int))[0] == '-'
    ensures DigitsValue(IntToString(-(magnitude as int))[1..]) == magnitude
  {
    var digits := NatToString(magnitude);
    var s := IntToString(-(magnitude as int));
    assert s == ['-'] + digits;
    assert s[1..] == digits;
    DigitsRoundTrip(magnitude);
  }
}
