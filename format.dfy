/** Python's fixed-point formatting with no decimals (`{x:.0f}`) on the
    mathematical reals: round half to even, decimal digits, and a minus sign for
    every negative input, including those that round to zero ("-0"). */
module NumberFormat {

  predicate IsDigit(c: char) {
    '0' <= c <= '9'
  }

  predicate AllDigits(s: string) {
    forall i :: 0 <= i < |s| ==> IsDigit(s[i])
  }

  /** The nearest integer to `x`; on a tie, the even one. */
  function RoundHalfEven(x: real): (n: int)
    ensures n as real - 0.5 <= x <= n as real + 0.5
    ensures (x == n as real - 0.5 || x == n as real + 0.5) ==> n % 2 == 0
  {
    var f := x.Floor;
    var d := x - f as real;
    if d < 0.5 then f
    else if d > 0.5 then f + 1
    else if f % 2 == 0 then f
    else f + 1
  }

  /** The contract of RoundHalfEven leaves no choice: any integer within a half
      of `x` that is even on a tie is the rounded value. */
  lemma RoundHalfEvenUnique(x: real, m: int)
    requires m as real - 0.5 <= x <= m as real + 0.5
    requires (x == m as real - 0.5 || x == m as real + 0.5) ==> m % 2 == 0
    ensures m == RoundHalfEven(x)
  {
  }

  function DigitChar(d: int): (c: char)
    requires 0 <= d <= 9
    ensures IsDigit(c) && c as int - '0' as int == d
  {
    ('0' as int + d) as char
  }

  /** The number a string of decimal digits spells. */
  function DecimalValue(s: string): (n: nat)
    requires AllDigits(s)
  {
    if s == [] then 0 else DecimalValue(s[..|s| - 1]) * 10 + (s[|s| - 1] as int - '0' as int)
  }

  /** The decimal digits of `n`, without leading zeros; reading them back gives `n`. */
  function Decimal(n: nat): (s: string)
    ensures |s| >= 1 && AllDigits(s)
    ensures |s| > 1 ==> s[0] != '0'
    ensures DecimalValue(s) == n
  {
    if n < 10 then [DigitChar(n)]
    else
      var init := Decimal(n / 10);
      var s := init + [DigitChar(n % 10)];
      assert s[..|s| - 1] == init;
      s
  }

  /** A string of digits with a non-zero first digit spells a positive number. */
  lemma {:induction false} LeadingDigitPositive(s: string)
    requires |s| >= 1 && AllDigits(s) && s[0] != '0'
    ensures DecimalValue(s) >= 1
  {
    if |s| > 1 {
      LeadingDigitPositive(s[..|s| - 1]);
    }
  }

  /** Digits without a leading zero are the only way to write their value:
      together with FormatFixed0's contract this fixes the printed string. */
  lemma {:induction false} DecimalCanonical(s: string)
    requires |s| >= 1 && AllDigits(s) && (|s| > 1 ==> s[0] != '0')
    ensures Decimal(DecimalValue(s)) == s
  {
    if |s| > 1 {
      var init := s[..|s| - 1];
      LeadingDigitPositive(init);
      DecimalCanonical(init);
      var n := DecimalValue(s);
      assert n / 10 == DecimalValue(init) && n % 10 == s[|s| - 1] as int - '0' as int;
      assert s == init + [s[|s| - 1]];
    }
  }

  /** `{x:.0f}`: a sign for negative inputs, then the digits of |x| rounded half to even. */
  function FormatFixed0(x: real): (s: string)
    ensures x >= 0.0 ==> |s| >= 1 && AllDigits(s) && (|s| > 1 ==> s[0] != '0') &&
                         DecimalValue(s) == RoundHalfEven(x)
    ensures x < 0.0 ==> |s| >= 2 && s[0] == '-' && AllDigits(s[1..]) && (|s| > 2 ==> s[1] != '0') &&
                        DecimalValue(s[1..]) == -RoundHalfEven(x)
  {
    var n := RoundHalfEven(x);
    if x < 0.0 then
      assert n <= 0;
      "-" + Decimal(-n)
    else
      Decimal(n)
  }

  /** A score of 62.5 prints as 62 and 63.5 as 64: ties go to the even neighbour. */
  lemma TiesGoToEven()
    ensures FormatFixed0(62.5) == "62" && FormatFixed0(63.5) == "64"
  {
    RoundHalfEvenUnique(62.5, 62);
    RoundHalfEvenUnique(63.5, 64);
    assert Decimal(6) == "6";
    assert Decimal(62) == "62";
    assert Decimal(64) == "64";
  }
}
