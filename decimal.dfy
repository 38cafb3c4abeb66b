/** Go's `fmt.Sprintf("%d", n)` for integers: an optional minus sign
    followed by the shortest decimal digit string, and a reader for that
    form so that the text written for an id can be shown to determine it. */
module Decimal {
  import opened Wrappers

  function DigitChar(d: nat): (c: char)
    requires d < 10
    ensures '0' <= c <= '9'
  {
    "0123456789"[d]
  }

  function DigitValue(c: char): (d: nat)
    requires '0' <= c <= '9'
    ensures d < 10
  {
    c as int - '0' as int
  }

  predicate IsDigits(s: string)
  {
    |s| > 0 && forall i :: 0 <= i < |s| ==> '0' <= s[i] <= '9'
  }

  /** The digits of a natural number, most significant first. */
  function Digits(n: nat): (s: string)
    ensures IsDigits(s)
    ensures s[0] == '0' ==> n == 0
    decreases n
  {
    if n < 10 then [DigitChar(n)] else Digits(n / 10) + [DigitChar(n % 10)]
  }

  /** `%d`: a leading '-' for negative values, then the digits of the magnitude. */
  function DecimalString(n: int): (s: string)
    ensures |s| > 0
    ensures (s[0] == '-') <==> n < 0
    ensures n < 0 ==> IsDigits(s[1..])
    ensures n >= 0 ==> IsDigits(s)
  {
    if n < 0 then "-" + Digits(-n) else Digits(n)
  }

  /** The value of a digit string, read left to right. */
  function ParseDigits(s: string): nat
    requires IsDigits(s)
    decreases |s|
  {
    if |s| == 1 then DigitValue(s[0]) else ParseDigits(s[..|s| - 1]) * 10 + DigitValue(s[|s| - 1])
  }

  /** Reads an optional '-' followed by at least one digit. */
  function ParseDecimal(s: string): Option<int>
  {
    if |s| > 0 && s[0] == '-' then
      (if IsDigits(s[1..]) then Some(-(ParseDigits(s[1..]) as int)) else None)
    else if IsDigits(s) then Some(ParseDigits(s))
    else None
  }

  lemma DigitRoundTrip(d: nat)
    requires d < 10
    ensures DigitValue(DigitChar(d)) == d
  {
  }

  lemma {:induction false} DigitsRoundTrip(n: nat)
    ensures ParseDigits(Digits(n)) == n
    decreases n
  {
    if n < 10 {
      DigitRoundTrip(n);
    } else {
      var s := Digits(n);
      assert s == Digits(n / 10) + [DigitChar(n % 10)];
      assert s[..|s| - 1] == Digits(n / 10);
      DigitsRoundTrip(n / 10);
      DigitRoundTrip(n % 10);
    }
  }

  /** The text `%d` writes for an integer reads back as that integer, so
      distinct ids never produce the same text. */
  lemma DecimalRoundTrip(n: int)
    ensures ParseDecimal(DecimalString(n)) == Some(n)
  {
    var s := DecimalString(n);
    if n < 0 {
      var ds := Digits(-n);
      assert s == "-" + ds;
      assert s[1..] == ds;
      DigitsRoundTrip(-n);
      assert ParseDecimal(s) == Some(-(ParseDigits(ds) as int));
    } else {
      var ds := Digits(n);
      assert s == ds;
      assert '0' <= s[0] <= '9';
      DigitsRoundTrip(n);
      assert ParseDecimal(s) == Some(ParseDigits(ds) as int);
    }
  }

  lemma DecimalInjective(m: int, n: int)
    requires DecimalString(m) == DecimalString(n)
    ensures m == n
  {
    DecimalRoundTrip(m);
    DecimalRoundTrip(n);
  }
}
