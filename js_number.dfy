/**
 * JavaScript's `Number(s)` on strings and `String(n)` on the numbers it yields, restricted to
 * integers: after `trim`, the empty string is 0, an optional sign followed by decimal digits is
 * that integer, and everything else is NaN.
 */
module JsNumber {
  import opened JsText

  datatype Number = NaN | Finite(value: int)

  predicate IsDigit(c: char) {
    '0' <= c <= '9'
  }

  predicate AllDigits(s: string) {
    forall i :: 0 <= i < |s| ==> IsDigit(s[i])
  }

  /** A decimal numeral with no superfluous leading zero: the form `String(n)` prints. */
  predicate IsCanonicalDecimal(s: string) {
    |s| >= 1 && AllDigits(s) && (s[0] == '0' ==> |s| == 1)
  }

  function DigitValue(c: char): (d: nat)
    requires IsDigit(c)
    ensures d < 10
  {
    (c as int) - ('0' as int)
  }

  function DigitChar(d: nat): (c: char)
    requires d < 10
    ensures IsDigit(c) && DigitValue(c) == d
  {
    (('0' as int) + d) as char
  }

  /** The value of a string of decimal digits, most significant first. */
  function DigitsValue(s: string): nat
    requires AllDigits(s)
  {
    if s == [] then 0 else 10 * DigitsValue(s[..|s| - 1]) + DigitValue(s[|s| - 1])
  }

  /** `String(n)` for a natural number: its canonical decimal numeral, which reads back as `n`. */
  function Decimal(n: nat): (r: string)
    ensures IsCanonicalDecimal(r)
    ensures DigitsValue(r) == n
  {
    if n < 10 then [DigitChar(n)]
    else
      var init := Decimal(n / 10);
      var r := init + [DigitChar(n % 10)];
      assert r[..|r| - 1] == init;
      r
  }

  /** A canonical numeral starting with a non-zero digit has a positive value. */
  lemma {:induction false} LeadingDigitPositive(s: string)
    requires IsCanonicalDecimal(s) && s[0] != '0'
    ensures DigitsValue(s) >= 1
  {
    if |s| > 1 {
      LeadingDigitPositive(s[..|s| - 1]);
    }
  }

  /** Every canonical numeral is the one `Decimal` prints for its value. */
  lemma {:induction false} DecimalOfValue(s: string)
    requires IsCanonicalDecimal(s)
    ensures Decimal(DigitsValue(s)) == s
  {
    if |s| > 1 {
      var init := s[..|s| - 1];
      LeadingDigitPositive(init);
      DecimalOfValue(init);
      assert s == init + [s[|s| - 1]];
    }
  }

  /** `Number(s)`: white space around the numeral is ignored. */
  function ToNumber(s: string): Number {
    NumeralValue(Trim(s))
  }

  /** The value of an already trimmed string: empty is 0, a signed or unsigned digit string its integer. */
  function NumeralValue(t: string): Number {
    if t == [] then Finite(0)
    else if (t[0] == '+' || t[0] == '-') && |t| > 1 && AllDigits(t[1..]) then
      var magnitude: int := DigitsValue(t[1..]);
      Finite(if t[0] == '-' then -magnitude else magnitude)
    else if AllDigits(t) then Finite(DigitsValue(t))
    else NaN
  }

  /** A signed or unsigned canonical numeral has nothing for `trim` to remove. */
  lemma {:induction false} NumeralIsTrimmed(sign: string, digits: string)
    requires sign == "" || sign == "+" || sign == "-"
    requires IsCanonicalDecimal(digits)
    ensures ToNumber(sign + digits) == NumeralValue(sign + digits)
  {
    var s := sign + digits;
    assert s[|s| - 1] == digits[|digits| - 1];
    assert s[0] == if sign == "" then digits[0] else sign[0];
    assert IsTrimmed(s);
  }

  /** A signed or unsigned canonical numeral reads back as the integer it spells. */
  lemma {:induction false} NumeralReadsBack(sign: string, digits: string)
    requires sign == "" || sign == "+" || sign == "-"
    requires IsCanonicalDecimal(digits)
    ensures ToNumber(sign + digits)
         == Finite(if sign == "-" then -(DigitsValue(digits) as int) else DigitsValue(digits))
  {
    NumeralIsTrimmed(sign, digits);
    var s := sign + digits;
    if sign == "" {
      assert s == digits;
      assert !(s[0] == '+' || s[0] == '-');
      assert NumeralValue(s) == Finite(DigitsValue(digits));
    } else {
      assert s[1..] == digits;
      assert s[0] == sign[0];
      var magnitude: int := DigitsValue(digits);
      assert NumeralValue(s) == Finite(if s[0] == '-' then -magnitude else magnitude);
    }
  }

  /** `String(n)` for an integer: a `-` before the magnitude when negative. */
  function NumberToString(n: int): (r: string)
    ensures ToNumber(r) == Finite(n)
    ensures |r| >= 1
    ensures r[0] == '-' <==> n < 0
    ensures n < 0 ==> r[1..] == Decimal(-n)
    ensures n >= 0 ==> r == Decimal(n)
  {
    if n < 0 then
      NumeralReadsBack("-", Decimal(-n));
      var r := "-" + Decimal(-n);
      assert r[1..] == Decimal(-n);
      r
    else
      NumeralReadsBack("", Decimal(n));
      assert "" + Decimal(n) == Decimal(n);
      Decimal(n)
  }
}
