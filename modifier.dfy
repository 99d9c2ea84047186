/**
 * The signed-modifier formatter shared by the chat palette and the character sheet
 * (`modifierValue` in backend/src/cleate5eUdonariumPc.ts).
 */
module Modifier {
  import opened JsText
  import opened JsNumber

  /** A modifier shown with its sign spelled out: `+` or `-` followed by a canonical numeral, never `-0`. */
  predicate IsSignedModifier(s: string) {
    |s| >= 2 && (s[0] == '+' || s[0] == '-') && IsCanonicalDecimal(s[1..]) && (s[0] == '-' ==> s[1] != '0')
  }

  /** The display form of the number `n`: `+0` for zero, `String(n)` when negative, `+` and `String(n)` otherwise. */
  function SignedModifier(n: int): (r: string)
    ensures IsSignedModifier(r)
    ensures ToNumber(r) == Finite(n)
    ensures r[0] == '-' <==> n < 0
  {
    if n == 0 then
      PlusZeroReadsBack();
      "+0"
    else if n < 0 then
      NumberToString(n)
    else
      var d := NumberToString(n);
      var r := "+" + d;
      NumeralReadsBack("+", d);
      assert r[1..] == d;
      r
  }

  /** `modifierValue(val)`: a string that is not a number is returned unchanged; a number is shown with an explicit sign. */
  function ModifierValue(val: string): string {
    match ToNumber(val)
    case NaN => val
    case Finite(n) => SignedModifier(n)
  }

  /**
   * What `ModifierValue` promises: the result denotes the same number as `val`; text that is not
   * a number passes through; a number comes out as a signed modifier whose sign is its own.
   */
  lemma ModifierValueMeaning(val: string)
    ensures ToNumber(ModifierValue(val)) == ToNumber(val)
    ensures ToNumber(val).NaN? ==> ModifierValue(val) == val
    ensures ToNumber(val).Finite? ==>
              var r := ModifierValue(val);
              IsSignedModifier(r) && (r[0] == '-' <==> ToNumber(val).value < 0)
  {
  }

  /** `+0` is a signed modifier and reads back as 0. */
  lemma PlusZeroReadsBack()
    ensures IsSignedModifier("+0") && ToNumber("+0") == Finite(0)
  {
    NumeralReadsBack("+", "0");
    assert "+" + "0" == "+0";
  }

  /** A signed modifier is determined by the number it denotes. */
  lemma {:induction false} SignedModifierUnique(s: string)
    requires IsSignedModifier(s)
    ensures ToNumber(s).Finite? && SignedModifier(ToNumber(s).value) == s
  {
    var digits := s[1..];
    assert s == [s[0]] + digits;
    NumeralReadsBack([s[0]], digits);
    DecimalOfValue(digits);
    var n := ToNumber(s).value;
    if digits == "0" {
      assert n == 0;
    } else {
      LeadingDigitPositive(digits);
      if n < 0 {
        assert NumberToString(n) == "-" + Decimal(-n);
      } else {
        assert NumberToString(n) == Decimal(n);
      }
    }
  }

  /** Formatting an already formatted modifier changes nothing. */
  lemma ModifierIdempotent(val: string)
    ensures ModifierValue(ModifierValue(val)) == ModifierValue(val)
  {
    ModifierValueMeaning(val);
    ModifierValueMeaning(ModifierValue(val));
  }

  /** Blank and zero cells show as `+0`, since `Number` reads them as 0. */
  lemma BlankOrZeroShowsPlusZero()
    ensures ModifierValue("") == "+0"
    ensures ModifierValue("  ") == "+0"
    ensures ModifierValue("0") == "+0"
    ensures ModifierValue("-0") == "+0"
  {
    assert Trim("  ") == "";
    NumeralReadsBack("", "0");
    NumeralReadsBack("-", "0");
    assert "" + "0" == "0" && "-" + "0" == "-0";
  }

  /** A positive number gains a `+`; an explicit `+` is kept. */
  lemma PositiveGainsPlus()
    ensures ModifierValue("3") == "+3"
    ensures ModifierValue("+5") == "+5"
  {
    NumeralReadsBack("", "3");
    NumeralReadsBack("+", "5");
    assert "" + "3" == "3" && "+" + "5" == "+5";
    assert DigitsValue("3") == 3 && DigitsValue("5") == 5;
    assert Decimal(3) == "3" && Decimal(5) == "5";
  }

  /** A negative number is shown as `String` prints it. */
  lemma NegativeKeepsMinus()
    ensures ModifierValue("-2") == "-2"
  {
    NumeralReadsBack("-", "2");
    assert "-" + "2" == "-2";
    assert DigitsValue("2") == 2;
    assert Decimal(2) == "2";
  }

  /** A cell that is not a number, such as a dice expression, passes through unchanged. */
  lemma TextPassesThrough()
    ensures ModifierValue("d6") == "d6"
  {
    assert IsTrimmed("d6") && !AllDigits("d6");
  }
}
