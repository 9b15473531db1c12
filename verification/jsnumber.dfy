/**
 * The two conversions between text and numbers that the forms perform:
 * `Number(value)` when a numeric input changes, and the decimal text React
 * shows for a number bound to an input's `value`. Only integers are modelled.
 */
module JsNumber {

  predicate IsDigit(c: char)
  {
    '0' <= c <= '9'
  }

  predicate AllDigits(s: string)
  {
    forall i :: 0 <= i < |s| ==> IsDigit(s[i])
  }

  /**
   * Texts a number input can hand over that denote an integer: the empty
   * text of a cleared input, or decimal digits with an optional minus sign.
   */
  predicate IsIntegerText(s: string)
  {
    s == "" || (|s| > 0 && AllDigits(s)) || (|s| > 1 && s[0] == '-' && AllDigits(s[1..]))
  }

  function DigitValue(c: char): (d: nat)
    requires IsDigit(c)
    ensures d < 10
  {
    (c as int) - ('0' as int)
  }

  function DigitChar(d: nat): (c: char)
    requires d < 10
    ensures IsDigit(c) && DigitValue(c) == d
  {
    ('0' as int + d) as char
  }

  /** The value of a string of decimal digits, most significant first. */
  function DigitsValue(s: string): (n: nat)
    requires AllDigits(s)
  {
    if |s| == 0 then 0 else DigitsValue(s[..|s| - 1]) * 10 + DigitValue(s[|s| - 1])
  }

  /** `Number(value)` on an integer text; the empty text converts to 0. */
  function Number(s: string): (n: int)
    requires IsIntegerText(s)
    ensures s == "" ==> n == 0
    ensures |s| > 0 && s[0] != '-' ==> n >= 0
    ensures |s| > 0 && s[0] == '-' ==> n <= 0
  {
    if s == "" then 0
    else if s[0] == '-' then -(DigitsValue(s[1..]) as int)
    else DigitsValue(s)
  }

  /** Decimal digits of a natural number, without leading zeros. */
  function ShowNat(n: nat): (s: string)
    ensures |s| > 0 && AllDigits(s)
  {
    if n < 10 then [DigitChar(n)] else ShowNat(n / 10) + [DigitChar(n % 10)]
  }

  /** The text shown for an integer bound to an input's `value`. */
  function Show(n: int): (s: string)
    ensures IsIntegerText(s) && s != ""
  {
    if n < 0 then "-" + ShowNat(-n) else ShowNat(n)
  }

  lemma {:induction false} DigitsOfShowNat(n: nat)
    ensures DigitsValue(ShowNat(n)) == n
  {
    if n >= 10 {
      var s := ShowNat(n);
      assert s[..|s| - 1] == ShowNat(n / 10);
      DigitsOfShowNat(n / 10);
    }
  }

  /** Reading back the text shown for a number gives the same number. */
  lemma NumberOfShow(n: int)
    ensures Number(Show(n)) == n
  {
    if n < 0 {
      assert Show(n)[1..] == ShowNat(-n);
      DigitsOfShowNat(-n);
    } else {
      DigitsOfShowNat(n);
    }
  }
}
