/** Decimal text of unsigned amounts: JSON carries `u64` amounts as strings. */
module Decimal {
  import opened Prelude

  function DigitChar(d: nat): char
    requires d < 10
  {
    '0' + d as char
  }

  function DigitValue(c: char): Option<nat> {
    if '0' <= c <= '9' then Some((c - '0') as nat) else None
  }

  /** `n.to_string()`. */
  function ToDecimal(n: nat): (s: string)
    ensures s != [] && s[0] != '+'
  {
    if n < 10 then [DigitChar(n)] else ToDecimal(n / 10) + [DigitChar(n % 10)]
  }

  /** The value of a text made of decimal digits only, without a bound. */
  function DigitsValue(s: string): Option<nat> {
    if s == [] then Some(0)
    else
      var high, low := DigitsValue(s[..|s| - 1]), DigitValue(s[|s| - 1]);
      if high.Some? && low.Some? then Some(10 * high.value + low.value) else None
  }

  /** `text.parse::<u64>()`: an optional plus sign, at least one digit, no overflow. */
  function ParseU64(text: string): Option<U64> {
    var digits := if |text| > 1 && text[0] == '+' then text[1..] else text;
    var value := DigitsValue(digits);
    if digits == [] || value.None? || value.value >= U64_SIZE then None else Some(value.value)
  }

  lemma {:induction false} DigitsOfDecimal(n: nat)
    ensures DigitsValue(ToDecimal(n)) == Some(n)
    decreases n
  {
    var s := ToDecimal(n);
    if n < 10 {
      assert s[..0] == [];
    } else {
      DigitsOfDecimal(n / 10);
      assert s[..|s| - 1] == ToDecimal(n / 10);
    }
  }

  /** What the digits stand for, each weighted by its place. */
  function PlaceValue(s: string): int {
    if s == [] then 0 else 10 * PlaceValue(s[..|s| - 1]) + (s[|s| - 1] as int - '0' as int)
  }

  /** The text is the ordinary decimal notation: digits only, in their places, and no leading zero. */
  lemma {:induction false} DecimalNotation(n: nat)
    ensures var s := ToDecimal(n);
            && (forall i :: 0 <= i < |s| ==> '0' <= s[i] <= '9')
            && PlaceValue(s) == n
            && (s[0] == '0' ==> s == "0")
    decreases n
  {
    var s := ToDecimal(n);
    if n < 10 {
      assert s[..0] == [];
    } else {
      DecimalNotation(n / 10);
      assert s[..|s| - 1] == ToDecimal(n / 10);
      assert ToDecimal(n / 10) != "0" by {
        assert PlaceValue("0") == 0 by { assert "0"[..0] == []; }
      }
    }
  }

  /** The digits of a text after an optional plus sign. */
  predicate DigitsOnly(s: string) {
    s != [] && forall i :: 0 <= i < |s| ==> '0' <= s[i] <= '9'
  }

  lemma {:induction false} DigitsHaveValue(s: string)
    ensures DigitsValue(s).Some? <==> forall i :: 0 <= i < |s| ==> '0' <= s[i] <= '9'
    ensures DigitsValue(s).Some? ==> DigitsValue(s).value == PlaceValue(s)
    decreases |s|
  {
    if s != [] {
      DigitsHaveValue(s[..|s| - 1]);
    }
  }

  /** Exactly the digit texts below 2^64 are read, with an optional plus sign in front, as the number they spell. */
  lemma ParsesIff(text: string, n: U64)
    ensures ParseU64(text) == Some(n) <==>
            exists digits :: (text == digits || text == "+" + digits) && DigitsOnly(digits) && PlaceValue(digits) == n
  {
    var digits := if |text| > 1 && text[0] == '+' then text[1..] else text;
    DigitsHaveValue(digits);
    assert |text| > 1 && text[0] == '+' ==> text == "+" + digits;
    if d :| (text == d || text == "+" + d) && DigitsOnly(d) && PlaceValue(d) == n {
      assert text == d ==> text[0] == d[0] != '+';
      assert text == "+" + d ==> text[1..] == d;
      assert digits == d;
    }
  }

  /** Every amount survives its text form. */
  lemma ParseOfDecimal(n: U64)
    ensures ParseU64(ToDecimal(n)) == Some(n)
  {
    DigitsOfDecimal(n);
  }
}
