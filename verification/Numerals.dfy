/** Decimal numerals of natural numbers, without leading zeros. */
module Numerals {

  predicate IsNumeral(s: string) { forall i :: 0 <= i < |s| ==> '0' <= s[i] <= '9' }

  function Digits(n: nat): (s: string)
    ensures s != "" && IsNumeral(s)
  {
    (if n < 10 then "" else Digits(n / 10)) + [('0' as int + n % 10) as char]
  }

  function Natural(s: string): nat
    requires IsNumeral(s)
  {
    if s == "" then 0 else Natural(s[..|s| - 1]) * 10 + (s[|s| - 1] as int - '0' as int)
  }

  /** Reading a numeral back gives the number, so numerals of different numbers differ. */
  lemma {:induction false} NaturalOfDigits(n: nat)
    ensures Natural(Digits(n)) == n
  {
    var s := Digits(n);
    if n < 10 {
      assert s[..|s| - 1] == "";
    } else {
      assert s[..|s| - 1] == Digits(n / 10);
      NaturalOfDigits(n / 10);
    }
  }

  lemma {:induction false} DigitsShort(n: nat)
    requires n < 100000
    ensures |Digits(n)| <= 5
  {
    if n >= 10 {
      assert |Digits(n)| == |Digits(n / 10)| + 1;
      if n >= 100 {
        assert |Digits(n / 10)| == |Digits(n / 10 / 10)| + 1;
        if n >= 1000 {
          assert |Digits(n / 100)| == |Digits(n / 100 / 10)| + 1 && n / 10 / 10 == n / 100;
          if n >= 10000 {
            assert |Digits(n / 1000)| == |Digits(n / 1000 / 10)| + 1 && n / 100 / 10 == n / 1000;
            assert n / 1000 / 10 < 10;
          }
        }
      }
    }
  }
}
