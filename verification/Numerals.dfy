/** Natural numbers as texts of digits. */
module Numerals {

  predicate Digits(text: string) {
    forall i | 0 <= i < |text| :: '0' <= text[i] <= '9'
  }

  function Decimal(n: nat): string {
    (if n < 10 then "" else Decimal(n / 10)) + [('0' as int + n % 10) as char]
  }

  /** The number that a text of digits stands for. */
  ghost function ValueOf(digits: string): nat
    requires Digits(digits)
  {
    if digits == "" then 0 else 10 * ValueOf(digits[..|digits| - 1]) + (digits[|digits| - 1] - '0') as nat
  }

  /** The decimal text of a number is digits that stand for it, without a zero too many in front. */
  lemma {:induction false} DecimalReads(n: nat)
    ensures var text := Decimal(n);
            text != "" && Digits(text) && ValueOf(text) == n && (|text| > 1 ==> text[0] != '0')
  {
    if n >= 10 {
      DecimalReads(n / 10);
      assert Decimal(n)[..|Decimal(n)| - 1] == Decimal(n / 10);
    } else {
      assert Decimal(n)[..0] == "";
    }
  }
}
