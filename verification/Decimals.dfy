/**
 * Decimal numbers as `Number` reads and a template string prints them.
 *
 * Both are exact for integers up to 2^53, which is where the model uses them:
 * for the line numbers of diffs and for the index of a fork title, whose parser
 * rejects anything larger by itself.
 */
module Decimals {
  predicate IsDigit(c: char) {
    '0' <= c <= '9'
  }

  predicate AllDigits(s: string) {
    forall i :: 0 <= i < |s| ==> IsDigit(s[i])
  }

  /** `Number` of a digit string. */
  function Value(digits: string): nat
    requires AllDigits(digits)
  {
    if digits == "" then 0
    else 10 * Value(digits[..|digits| - 1]) + (digits[|digits| - 1] - '0') as nat
  }

  function Decimal(n: nat): string {
    (if n < 10 then "" else Decimal(n / 10)) + ['0' + (n % 10) as char]
  }

  lemma {:induction false} DecimalIsRead(n: nat)
    ensures AllDigits(Decimal(n)) && Decimal(n) != "" && Value(Decimal(n)) == n
  {
    var last := '0' + (n % 10) as char;
    if n < 10 {
      assert Decimal(n) == [last];
      assert Value([last][..0]) == 0;
    } else {
      DecimalIsRead(n / 10);
      var digits := Decimal(n);
      assert digits[..|digits| - 1] == Decimal(n / 10);
    }
  }

  lemma {:induction false} DecimalIsDigits(n: nat)
    ensures forall c :: c in Decimal(n) ==> IsDigit(c)
  {
    DecimalIsRead(n);
    assert forall i :: 0 <= i < |Decimal(n)| ==> IsDigit(Decimal(n)[i]);
  }
}
