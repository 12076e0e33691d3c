/** Decimal rendering of naturals, as `%d` and strconv.Itoa write them. */
module Decimal {

  const DIGITS := "0123456789"

  function Itoa(n: nat): (s: string)
    ensures |s| >= 1
  {
    if n < 10 then [DIGITS[n]] else Itoa(n / 10) + [DIGITS[n % 10]]
  }

  function DigitOf(c: char): nat {
    if '0' <= c <= '9' then c as nat - '0' as nat else 0
  }

  /** The number a string of digits stands for. */
  function ValueOf(s: string): nat {
    if s == "" then 0 else 10 * ValueOf(s[..|s| - 1]) + DigitOf(s[|s| - 1])
  }

  predicate AllDigits(s: string) {
    forall i :: 0 <= i < |s| ==> '0' <= s[i] <= '9'
  }

  /** The rendering reads back as the number, in digits only and without a leading zero. */
  lemma {:induction false} ItoaReads(n: nat)
    ensures ValueOf(Itoa(n)) == n && AllDigits(Itoa(n)) && (Itoa(n)[0] == '0' ==> n == 0)
  {
    var s := Itoa(n);
    DigitsRead(n % 10);
    assert s[|s| - 1] == DIGITS[n % 10];
    if n < 10 {
      assert s[..|s| - 1] == "";
    } else {
      ItoaReads(n / 10);
      assert s[..|s| - 1] == Itoa(n / 10);
    }
  }

  lemma DigitsRead(d: nat)
    requires d < 10
    ensures '0' <= DIGITS[d] <= '9' && DigitOf(DIGITS[d]) == d
  {
    assert DIGITS == ['0', '1', '2', '3', '4', '5', '6', '7', '8', '9'];
  }

  lemma ItoaInjective(m: nat, n: nat)
    requires Itoa(m) == Itoa(n)
    ensures m == n
  {
    ItoaReads(m);
    ItoaReads(n);
  }
}
