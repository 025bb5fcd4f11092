/** Decimal text of natural numbers. */
module Decimal {
  import opened Bytes

  predicate AllDigits(s: Text) {
    forall i | 0 <= i < |s| :: 0x30 <= s[i] <= 0x39
  }

  function Print(n: nat): (s: Text)
    ensures s != [] && AllDigits(s)
  {
    if n < 10 then [0x30 + n] else Print(n / 10) + [0x30 + n % 10]
  }

  function Value(s: Text): nat
    requires AllDigits(s)
  {
    if s == [] then 0 else 10 * Value(s[..|s| - 1]) + (s[|s| - 1] as int - 0x30)
  }

  /** Printing loses nothing, so different numbers have different texts. */
  lemma {:induction false} PrintedValue(n: nat)
    ensures Value(Print(n)) == n
  {
    if n >= 10 {
      PrintedValue(n / 10);
      assert Print(n)[..|Print(n)| - 1] == Print(n / 10);
    }
  }

  lemma PrintIsInjective(m: nat, n: nat)
    requires Print(m) == Print(n)
    ensures m == n
  {
    PrintedValue(m);
    PrintedValue(n);
  }
}
