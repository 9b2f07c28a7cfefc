/**
 * The savings arithmetic shared by the home page and the member's account
 * page: which transactions count as savings, and the running sum of amounts
 * that `reduce((sum, t) => sum + t.amount, 0)` computes.
 */
module Ledger {
  import opened Types

  /** A transaction counts towards savings only when it is a paid deposit. */
  predicate IsPaidSavings(t: Transaction)
  {
    t.txType == Savings && t.status == Paid
  }

  /** Reference sum of the amounts: the first amount plus the sum of the rest. */
  function SumAmounts(ts: seq<Transaction>): int
  {
    if ts == [] then 0 else ts[0].amount + SumAmounts(ts[1..])
  }

  /**
   * `reduce((sum, t) => sum + t.amount, acc)`: a left fold that adds each
   * amount to the running sum in list order. It ends at the start value
   * plus the reference sum.
   */
  function Reduce(ts: seq<Transaction>, acc: int): (r: int)
    ensures r == acc + SumAmounts(ts)
  {
    if ts == [] then acc else Reduce(ts[1..], acc + ts[0].amount)
  }

  /** The sum of a concatenation is the sum of the parts. */
  lemma {:induction false} SumAppend(a: seq<Transaction>, b: seq<Transaction>)
    ensures SumAmounts(a + b) == SumAmounts(a) + SumAmounts(b)
  {
    if a == [] {
      assert a + b == b;
    } else {
      assert (a + b)[1..] == a[1..] + b;
      SumAppend(a[1..], b);
    }
  }
}
