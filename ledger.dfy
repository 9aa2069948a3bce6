/**
 * The income/expense split every view derives from the transaction list
 * (`transactions.filter(t => t.type === 'expense')` and the like), with
 * the totals the dashboard shows.
 */
module Ledger {
  import opened Types
  import Seqs

  predicate IsExpense(t: Transaction) {
    t.kind == Expense
  }

  predicate IsIncome(t: Transaction) {
    t.kind == Income
  }

  function Amount(t: Transaction): real {
    t.amount
  }

  /** The amount, counted positive for income and negative for an expense. */
  function Signed(t: Transaction): real {
    if t.kind == Income then t.amount else -t.amount
  }

  /** The expenses, in list order. */
  function Expenses(ts: seq<Transaction>): (r: seq<Transaction>)
    ensures forall t {:trigger t in r} :: t in r <==> t in ts && t.kind == Expense
  {
    Seqs.Filter(ts, IsExpense)
  }

  function Incomes(ts: seq<Transaction>): (r: seq<Transaction>)
    ensures forall t {:trigger t in r} :: t in r <==> t in ts && t.kind == Income
  {
    Seqs.Filter(ts, IsIncome)
  }

  function TotalIncome(ts: seq<Transaction>): real {
    Seqs.SumOf(Incomes(ts), Amount)
  }

  function TotalExpenses(ts: seq<Transaction>): real {
    Seqs.SumOf(Expenses(ts), Amount)
  }

  /** Appending a transaction appends it to the one list its type selects. */
  lemma SplitSnoc(init: seq<Transaction>, last: Transaction)
    ensures Incomes(init + [last]) == Incomes(init) + (if last.kind == Income then [last] else [])
    ensures Expenses(init + [last]) == Expenses(init) + (if last.kind == Expense then [last] else [])
  {
    Seqs.FilterConcat(init, [last], IsIncome);
    Seqs.FilterConcat(init, [last], IsExpense);
    assert [last][1..] == [];
  }

  /** Every transaction is income or an expense, never both: the two lists share out the transactions. */
  lemma {:induction false} SplitIsExact(ts: seq<Transaction>)
    ensures multiset(Incomes(ts)) + multiset(Expenses(ts)) == multiset(ts)
    ensures |Incomes(ts)| + |Expenses(ts)| == |ts|
  {
    if ts != [] {
      var init := ts[..|ts| - 1];
      SplitIsExact(init);
      assert ts == init + [ts[|ts| - 1]];
      SplitSnoc(init, ts[|ts| - 1]);
    }
  }

  /** The signed sum of all the transactions is income minus expenses. */
  lemma {:induction false} SignedSumIsNet(ts: seq<Transaction>)
    ensures Seqs.SumOf(ts, Signed) == TotalIncome(ts) - TotalExpenses(ts)
  {
    if ts != [] {
      var init := ts[..|ts| - 1];
      var last := ts[|ts| - 1];
      SignedSumIsNet(init);
      assert Seqs.SumOf(ts, Signed) == Seqs.SumOf(init, Signed) + Signed(last);
      assert ts == init + [last];
      SplitSnoc(init, last);
      if last.kind == Income {
        Seqs.SumOfConcat(Incomes(init), [last], Amount);
        assert TotalIncome(ts) == TotalIncome(init) + last.amount;
        assert Expenses(init) + [] == Expenses(init);
      } else {
        Seqs.SumOfConcat(Expenses(init), [last], Amount);
        assert Incomes(init) + [] == Incomes(init);
        assert TotalExpenses(ts) == TotalExpenses(init) + last.amount;
      }
    }
  }
}
