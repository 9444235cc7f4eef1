/** The dashboard's summary cards: total income, total expense, the net flow
    with its surplus/deficit badge, and the total of the budget limits. */
module SummaryCards {
  import opened Seqs
  import opened Records
  import opened Budgets

  /** `t.type === 'income'`. */
  function IsIncome(t: Transaction): bool { t.kind == "income" }

  /** Neither income nor expense: counted in neither total. */
  function IsOtherKind(t: Transaction): bool { !IsIncome(t) && !IsExpense(t) }

  function TotalIncome(ts: seq<Transaction>): int
  {
    SumBy(Filter(ts, IsIncome), TransactionAmount)
  }

  function TotalExpense(ts: seq<Transaction>): int
  {
    SumBy(Filter(ts, IsExpense), TransactionAmount)
  }

  /** Every transaction counts in exactly one of income, expense and other. */
  lemma {:induction false} KindsPartition(ts: seq<Transaction>)
    ensures SumWhere(ts, IsIncome, TransactionAmount) + SumWhere(ts, IsExpense, TransactionAmount) +
            SumWhere(ts, IsOtherKind, TransactionAmount) == SumBy(ts, TransactionAmount)
  {
    if ts != [] {
      KindsPartition(ts[..|ts| - 1]);
    }
  }

  /** The two totals sum the income and the expense transactions, and the
      transactions of any other type make up the rest of the grand total. */
  lemma TotalsPartition(ts: seq<Transaction>)
    ensures TotalIncome(ts) == SumWhere(ts, IsIncome, TransactionAmount)
    ensures TotalExpense(ts) == SumWhere(ts, IsExpense, TransactionAmount)
    ensures TotalIncome(ts) + TotalExpense(ts) + SumWhere(ts, IsOtherKind, TransactionAmount) ==
            SumBy(ts, TransactionAmount)
  {
    SumByFilter(ts, IsIncome, TransactionAmount);
    SumByFilter(ts, IsExpense, TransactionAmount);
    KindsPartition(ts);
  }

  function NetFlow(ts: seq<Transaction>): int
  {
    TotalIncome(ts) - TotalExpense(ts)
  }

  datatype Badge = Surplus | Deficit

  /** `netFlow >= 0 ? 'Surplus' : 'Deficit'`. */
  function FlowBadge(ts: seq<Transaction>): (b: Badge)
    ensures b == Surplus <==> TotalIncome(ts) >= TotalExpense(ts)
  {
    if NetFlow(ts) >= 0 then Surplus else Deficit
  }

  /** `budgets.reduce((acc, b) => acc + parseFloat(b.monthly_limit), 0)`. */
  function TotalBudgeted(budgets: seq<Budget>): int
  {
    SumBy(budgets, BudgetLimit)
  }

  /** Adding a budget adds its limit to the total. */
  lemma TotalBudgetedAppend(budgets: seq<Budget>, b: Budget)
    ensures TotalBudgeted(budgets + [b]) == TotalBudgeted(budgets) + b.monthlyLimit
  {
    assert (budgets + [b])[..|budgets|] == budgets;
  }

  /** With no negative limit, the total is at least every single limit. */
  lemma {:induction false} TotalBudgetedBounds(budgets: seq<Budget>)
    requires forall i :: 0 <= i < |budgets| ==> budgets[i].monthlyLimit >= 0
    ensures TotalBudgeted(budgets) >= 0
    ensures forall i :: 0 <= i < |budgets| ==> budgets[i].monthlyLimit <= TotalBudgeted(budgets)
  {
    if budgets != [] {
      var init := budgets[..|budgets| - 1];
      TotalBudgetedBounds(init);
      assert forall i :: 0 <= i < |init| ==> init[i] == budgets[i];
    }
  }
}
