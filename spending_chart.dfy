/** The spending-trends bar chart: `expenses?.reduce(...) || []`, one bar per
    raw `date` string, found and updated or pushed onto the accumulator. */
module SpendingChart {
  import opened Wrappers
  import opened Seqs
  import opened Grouping
  import opened Records

  function ExpenseDate(e: Expense): string { e.date }

  /** `expenses` is `None` while the query has no data. */
  method SpendingData(expenses: Option<seq<Expense>>) returns (data: seq<Entry<string>>)
    ensures expenses.None? ==> data == []
    ensures expenses.Some? ==> data == Group(KeyedBy(expenses.value, ExpenseDate, ExpenseAmount))
  {
    if expenses.Some? {
      data := GroupByFind(KeyedBy(expenses.value, ExpenseDate, ExpenseAmount));
    } else {
      data := [];
    }
  }

  /** One bar per distinct date string in order of first occurrence, each
      holding the sum of that date's amounts, the bars adding up to the total
      and never outnumbering the expenses. */
  lemma SpendingDataSpec(expenses: seq<Expense>)
    ensures var r := Group(KeyedBy(expenses, ExpenseDate, ExpenseAmount));
            && NoDup(KeysOf(r))
            && KeysOf(r) == Dedup(KeysOf(KeyedBy(expenses, ExpenseDate, ExpenseAmount)))
            && (forall i :: 0 <= i < |r| ==>
                  r[i].value == SumWhere(expenses, KeyIs(ExpenseDate, r[i].key), ExpenseAmount))
            && Total(r) == SumBy(expenses, ExpenseAmount)
            && |r| <= |expenses|
  {
    KeyedGroupSpec(expenses, ExpenseDate, ExpenseAmount);
  }
}
