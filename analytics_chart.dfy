/** The spending-distribution and monthly-trend charts. Both take only the
    expense transactions; the category series is a `reduce` that finds and
    updates or pushes an accumulator row, the monthly series a `reduce` into a
    `Map` read back in insertion order. */
module AnalyticsChart {
  import opened Wrappers
  import opened Seqs
  import opened Grouping
  import opened Records
  import opened Budgets
  import opened SummaryCards

  /** `transactions.filter(t => t.type === 'expense')`. */
  function ExpenseData(ts: seq<Transaction>): seq<Transaction>
  {
    Filter(ts, IsExpense)
  }

  /** `curr.category`, compared with `===`: a missing category is a key of its own. */
  function TransactionCategory(t: Transaction): Option<string> { t.category }

  /** `toLocaleDateString('en-US', { month: 'short', year: '2-digit' })` of
      `created_at`, given as `monthYear`. */
  function CreatedLabel(monthYear: Date -> string): Transaction -> string
  {
    (t: Transaction) => monthYear(t.createdAt)
  }

  method ChartData(ts: seq<Transaction>, monthYear: Date -> string)
    returns (categoryData: seq<Entry<Option<string>>>, monthlyTrend: seq<Entry<string>>)
    ensures categoryData == Group(KeyedBy(ExpenseData(ts), TransactionCategory, TransactionAmount))
    ensures monthlyTrend == Group(KeyedBy(ExpenseData(ts), CreatedLabel(monthYear), TransactionAmount))
  {
    var expenseData := Filter(ts, IsExpense);
    categoryData := GroupByFind(KeyedBy(expenseData, TransactionCategory, TransactionAmount));
    var order, monthly := GroupByDictionary(KeyedBy(expenseData, CreatedLabel(monthYear), TransactionAmount));
    monthlyTrend := Entries(order, monthly);
  }

  /** Only expense transactions reach the charts. */
  lemma ExpenseDataMembers(ts: seq<Transaction>, t: Transaction)
    ensures t in ExpenseData(ts) <==> t in ts && IsExpense(t)
  {
    FilterMembers(ts, IsExpense, t);
  }

  /** One slice per distinct category (a missing one included) in order of
      first occurrence, each holding that category's expense sum; the slices
      add up to the Total Expense card. */
  lemma CategoryDataSpec(ts: seq<Transaction>)
    ensures var r := Group(KeyedBy(ExpenseData(ts), TransactionCategory, TransactionAmount));
            && NoDup(KeysOf(r))
            && KeysOf(r) == Dedup(KeysOf(KeyedBy(ExpenseData(ts), TransactionCategory, TransactionAmount)))
            && (forall i :: 0 <= i < |r| ==>
                  r[i].value == SumWhere(ExpenseData(ts), KeyIs(TransactionCategory, r[i].key), TransactionAmount))
            && Total(r) == TotalExpense(ts)
  {
    KeyedGroupSpec(ExpenseData(ts), TransactionCategory, TransactionAmount);
  }

  /** One bar per distinct month label in the order the labels first appear,
      each holding that month's expense sum; the bars add up to the Total
      Expense card. */
  lemma MonthlyTrendSpec(ts: seq<Transaction>, monthYear: Date -> string)
    ensures var r := Group(KeyedBy(ExpenseData(ts), CreatedLabel(monthYear), TransactionAmount));
            && NoDup(KeysOf(r))
            && KeysOf(r) == Dedup(KeysOf(KeyedBy(ExpenseData(ts), CreatedLabel(monthYear), TransactionAmount)))
            && (forall i :: 0 <= i < |r| ==>
                  r[i].value == SumWhere(ExpenseData(ts), KeyIs(CreatedLabel(monthYear), r[i].key), TransactionAmount))
            && Total(r) == TotalExpense(ts)
  {
    KeyedGroupSpec(ExpenseData(ts), CreatedLabel(monthYear), TransactionAmount);
  }
}
