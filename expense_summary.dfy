/** The summary panel of the expense analytics page: `getSummary`,
    `getCategoryBreakdown` and `getMonthlyBreakdown`. The breakdowns fill a
    dictionary in a `forEach` loop and return its entries unsorted, in the
    order their keys were first inserted. */
module ExpenseSummary {
  import opened Seqs
  import opened Grouping
  import opened Records
  import opened ExpenseAnalytics

  datatype Summary = Summary(total: int, avg: real, max: int, min: int)

  /** `expenses.map(e => Number(e.amount))`. */
  function Amounts(expenses: seq<Expense>): seq<int>
  {
    seq(|expenses|, i requires 0 <= i < |expenses| => expenses[i].amount)
  }

  /** `Math.max(...xs, 0)`: the largest element, or 0 when every element is smaller. */
  function MaxOrZero(xs: seq<int>): (r: int)
    ensures r >= 0
    ensures forall i :: 0 <= i < |xs| ==> xs[i] <= r
    ensures r == 0 || exists i :: 0 <= i < |xs| && xs[i] == r
  {
    if xs == [] then 0
    else
      var m := MaxOrZero(xs[..|xs| - 1]);
      if xs[|xs| - 1] > m then xs[|xs| - 1] else m
  }

  /** `Math.min(...xs, 0)`: the smallest element, or 0 when every element is larger. */
  function MinOrZero(xs: seq<int>): (r: int)
    ensures r <= 0
    ensures forall i :: 0 <= i < |xs| ==> r <= xs[i]
    ensures r == 0 || exists i :: 0 <= i < |xs| && xs[i] == r
  {
    if xs == [] then 0
    else
      var m := MinOrZero(xs[..|xs| - 1]);
      if xs[|xs| - 1] < m then xs[|xs| - 1] else m
  }

  /** `getSummary`. */
  function GetSummary(expenses: seq<Expense>): Summary
  {
    var total := SumBy(expenses, ExpenseAmount);
    Summary(total, Average(total, |expenses|), MaxOrZero(Amounts(expenses)), MinOrZero(Amounts(expenses)))
  }

  /** Every amount lies between `min` and `max`, and 0 does too: an empty list
      gives 0 for both, and a list of positive amounts a `min` of 0. */
  lemma SummaryBounds(expenses: seq<Expense>)
    ensures forall i :: 0 <= i < |expenses| ==>
              GetSummary(expenses).min <= expenses[i].amount <= GetSummary(expenses).max
    ensures GetSummary(expenses).min <= 0 <= GetSummary(expenses).max
    ensures expenses == [] ==> GetSummary(expenses).max == 0 && GetSummary(expenses).min == 0
    ensures (forall i :: 0 <= i < |expenses| ==> expenses[i].amount > 0) ==> GetSummary(expenses).min == 0
    ensures (forall i :: 0 <= i < |expenses| ==> expenses[i].amount < 0) ==> GetSummary(expenses).max == 0
  {
    var xs := Amounts(expenses);
    assert forall i :: 0 <= i < |expenses| ==> xs[i] == expenses[i].amount;
  }

  /** `getCategoryBreakdown`, with fallback name `"Uncategorized"`. */
  method GetCategoryBreakdown(expenses: seq<Expense>) returns (r: seq<Entry<string>>)
    ensures r == Group(KeyedBy(expenses, CategoryOf("Uncategorized"), ExpenseAmount))
  {
    var order, map_ := GroupByDictionary(KeyedBy(expenses, CategoryOf("Uncategorized"), ExpenseAmount));
    r := Entries(order, map_);
  }

  /** One entry per distinct category name, in order of first occurrence and
      not sorted, each holding that category's sum, all adding up to the total. */
  lemma CategoryBreakdownSpec(expenses: seq<Expense>)
    ensures var r := Group(KeyedBy(expenses, CategoryOf("Uncategorized"), ExpenseAmount));
            && NoDup(KeysOf(r))
            && (forall i :: 0 <= i < |expenses| ==> CategoryName(expenses[i].category, "Uncategorized") in KeysOf(r))
            && KeysOf(r) == Dedup(KeysOf(KeyedBy(expenses, CategoryOf("Uncategorized"), ExpenseAmount)))
            && (forall i :: 0 <= i < |r| ==>
                  r[i].value == SumWhere(expenses, KeyIs(CategoryOf("Uncategorized"), r[i].key), ExpenseAmount))
            && Total(r) == SumBy(expenses, ExpenseAmount)
  {
    KeyedGroupSpec(expenses, CategoryOf("Uncategorized"), ExpenseAmount);
  }

  /** The month label of an expense: `monthLabel` stands for
      `toLocaleString('default', { month: 'short', year: 'numeric' })`. */
  function LabelOf(monthLabel: Date -> string): Expense -> string
  {
    (e: Expense) => monthLabel(e.when)
  }

  /** `getMonthlyBreakdown`. */
  method GetMonthlyBreakdown(expenses: seq<Expense>, monthLabel: Date -> string) returns (r: seq<Entry<string>>)
    ensures r == Group(KeyedBy(expenses, LabelOf(monthLabel), ExpenseAmount))
  {
    var order, map_ := GroupByDictionary(KeyedBy(expenses, LabelOf(monthLabel), ExpenseAmount));
    r := Entries(order, map_);
  }

  /** One entry per distinct month label, in order of first occurrence rather
      than in calendar order, each holding that label's sum, all adding up to
      the total. */
  lemma MonthlyBreakdownSpec(expenses: seq<Expense>, monthLabel: Date -> string)
    ensures var r := Group(KeyedBy(expenses, LabelOf(monthLabel), ExpenseAmount));
            && NoDup(KeysOf(r))
            && (forall i :: 0 <= i < |expenses| ==> monthLabel(expenses[i].when) in KeysOf(r))
            && KeysOf(r) == Dedup(KeysOf(KeyedBy(expenses, LabelOf(monthLabel), ExpenseAmount)))
            && (forall i :: 0 <= i < |r| ==>
                  r[i].value == SumWhere(expenses, KeyIs(LabelOf(monthLabel), r[i].key), ExpenseAmount))
            && Total(r) == SumBy(expenses, ExpenseAmount)
  {
    KeyedGroupSpec(expenses, LabelOf(monthLabel), ExpenseAmount);
  }
}
