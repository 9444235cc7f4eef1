/** The budget and goal arithmetic shared by the two budget panels: the
    current month's spending per category, the budget percentage with its
    colour thresholds and progress clamp, the over-budget message, goal
    progress and the remaining amount, and the guard on adding to a goal. */
module Budgets {
  import opened Wrappers
  import opened Seqs
  import opened Records

  /** `t.type === 'expense'`. */
  function IsExpense(t: Transaction): bool { t.kind == "expense" }

  /** Created in the same calendar month and year as `today`. */
  function InMonthOf(today: Date): Transaction -> bool
  {
    (t: Transaction) => t.createdAt.month == today.month && t.createdAt.year == today.year
  }

  /** `t.category === category`: a transaction without a category matches none. */
  function InCategory(category: string): Transaction -> bool
  {
    (t: Transaction) => t.category == Some(category)
  }

  /** All three conditions under which a transaction counts towards a budget. */
  function CountsTowards(category: string, today: Date): Transaction -> bool
  {
    (t: Transaction) => IsExpense(t) && InMonthOf(today)(t) && InCategory(category)(t)
  }

  /** `monthlyExpenses`: the expense transactions of the current month. */
  function MonthlyExpenses(ts: seq<Transaction>, today: Date): seq<Transaction>
  {
    Filter(Filter(ts, IsExpense), InMonthOf(today))
  }

  /** `calculateSpent(transactions, category)` and `getSpent(category)`. */
  function Spent(ts: seq<Transaction>, category: string, today: Date): int
  {
    SumBy(Filter(MonthlyExpenses(ts, today), InCategory(category)), TransactionAmount)
  }

  /** `monthlyExpenses` holds exactly the expense transactions of today's month. */
  lemma MonthlyExpensesMembers(ts: seq<Transaction>, today: Date, t: Transaction)
    ensures t in MonthlyExpenses(ts, today) <==> t in ts && IsExpense(t) && InMonthOf(today)(t)
  {
    FilterMembers(Filter(ts, IsExpense), InMonthOf(today), t);
    FilterMembers(ts, IsExpense, t);
  }

  /** The amount spent is the sum over exactly the transactions that are
      expenses, of today's month and year, and of the budget's category. */
  lemma SpentIsSumOfMatching(ts: seq<Transaction>, category: string, today: Date)
    ensures Spent(ts, category, today) == SumWhere(ts, CountsTowards(category, today), TransactionAmount)
  {
    var both := (t: Transaction) => IsExpense(t) && InMonthOf(today)(t);
    FilterFilter(ts, IsExpense, InMonthOf(today), both);
    FilterFilter(ts, both, InCategory(category), CountsTowards(category, today));
    SumByFilter(ts, CountsTowards(category, today), TransactionAmount);
  }

  /** Nothing matching means nothing spent. */
  lemma SpentWhenNoneMatch(ts: seq<Transaction>, category: string, today: Date)
    requires forall i :: 0 <= i < |ts| ==> !CountsTowards(category, today)(ts[i])
    ensures Spent(ts, category, today) == 0
  {
    SpentIsSumOfMatching(ts, category, today);
    SumWhereNone(ts, CountsTowards(category, today), TransactionAmount);
  }

  /** `(spent / limit) * 100`. */
  function Percentage(spent: int, limit: int): (p: real)
    requires limit > 0
    ensures p * limit as real == 100.0 * spent as real
  {
    (spent as real / limit as real) * 100.0
  }

  datatype Color = Red | Orange | Green

  /** `percentage > 90 ? 'red' : percentage > 50 ? 'orange' : 'green'`. */
  function StatusColor(p: real): (c: Color)
    ensures c == Red <==> p > 90.0
    ensures c == Orange <==> 50.0 < p <= 90.0
    ensures c == Green <==> p <= 50.0
  {
    if p > 90.0 then Red else if p > 50.0 then Orange else Green
  }

  /** Multiplying by a positive factor keeps comparisons. */
  lemma CompareScaled(p: real, c: real, l: real)
    requires l > 0.0
    ensures p > c <==> p * l > c * l
    ensures p == c <==> p * l == c * l
  {
    assert p * l - c * l == (p - c) * l;
    if p > c {
      assert (p - c) * l > 0.0;
    } else if p < c {
      assert (c - p) * l > 0.0;
    }
  }

  /** The percentage compared with a threshold `c`, in whole cents. */
  lemma PercentageAbove(spent: int, limit: int, c: int)
    requires limit > 0
    ensures Percentage(spent, limit) > c as real <==> 100 * spent > c * limit
    ensures Percentage(spent, limit) == c as real <==> 100 * spent == c * limit
  {
    CompareScaled(Percentage(spent, limit), c as real, limit as real);
    assert (c * limit) as real == c as real * limit as real;
    assert (100 * spent) as real == 100.0 * spent as real;
  }

  /** The thresholds are strict: the colour of a budget in whole cents. A
      budget exactly 90% spent is orange, one exactly 50% spent green. */
  lemma StatusInCents(spent: int, limit: int)
    requires limit > 0
    ensures StatusColor(Percentage(spent, limit)) == Red <==> 10 * spent > 9 * limit
    ensures StatusColor(Percentage(spent, limit)) == Orange <==> 2 * spent > limit && 10 * spent <= 9 * limit
    ensures StatusColor(Percentage(spent, limit)) == Green <==> 2 * spent <= limit
  {
    PercentageAbove(spent, limit, 90);
    PercentageAbove(spent, limit, 50);
  }

  /** `Math.min(percentage, 100)`: the progress-bar value, clamped at the top
      only. */
  function Progress(p: real): (r: real)
    ensures r <= 100.0 && r <= p
    ensures r == p || r == 100.0
  {
    if p < 100.0 then p else 100.0
  }

  /** The over-budget message: shown when `percentage > 100`, with the
      overspent amount `spent - limit`. */
  function OverBudget(spent: int, limit: int): Option<int>
    requires limit > 0
  {
    if Percentage(spent, limit) > 100.0 then Some(spent - limit) else None
  }

  /** The message appears exactly when more than the limit has been spent,
      and then shows a positive amount. */
  lemma OverBudgetIff(spent: int, limit: int)
    requires limit > 0
    ensures OverBudget(spent, limit).Some? <==> spent > limit
    ensures OverBudget(spent, limit).Some? ==> OverBudget(spent, limit).value > 0
  {
    PercentageAbove(spent, limit, 100);
  }

  /** `(goal.current_amount / goal.target_amount) * 100`. */
  function GoalPercentage(g: Goal): real
    requires g.targetAmount > 0
  {
    Percentage(g.currentAmount, g.targetAmount)
  }

  /** `goal.target_amount - goal.current_amount`, not clamped. */
  function Remaining(g: Goal): int
  {
    g.targetAmount - g.currentAmount
  }

  /** The remaining amount is negative exactly when the goal is over 100%,
      zero exactly when it is at 100%; the bar then shows 100 either way. */
  lemma RemainingSign(g: Goal)
    requires g.targetAmount > 0
    ensures Remaining(g) < 0 <==> GoalPercentage(g) > 100.0
    ensures Remaining(g) == 0 <==> GoalPercentage(g) == 100.0
    ensures Remaining(g) <= 0 ==> Progress(GoalPercentage(g)) == 100.0
  {
    PercentageAbove(g.currentAmount, g.targetAmount, 100);
  }

  /** The guard of `handleGoalUpdate`: the new amount, when it is not negative. */
  function GoalUpdate(current: int, delta: int): (r: Option<int>)
    ensures r.Some? <==> current + delta >= 0
    ensures r.Some? ==> r.value >= 0 && r.value - current == delta
  {
    var n := current + delta;
    if n >= 0 then Some(n) else None
  }
}
