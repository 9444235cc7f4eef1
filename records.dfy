/** The records the components receive from the database, reduced to the fields
    their arithmetic reads. Amounts are whole cents; dates arrive already broken
    down into the calendar fields and the millisecond timestamp that `new Date`
    would give. */
module Records {
  import opened Wrappers

  type Month = m: int | 1 <= m <= 12 witness 1
  type DayOfMonth = d: int | 1 <= d <= 31 witness 1

  /** A point in time: `getFullYear()`, `getMonth() + 1`, `getDate()` and
      `getTime()` of the parsed date. */
  datatype Date = Date(year: int, month: Month, day: DayOfMonth, time: int)

  /** An expense row of `src/types/index.ts`, with the joined category name
      (`categories?.name`) in place of `category_id`. */
  datatype Expense = Expense(
    id: string,
    amount: int,
    description: string,
    date: string,
    when: Date,
    category: Option<string>)

  /** A transaction row as the dashboard components read it. `kind` is the
      `type` column: `"income"`, `"expense"` or anything else. */
  datatype Transaction = Transaction(
    kind: string,
    amount: int,
    category: Option<string>,
    createdAt: Date)

  datatype Budget = Budget(id: int, category: string, monthlyLimit: int)

  datatype Goal = Goal(id: int, name: string, targetAmount: int, currentAmount: int)

  function ExpenseAmount(e: Expense): int { e.amount }
  function TransactionAmount(t: Transaction): int { t.amount }
  function BudgetLimit(b: Budget): int { b.monthlyLimit }

  /** `categories?.name || fallback`: a missing name and the empty name both
      fall back, since both are falsy. */
  function CategoryName(c: Option<string>, fallback: string): (r: string)
    ensures c.Some? && c.value != "" ==> r == c.value
    ensures c.None? || c == Some("") ==> r == fallback
    ensures r == "" ==> fallback == ""
  {
    if c.Some? && c.value != "" then c.value else fallback
  }

  /** The category name of an expense, with `fallback` for a missing one. */
  function CategoryOf(fallback: string): Expense -> string
  {
    (e: Expense) => CategoryName(e.category, fallback)
  }
}
