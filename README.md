# Expense tracker: dashboard aggregation, modelled in Dafny

The expense tracker is a web front end over a hosted database. Almost all of
its logic is glue. The part worth stating precisely is the client-side
arithmetic that turns lists of expenses, transactions, budgets and goals into
what the dashboards show:

- **Summary figures.** Totals, averages, maxima and minima, and the income,
  expense, net-flow and budgeted cards.
- **Breakdowns.** Per-category, per-month and per-day sums, built by a
  `forEach` into a dictionary or by a `reduce` that finds and updates or
  pushes a row, then read back in key-insertion order and sometimes sorted.
- **Top category.** The category with the most expenses.
- **Budget consumption.** The current month's spending per category, its
  percentage, the colour thresholds, the progress clamp and the over-budget
  message.
- **Goals.** Goal progress, the remaining amount, and the two add/withdraw
  panels.
- **The expense table.** Its filters, four sort orders, category drop-down
  and pagination.

The model has one module per concern:

| module | what it holds |
|---|---|
| `Records` | The records as the components read them. Amounts are whole cents. A date is already broken down into year, month, day and millisecond timestamp. `categories?.name \|\| fallback` is `CategoryName`. |
| `Seqs` | `filter` and `reduce`-sums, with their membership and summing laws. |
| `Grouping` | The group-by that every breakdown performs. `Group` is the specification: one entry per key, in order of first occurrence, holding the sum of that key's values. Its two imperative forms are proved equal to it. `GroupByFind` is the `reduce` with `acc.find(...)`, and `GroupByDictionary` is the `forEach` into a dictionary read back with `Object.entries`. |
| `StableSort` | `Array.prototype.sort` with a comparator `key(a) - key(b)`. The sort is required to be stable, so its result is the stable insertion sort `Sort`. `SortInPlace` does that sort in place on an array, as `data.sort(...)` does. |
| `Text` | `String(n)`, `padStart(2, '0')`, the `toString` of an amount, ASCII `toLowerCase` and `includes`. |
| `ExpenseAnalytics` | `calculateMetrics`, `getCategoryData`, `getMonthlyData` and `getDailyData`. |
| `ExpenseSummary` | `getSummary`, `getCategoryBreakdown` and `getMonthlyBreakdown` of the earlier analytics page. |
| `Budgets` | The budget and goal arithmetic shared by the two budget panels. |
| `GoalPanels` | The two goal-update panels, as classes whose state the handlers change. `updateGoal` calls are recorded in a `writes` log. |
| `SummaryCards`, `AnalyticsChart`, `SpendingChart` | The dashboard cards and charts. |
| `ExpenseList` | `processedData`, `uniqueCategories`, `visibleRows`, and the page and filter state with its handlers. |

Some inputs are outside the arithmetic and are parameters of the model:

- "today" (from `new Date()`);
- the locale-dependent labels (`toLocaleString`, `toLocaleDateString`);
- the date-fns day bounds `startOfDay(parseISO(d)).getTime()` and
  `endOfDay(parseISO(d)).getTime()`.

## Behaviour of the code worth noting

The model follows the code in each case:

- **Top category on a tie.** The `reduce` starts from `'N/A'` and replaces
  the current key only on a strict `>`, so on a tie the later key wins: the
  result is the last key with the highest count, not the first. This is
  `TopCategoryIsLastMax`.
- **Goals can go below zero in one panel.** The budget manager's
  `handleGoalUpdate` rejects a negative result, but the budget overview's Save
  button has no such guard: it writes `current_amount + input` even when that
  is negative (`SavingsCard.Save`, `SaveCanGoNegative`).
- **Progress is clamped only at the top.** The bars show
  `Math.min(percentage, 100)` with no lower bound, so a negative percentage
  passes through (`Progress`).
- **A missing start date is the epoch.** In the expense table's date filter, a
  missing start date becomes 0, not "no bound". With only an end date set,
  items dated before 1970 are dropped (`ProcessedMembers`).

## Model

The earlier revision of the analytics dashboard
(`expense-tracker/src/components/Expenses/ExpenseAnalytics.tsx`, lines 34-77)
has `calculateMetrics`, `getCategoryData` and `getMonthlyData` unchanged, so
the rows for those helpers cover it as well. Likewise the budget overview
(`BudgetGoals.tsx`) repeats the budget manager's spending, percentage, colour,
progress and remaining-amount code, and the rows citing the budget manager
cover both panels.

| member | source | states |
|---|---|---|
| Records.CategoryName | src/components/Expenses/ExpenseAnalytics.tsx:45 | A present non-empty name is used. A missing name and the empty name both give the fallback. The result is empty only when the fallback is. |
| Seqs.FilterMembers | expense-tracker/src/components/BudgetGoalManager.tsx:33-43 | An element is in a filtered list exactly when it is in the list and passes the predicate. |
| Seqs.FilterSubMultiset | expense-tracker/src/components/Expenses/ExpenseList.tsx:514-531 | Filtering only removes elements: the result is a sub-multiset of the input. |
| Seqs.SumByFilter | expense-tracker/src/components/BudgetGoalManager.tsx:42-44 | Summing a filtered list equals summing the values of the elements that pass the predicate. |
| Seqs.FilterFilter | expense-tracker/src/components/BudgetGoalManager.tsx:33-43 | Two filters in a row are one filter by the conjunction. |
| Grouping.KeyedBy | expense-tracker/src/components/ExpenseAnalytics.tsx:22-24 | Each item contributes exactly one entry, keyed by its key and carrying its value, in input order. |
| Grouping.KeyedByKeyOf | expense-tracker/src/components/ExpenseAnalytics.tsx:22-24 | Every key among the contributed entries is the key of some item. |
| Grouping.TotalKeyedBy | expense-tracker/src/components/ExpenseAnalytics.tsx:22-24 | The entries add up to the sum of the item values. |
| Grouping.SumForKeyedBy | expense-tracker/src/components/ExpenseAnalytics.tsx:22-24 | A key's sum over the entries is the sum over exactly the items with that key. |
| Grouping.Dedup | expense-tracker/src/components/Expenses/ExpenseList.tsx:551-552 | No repeats. Every result element comes from the input, and every input element is kept. |
| Grouping.DedupFirstOccurrence | expense-tracker/src/components/Expenses/ExpenseList.tsx:551-552 | The distinct keys keep the order of their first occurrence, as a `Set`'s iteration order does. |
| Grouping.Find | expense-tracker/src/components/AnalyticsChart.tsx:18 | `find` gives the first entry with the key, or nothing when no entry has it. |
| Grouping.Group | expense-tracker/src/components/AnalyticsChart.tsx:17-22 | The grouping is never longer than the input. Its keys, values and total are stated by GroupKeys, GroupValues, GroupTotal and GroupSpec. |
| Grouping.GroupKeys | expense-tracker/src/components/AnalyticsChart.tsx:17-22 | The keys of the grouping are the distinct input keys in first-occurrence order. |
| Grouping.GroupValues | expense-tracker/src/components/AnalyticsChart.tsx:17-22 | Each output entry holds the sum of the values carrying its key. |
| Grouping.GroupTotal | expense-tracker/src/components/AnalyticsChart.tsx:17-22 | Grouping keeps the grand total. |
| Grouping.GroupSpec | expense-tracker/src/components/AnalyticsChart.tsx:17-22 | The grouping has no repeated key, covers exactly the input keys in first-occurrence order, holds each key's sum, keeps the total and is never longer than the input. |
| Grouping.KeyedGroupSpec | expense-tracker/src/components/ExpenseAnalytics.tsx:20-27 | Grouping the items of a list by a key: one entry per distinct key that some item has, and no other, in first-occurrence order, holding the sum over exactly the items with that key, all adding up to the list's sum. |
| Grouping.TallyOfGroup | src/components/Expenses/ExpenseAnalytics.tsx:59 | The finished dictionary holds every grouped key, and reading it back in key-insertion order gives the grouping. |
| Grouping.GroupByFind | src/components/Charts/SpendingChart.tsx:10-15 | The find-then-update-or-push `reduce` computes exactly the grouping. |
| Grouping.GroupByDictionary | src/components/Expenses/ExpenseAnalytics.tsx:54-59 | The `forEach` into a dictionary inserts keys in first-occurrence order and stores each key's sum. Its `Object.entries` equal the grouping. |
| StableSort.InsertLastAt | expense-tracker/src/components/Expenses/ExpenseList.tsx:536-544 | Inserting after the last element with a key that is not greater is exactly the insertion step. |
| StableSort.Sort | expense-tracker/src/components/Expenses/ExpenseList.tsx:536-544 | The sorted list has the input's length. Its order, permutation and stability are stated by SortSorted, SortPermutes and SortStable. |
| StableSort.SortSorted | expense-tracker/src/components/Expenses/ExpenseList.tsx:536-544 | The sorted list is ordered by non-decreasing key. |
| StableSort.InsertLastSorted | expense-tracker/src/components/Expenses/ExpenseList.tsx:536-544 | Inserting into an ordered list keeps it ordered. |
| StableSort.InsertLastMultiset | expense-tracker/src/components/Expenses/ExpenseList.tsx:536-544 | The insertion step adds exactly the new element. |
| StableSort.SortPermutes | expense-tracker/src/components/Expenses/ExpenseList.tsx:536-544 | The sorted list is a permutation of the input. |
| StableSort.SortStable | expense-tracker/src/components/Expenses/ExpenseList.tsx:536-544 | Stability: the elements with any one key keep their input order. |
| StableSort.SortConstantKey | expense-tracker/src/components/Expenses/ExpenseList.tsx:542 | A comparator that always returns 0 leaves the list unchanged. |
| StableSort.SortSumBy | src/components/Expenses/ExpenseAnalytics.tsx:59-61 | Sorting keeps every sum over the list. |
| StableSort.SortKeepsDistinctKeys | src/components/Expenses/ExpenseAnalytics.tsx:59-61 | Sorting entries with distinct keys keeps the keys distinct. |
| StableSort.SortMembers | expense-tracker/src/components/Expenses/ExpenseList.tsx:536-544 | Every element of the sorted list is in the input, and the other way round. |
| StableSort.SortEntries | src/components/Expenses/ExpenseAnalytics.tsx:59-61 | Sorting entries keeps the set of keys and each entry's sum. |
| StableSort.SortTotal | src/components/Expenses/ExpenseAnalytics.tsx:59-61 | Sorting entries keeps their total. |
| StableSort.SortGroupSpec | src/components/Expenses/ExpenseAnalytics.tsx:59-61 | A sorted grouping has distinct keys, covers exactly the input keys, holds each key's sum and the total, and is ordered by the sort key. |
| StableSort.SortKeyedGroupSpec | src/components/Expenses/ExpenseAnalytics.tsx:53-62 | A sorted breakdown of items by a key: one entry per key that some item has, and no other, each holding the sum over exactly the items with that key, all adding up to the items' sum, in sort-key order. |
| StableSort.SiftDown | expense-tracker/src/components/Expenses/ExpenseList.tsx:536-544 | One pass of the in-place sort: the prefix after the pass is the previous sorted prefix with the next element inserted, and the rest of the array is untouched. |
| StableSort.SortInPlace | expense-tracker/src/components/Expenses/ExpenseList.tsx:536-544 | The array sorted in place holds exactly the stable sort of its old contents. |
| Text.NatToString | src/components/Expenses/ExpenseAnalytics.tsx:68 | `String(n)` of a natural number is a non-empty string of digits without a leading zero: one digit below 10, at most two below 100. |
| Text.ParseNatToString | src/components/Expenses/ExpenseAnalytics.tsx:75-76 | `Number(String(n)) == n`: reading back the digits gives the number. |
| Text.Pad2 | src/components/Expenses/ExpenseAnalytics.tsx:90 | `padStart(2, '0')` gives at least two digits, and exactly two for a number below 100. |
| Text.ParsePad2 | src/components/Expenses/ExpenseAnalytics.tsx:98-99 | The padded digits that the `DD/MM` label shows read back as the day and the month. |
| Text.AmountTextWhole | expense-tracker/src/components/Expenses/ExpenseList.tsx:516 | A whole amount's `toString` is its integer. |
| Text.CentsTextDigits | expense-tracker/src/components/Expenses/ExpenseList.tsx:516 | A fractional amount renders with a point and one or two digits. The last digit is not zero, and the digits read back as the cents. |
| Text.AmountText | expense-tracker/src/components/Expenses/ExpenseList.tsx:516 | The `toString` of an amount. Its forms are stated by AmountTextWhole and CentsTextDigits. |
| Text.Lower | expense-tracker/src/components/Expenses/ExpenseList.tsx:513-515 | `toLowerCase` keeps the length, turns each upper-case letter into its lower-case letter, keeps every other character, and leaves no upper-case letter. |
| Text.Split | src/components/Expenses/ExpenseAnalytics.tsx:98 | `split` always gives at least one piece. Its pieces are stated by SplitNone and SplitJoin. |
| Text.SplitNone | src/components/Expenses/ExpenseAnalytics.tsx:98 | A string without the separator splits into itself alone. |
| Text.SplitJoin | src/components/Expenses/ExpenseAnalytics.tsx:98 | A piece without the separator, then the separator, then the rest, splits into that piece followed by the pieces of the rest. |
| Text.Contains | expense-tracker/src/components/Expenses/ExpenseList.tsx:515-516 | `includes`. Its meaning is stated by ContainsIff and ContainsSelf. |
| Text.ContainsIff | expense-tracker/src/components/Expenses/ExpenseList.tsx:515-516 | `includes` holds exactly when the term occurs at some position. |
| Text.ContainsSelf | expense-tracker/src/components/Expenses/ExpenseList.tsx:515-516 | A string includes itself and the empty string. Used by ExpenseList.EmptySearchKeepsAll. |
| ExpenseAnalytics.Average | src/components/Expenses/ExpenseAnalytics.tsx:40 | With expenses, the average times the count is the total. Without, it is 0. |
| ExpenseAnalytics.KeepGreater | src/components/Expenses/ExpenseAnalytics.tsx:48 | One step keeps one of its two arguments. It keeps the first only when that is a key with a strictly greater count. |
| ExpenseAnalytics.ReduceTopLastMax | src/components/Expenses/ExpenseAnalytics.tsx:48 | The fold returns the last of the contenders with the greatest count. The start value is a contender only when it is itself a key. |
| ExpenseAnalytics.ReduceTopOverKeys | src/components/Expenses/ExpenseAnalytics.tsx:48 | Over the keys of a dictionary, the fold returns the last key with the greatest count. This holds in any key order. |
| ExpenseAnalytics.TopCategory | src/components/Expenses/ExpenseAnalytics.tsx:42-48 | The `reduce` over the counting dictionary's keys. What it returns is stated by TopCategoryIsLastMax. |
| ExpenseAnalytics.TopCategoryIsLastMax | src/components/Expenses/ExpenseAnalytics.tsx:42-48 | `topCategory` is `'N/A'` without expenses. Otherwise it is the category name with the most expenses, the last such name on a tie. |
| ExpenseAnalytics.CalculateMetrics | src/components/Expenses/ExpenseAnalytics.tsx:38-51 | The metrics are the sum of amounts, the average, the number of expenses and the top category computed from the counting dictionary. |
| ExpenseAnalytics.GetCategoryData | src/components/Expenses/ExpenseAnalytics.tsx:53-62 | The dictionary-then-sort code computes the sorted grouping by category name, with fallback `'Other'`. |
| ExpenseAnalytics.CategoryDataSpec | src/components/Expenses/ExpenseAnalytics.tsx:53-62 | One entry per category name of the expenses, and no entry for a name no expense has. Each holds the sum of exactly that category's amounts. The entries add up to the total and come in non-increasing order of value. |
| ExpenseAnalytics.Descending | src/components/Expenses/ExpenseAnalytics.tsx:61 | Sorted by `b.value - a.value`, the values do not increase. |
| ExpenseAnalytics.MonthIndexOrder | src/components/Expenses/ExpenseAnalytics.tsx:68-73 | The month position orders months by year, then month, like the `YYYY-MM` keys compare. Distinct months have distinct positions. |
| ExpenseAnalytics.DateMonth | src/components/Expenses/ExpenseAnalytics.tsx:76 | `new Date(y, n - 1)` falls in month `(n - 1) mod 12`, counted from 1, and in December for `n = 0`. |
| ExpenseAnalytics.NameMonths | src/components/Expenses/ExpenseAnalytics.tsx:74-80 | The closing `map` of `getMonthlyData`: each month is named from its split key. What it keeps is stated by NameMonthsSpec and MonthlyDataSpec. |
| ExpenseAnalytics.NameMonthsTotal | src/components/Expenses/ExpenseAnalytics.tsx:74-80 | Naming the months keeps the total. |
| ExpenseAnalytics.NameMonthsSpec | src/components/Expenses/ExpenseAnalytics.tsx:74-80 | Naming keeps each month's value and order, names it after the month its split key gives, and keeps the total. |
| ExpenseAnalytics.MonthKeyParts | src/components/Expenses/ExpenseAnalytics.tsx:68-76 | For a year without a sign, `key.split('-')` gives back the year and month digits, and they read back as the key's year and month. |
| ExpenseAnalytics.NamedMonth | src/components/Expenses/ExpenseAnalytics.tsx:75-76 | The month of the date built from the key's `split('-')` parts. Which month that is, is stated by MonthKeyNamed. |
| ExpenseAnalytics.MonthOfParts | src/components/Expenses/ExpenseAnalytics.tsx:75-76 | `new Date(Number(year), Number(month) - 1)` from the parts, an invalid date when `month` is not digits. Stated by NamedMonthOfParts. |
| ExpenseAnalytics.MonthLabel | src/components/Expenses/ExpenseAnalytics.tsx:77-78 | The short month name of that date. Stated by NameMonthsSpec. |
| ExpenseAnalytics.KeyMonth | src/components/Expenses/ExpenseAnalytics.tsx:75-76 | The month the code names for a key. MonthKeyNamed proves the split key gives it. |
| ExpenseAnalytics.SplitSignedKey | src/components/Expenses/ExpenseAnalytics.tsx:68-75 | For a negative year the key `-y-mm` splits into an empty part, the year's digits and the month, so the `month` the code reads is the year's digits. |
| ExpenseAnalytics.NamedMonthOfParts | src/components/Expenses/ExpenseAnalytics.tsx:75-76 | A `month` part holding the digits of `n` names month `(n + 11) mod 12 + 1`, the month that index `n - 1` falls in. |
| ExpenseAnalytics.MonthKeyNamed | src/components/Expenses/ExpenseAnalytics.tsx:75-78 | The month the code names is the key's month for a year without a sign, and otherwise the month the year's digits carry over to. |
| ExpenseAnalytics.UnsignedYearNamed | src/components/Expenses/ExpenseAnalytics.tsx:75-78 | For a year without a sign, the named month is the key's month. |
| ExpenseAnalytics.NegativeYearNamed | src/components/Expenses/ExpenseAnalytics.tsx:75-78 | For a negative year `y`, the named month is `(-y + 11) mod 12 + 1`: the key `-5-03` names May. |
| ExpenseAnalytics.GetMonthlyData | src/components/Expenses/ExpenseAnalytics.tsx:64-82 | The dictionary-then-sort code computes the named, calendar-sorted per-month sums. |
| ExpenseAnalytics.StrictlyByMonth | src/components/Expenses/ExpenseAnalytics.tsx:72-73 | Distinct months sorted by position are strictly increasing. |
| ExpenseAnalytics.MonthlyEntriesSpec | src/components/Expenses/ExpenseAnalytics.tsx:64-73 | Every expense's month has an entry, and every entry is some expense's month. The months are strictly increasing, each holds the sum of exactly that month's amounts, and the entries add up to the total. |
| ExpenseAnalytics.MonthlyDataSpec | src/components/Expenses/ExpenseAnalytics.tsx:64-82 | The named rows are the calendar-sorted months, each holding that month's sum and named after the month its split key gives: its own month for a year without a sign. They add up to the total. |
| ExpenseAnalytics.DayIndexOrder | src/components/Expenses/ExpenseAnalytics.tsx:90-95 | The day position orders days by month, then day, like the `YYYY-MM-DD` keys compare. Distinct days have distinct positions. |
| ExpenseAnalytics.StrictlyByDay | src/components/Expenses/ExpenseAnalytics.tsx:94-95 | Distinct days sorted by position are strictly increasing. |
| ExpenseAnalytics.PointsOf | src/components/Expenses/ExpenseAnalytics.tsx:96-105 | The closing `map` of `getDailyData`, with the label taken from the split key. What it holds is stated by DayKeyParts and DailyPointsSpec. |
| ExpenseAnalytics.DayKeyParts | src/components/Expenses/ExpenseAnalytics.tsx:90-99 | For a year without a sign, the key splits into year, month and day, so the label is `DD/MM`. Its two halves read back as the key's day and month. |
| ExpenseAnalytics.GetDailyData | src/components/Expenses/ExpenseAnalytics.tsx:85-106 | The dictionary-then-sort code computes the labelled, calendar-sorted per-day points. |
| ExpenseAnalytics.DailyDataSpec | src/components/Expenses/ExpenseAnalytics.tsx:85-95 | Every expense's day has an entry, and every entry is some expense's day. The days are strictly increasing, each holds the sum of exactly that day's amounts, and the entries add up to the total. |
| ExpenseAnalytics.DailyPointsSpec | src/components/Expenses/ExpenseAnalytics.tsx:96-105 | Each point carries its day's key text and that day's sum, in calendar order. For a year without a sign, its label is the day's `DD/MM`. |
| ExpenseAnalytics.DailyTotalMatchesCategories | src/components/Expenses/ExpenseAnalytics.tsx:85-92 | The daily series and the category series add up to the same total. |
| ExpenseSummary.MaxOrZero | expense-tracker/src/components/ExpenseAnalytics.tsx:15 | `Math.max(...xs, 0)` is at least 0 and every element, and is 0 or one of the elements. |
| ExpenseSummary.MinOrZero | expense-tracker/src/components/ExpenseAnalytics.tsx:16 | `Math.min(...xs, 0)` is at most 0 and every element, and is 0 or one of the elements. |
| ExpenseSummary.GetSummary | expense-tracker/src/components/ExpenseAnalytics.tsx:12-18 | The summary over `expenses.map(e => Number(e.amount))`. Its bounds are stated by SummaryBounds. |
| ExpenseSummary.SummaryBounds | expense-tracker/src/components/ExpenseAnalytics.tsx:12-18 | Every amount, and 0, lies between `min` and `max`. Both are 0 without expenses. All-positive amounts give a `min` of 0, and all-negative ones a `max` of 0. |
| ExpenseSummary.GetCategoryBreakdown | expense-tracker/src/components/ExpenseAnalytics.tsx:20-27 | The dictionary code computes the unsorted grouping by category name, with fallback `'Uncategorized'`. |
| ExpenseSummary.CategoryBreakdownSpec | expense-tracker/src/components/ExpenseAnalytics.tsx:20-27 | One entry per category name, in first-occurrence order. Each holds that category's sum, and the entries add up to the total. |
| ExpenseSummary.GetMonthlyBreakdown | expense-tracker/src/components/ExpenseAnalytics.tsx:29-36 | The dictionary code computes the unsorted grouping by month label. |
| ExpenseSummary.MonthlyBreakdownSpec | expense-tracker/src/components/ExpenseAnalytics.tsx:29-36 | One entry per month label, in first-occurrence order rather than calendar order. Each holds that label's sum, and the entries add up to the total. |
| Budgets.MonthlyExpensesMembers | expense-tracker/src/components/BudgetGoals.tsx:16-22 | `monthlyExpenses` holds exactly the expense transactions of today's month and year. |
| Budgets.Spent | expense-tracker/src/components/BudgetGoalManager.tsx:31-45 | The amount spent on a budget's category. What it sums is stated by SpentIsSumOfMatching and SpentWhenNoneMatch. |
| Budgets.SpentIsSumOfMatching | expense-tracker/src/components/BudgetGoalManager.tsx:31-45 | The amount spent is the sum over exactly the transactions that are expenses, of today's month and year, and of the budget's category. |
| Budgets.SpentWhenNoneMatch | expense-tracker/src/components/BudgetGoalManager.tsx:42-44 | With no matching transaction, nothing is spent. |
| Budgets.Percentage | expense-tracker/src/components/BudgetGoalManager.tsx:171 | The percentage times the limit is 100 times the amount spent. |
| Budgets.StatusColor | expense-tracker/src/components/BudgetGoalManager.tsx:172 | Red exactly above 90, orange exactly above 50 up to 90, green exactly at 50 or below. |
| Budgets.CompareScaled | expense-tracker/src/components/BudgetGoalManager.tsx:171-172 | Scaling by a positive limit keeps the comparisons with a threshold. |
| Budgets.PercentageAbove | expense-tracker/src/components/BudgetGoalManager.tsx:171-172 | The percentage compared with a whole threshold, stated in whole cents. |
| Budgets.StatusInCents | expense-tracker/src/components/BudgetGoalManager.tsx:171-172 | In cents: red exactly when 10·spent > 9·limit, orange exactly when 2·spent > limit ≥ 10·spent / 9, green exactly when 2·spent ≤ limit. The thresholds are strict. |
| Budgets.Progress | expense-tracker/src/components/BudgetGoalManager.tsx:199-205 | `Math.min(p, 100)` is at most 100 and at most `p`, and equals one of them. |
| Budgets.OverBudget | expense-tracker/src/components/BudgetGoals.tsx:65-68 | The over-budget message. When it shows is stated by OverBudgetIff. |
| Budgets.GoalPercentage | expense-tracker/src/components/BudgetGoalManager.tsx:249 | The goal's progress percentage. Its relation to the remaining amount is stated by RemainingSign. |
| Budgets.Remaining | expense-tracker/src/components/BudgetGoalManager.tsx:250 | The remaining amount, not clamped. Its sign is stated by RemainingSign. |
| Budgets.OverBudgetIff | expense-tracker/src/components/BudgetGoals.tsx:65-68 | The over-budget message shows exactly when more than the limit was spent, and then with a positive amount. |
| Budgets.RemainingSign | expense-tracker/src/components/BudgetGoalManager.tsx:249-250 | The remaining amount is negative exactly above 100%, and zero exactly at 100%. The bar then shows 100. |
| Budgets.GoalUpdate | expense-tracker/src/components/BudgetGoalManager.tsx:132-133 | An update is accepted exactly when the new amount is not negative. It then adds exactly the requested amount. |
| GoalPanels.GoalManager.constructor | expense-tracker/src/components/BudgetGoalManager.tsx:51 | No inputs, no writes, no toasts. |
| GoalPanels.GoalManager.InputOf | expense-tracker/src/components/BudgetGoalManager.tsx:304 | `goalAmount[goal.id] \|\| 0`: the stored input, or 0 when absent. |
| GoalPanels.GoalManager.HandleGoalUpdate | expense-tracker/src/components/BudgetGoalManager.tsx:131-140 | An accepted update writes the new amount once, clears that goal's input, disables its button and reports success. A rejected one only reports the error. No write is ever negative. |
| GoalPanels.GoalManager.OnAmountChange | expense-tracker/src/components/BudgetGoalManager.tsx:296-299 | Stores the parsed input, 0 when it does not parse, for this goal only. |
| GoalPanels.GoalManager.ClickUpdate | expense-tracker/src/components/BudgetGoalManager.tsx:301-306 | The enabled Update button, in terms of the goal's input before the click. When the input plus the amount is not negative, it writes that sum once, clears the goal's input, disables the button and reports success. Otherwise it writes nothing, keeps the inputs and reports the error. |
| GoalPanels.SavedAmount | expense-tracker/src/components/BudgetGoals.tsx:119 | The saved amount differs from the current one by exactly the input. |
| GoalPanels.SaveCanGoNegative | expense-tracker/src/components/BudgetGoals.tsx:119 | A goal holding 100 saved with input -500 is written as -400, where the guarded update writes nothing. |
| GoalPanels.SavingsCard.constructor | expense-tracker/src/components/BudgetGoals.tsx:30 | The shared input starts at 0, with no writes. |
| GoalPanels.SavingsCard.OnAmountChange | expense-tracker/src/components/BudgetGoals.tsx:113 | Any goal's input sets the one shared amount. |
| GoalPanels.SavingsCard.Save | expense-tracker/src/components/BudgetGoals.tsx:115-122 | Save writes the goal's amount plus the shared input, unchecked, and keeps the input. |
| SummaryCards.TotalIncome | expense-tracker/src/components/SummaryCards.tsx:10-12 | The Total Income card. What it sums is stated by TotalsPartition. |
| SummaryCards.TotalExpense | expense-tracker/src/components/SummaryCards.tsx:14-16 | The Total Expense card. What it sums is stated by TotalsPartition. |
| SummaryCards.KindsPartition | expense-tracker/src/components/SummaryCards.tsx:10-16 | Income, expense and other transactions split the grand total. |
| SummaryCards.TotalsPartition | expense-tracker/src/components/SummaryCards.tsx:10-16 | The two cards sum exactly the income and the expense transactions. With the other kinds they make up the grand total. |
| SummaryCards.NetFlow | expense-tracker/src/components/SummaryCards.tsx:18 | Income less expense. Its sign decides FlowBadge. |
| SummaryCards.FlowBadge | expense-tracker/src/components/SummaryCards.tsx:54-57 | The badge reads Surplus exactly when income is at least expense. |
| SummaryCards.TotalBudgeted | expense-tracker/src/components/SummaryCards.tsx:24 | The Total Budgeted card. Its laws are stated by TotalBudgetedAppend and TotalBudgetedBounds. |
| SummaryCards.TotalBudgetedAppend | expense-tracker/src/components/SummaryCards.tsx:24 | Adding a budget adds its limit to the total budgeted. |
| SummaryCards.TotalBudgetedBounds | expense-tracker/src/components/SummaryCards.tsx:24 | With no negative limit, the total is not negative and is at least every single limit. |
| AnalyticsChart.ChartData | expense-tracker/src/components/AnalyticsChart.tsx:14-31 | The category series is the grouping of the expense transactions by category. The monthly series is their grouping by month label. |
| AnalyticsChart.ExpenseDataMembers | expense-tracker/src/components/AnalyticsChart.tsx:14 | Exactly the expense transactions reach the charts. |
| AnalyticsChart.CategoryDataSpec | expense-tracker/src/components/AnalyticsChart.tsx:17-22 | One slice per distinct category, a missing category included, in first-occurrence order. Each holds that category's expense sum, and the slices add up to the Total Expense card. |
| AnalyticsChart.MonthlyTrendSpec | expense-tracker/src/components/AnalyticsChart.tsx:25-31 | One bar per distinct month label, in first-occurrence order. Each holds that month's expense sum, and the bars add up to the Total Expense card. |
| SpendingChart.SpendingData | src/components/Charts/SpendingChart.tsx:10-15 | With no data, the chart is empty. Otherwise it is the grouping of the expenses by date string. |
| SpendingChart.SpendingDataSpec | src/components/Charts/SpendingChart.tsx:10-15 | One bar per distinct date string, in first-occurrence order. Each holds that date's sum, and the bars add up to the total and never outnumber the expenses. |
| ExpenseList.Processed | expense-tracker/src/components/Expenses/ExpenseList.tsx:508-547 | The filtered list under the stable sort. Its contents and order are stated by ProcessedSubMultiset, ProcessedMembers and ProcessedOrder. |
| ExpenseList.ProcessData | expense-tracker/src/components/Expenses/ExpenseList.tsx:508-547 | The filter-then-sort-in-place code computes exactly the filtered list under the stable sort. |
| ExpenseList.ProcessedSubMultiset | expense-tracker/src/components/Expenses/ExpenseList.tsx:508-547 | Processing only removes and reorders items. |
| ExpenseList.ProcessedMembers | expense-tracker/src/components/Expenses/ExpenseList.tsx:511-533 | An item is shown exactly when it is in the input and passes every filter that is set. The date range is inclusive, and a missing start is the epoch. |
| ExpenseList.SearchIff | expense-tracker/src/components/Expenses/ExpenseList.tsx:512-517 | An item matches the search exactly when the lower-cased term occurs in its lower-cased description, or its non-zero amount's text. |
| ExpenseList.EmptySearchKeepsAll | expense-tracker/src/components/Expenses/ExpenseList.tsx:512-517 | The empty search term would keep every item, so skipping the search filter for it changes nothing. |
| ExpenseList.DefaultsKeepAll | expense-tracker/src/components/Expenses/ExpenseList.tsx:509-546 | With the filters unset, every item is kept. An unknown sort order then returns the list unchanged. |
| ExpenseList.ProcessedOrder | expense-tracker/src/components/Expenses/ExpenseList.tsx:536-544 | Each sort order orders the rows by its field and direction. An unknown one keeps the filtered order. |
| ExpenseList.UniqueCategories | expense-tracker/src/components/Expenses/ExpenseList.tsx:550-553 | The category drop-down. Its entries are stated by UniqueCategoriesSpec. |
| ExpenseList.UniqueCategoriesSpec | expense-tracker/src/components/Expenses/ExpenseList.tsx:550-553 | `'All'` first, then each category name of the expenses exactly once, and no other name. |
| ExpenseList.VisibleRows | expense-tracker/src/components/Expenses/ExpenseList.tsx:556 | The rows of one page. What it holds is stated by VisibleRowsSpec, EveryRowOnItsPage and FirstPage. |
| ExpenseList.VisibleRowsSpec | expense-tracker/src/components/Expenses/ExpenseList.tsx:556 | A page holds at most `rowsPerPage` rows, taken in order from `page * rowsPerPage`. It is full unless it reaches the end, and empty past the end. |
| ExpenseList.EveryRowOnItsPage | expense-tracker/src/components/Expenses/ExpenseList.tsx:556 | Row `i` appears on page `i / rowsPerPage`, at position `i % rowsPerPage`. |
| ExpenseList.FirstPage | expense-tracker/src/components/Expenses/ExpenseList.tsx:556 | The first page is the head of the list. |
| ExpenseList.ListState.constructor | expense-tracker/src/components/Expenses/ExpenseList.tsx:472-482 | Page 0, five rows per page, no search, category `'All'`, newest first, no dates. |
| ExpenseList.ListState.ChangePage | expense-tracker/src/components/Expenses/ExpenseList.tsx:485-489 | Only the page changes. |
| ExpenseList.ListState.ChangeRowsPerPage | expense-tracker/src/components/Expenses/ExpenseList.tsx:491-494 | A new page size goes back to the first page, so the visible rows are the head of the list. |
| ExpenseList.ListState.ClearDateFilter | expense-tracker/src/components/Expenses/ExpenseList.tsx:502-505 | Only the two dates are cleared. |
| ExpenseList.ListState.ClearFilters | expense-tracker/src/components/Expenses/ExpenseList.tsx:699-703 | Search, category and dates are reset. The sort order and the page stay. |

## Left out

- **Server calls and feedback.** Database reads and writes are not modelled.
  `updateGoal`, `addBudget` and the delete actions are server calls. The
  panels' only observable effect through `updateGoal` is the sequence of
  calls, kept as `writes`. Toasts are a log, and rendering and animation are
  not modelled.
- **Floating point.** Amounts are whole cents, so `parseFloat`/`Number()`
  rounding, `NaN` and `toFixed` are not modelled. An input that does not parse
  is `None`, which `|| 0` turns into 0. Percentages and averages are exact
  reals.
- Budgets.Percentage: requires a positive limit. The code divides by the
  limit, which gives `Infinity` or `NaN` for a zero limit, and exact reals
  have no such values. Budgets.GoalPercentage, Budgets.OverBudget and
  Budgets.RemainingSign carry the same requirement.
- **Date libraries, locales and the clock are parameters.** This covers
  `new Date(...)` parsing, `toLocaleString`/`toLocaleDateString`, the
  date-fns `startOfDay`/`endOfDay` of a picked date, and `new Date()` as
  "today". A date arrives already broken down.
- ExpenseAnalytics.MonthIndexOrder and ExpenseAnalytics.DayIndexOrder: month
  and day keys are compared as calendar values. `localeCompare` on the
  `YYYY-MM` and `YYYY-MM-DD` key strings gives the same order only for
  four-digit, non-negative years.
- ExpenseAnalytics.DayKeyParts and ExpenseAnalytics.DailyPointsSpec: the
  `DD/MM` label is proved for years written without a sign only. For a
  negative year, `String(year)` starts with `-`, the key splits into four
  parts, and the label the code builds is the month and the year digits. The
  model computes that label; no property is stated about it.
- **Inherited dictionary keys.** The breakdown dictionaries are plain `{}`
  objects (src/components/Expenses/ExpenseAnalytics.tsx:42-46 and 54-57,
  expense-tracker/src/components/ExpenseAnalytics.tsx:24), so they inherit
  `Object.prototype`. A category named `__proto__` is not stored as a key and
  drops out of `Object.entries`, so its amount is lost. A category named
  `constructor` or `toString` starts from an inherited function, so its sum
  becomes string concatenation. The model's dictionary has no inherited keys,
  so its total and per-key sums do not hold in the code for these names.
- **Key order of `Object.entries` and `Object.keys`.** Keys are read back in
  insertion order. JavaScript lists integer-like keys first, in numeric
  order, which matters only for category names that are array indices.
- Text.Lower: ASCII letters only. Unicode case mapping is not modelled.
- Text.CentsTextDigits: the `toString` of an amount is modelled for
  whole-cent values only. Exponent notation for very large or very small
  numbers is not modelled.
- ExpenseSummary.MaxOrZero and ExpenseSummary.MinOrZero: the engine's limit
  on spread arguments is not modelled.
- ExpenseList.ProcessedMembers: a category literally named `'All'` cannot be
  selected on its own, because the code reads that value as "no filter". The
  model keeps this behaviour.
- **The category, search, sort and date setters.** These inputs are plain
  `useState` setters, reachable only through the whole filter state. A
  filter change does not reset the page.
- **Parts of the code outside this model.** The budget and goal creation
  forms, the deletion confirmations and the mobile layout of the expense
  table are not part of this model.
