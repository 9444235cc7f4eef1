/** The analytics dashboard helpers: `calculateMetrics`, `getCategoryData`,
    `getMonthlyData` and `getDailyData`. Each fills a dictionary in a `forEach`
    loop (`GroupByDictionary`), then reads it back through `Object.entries`,
    a stable `sort` and a `map`. The earlier revision of the dashboard shares
    the first three helpers unchanged. */
module ExpenseAnalytics {
  import opened Wrappers
  import opened Seqs
  import opened Grouping
  import opened StableSort
  import opened Records
  import opened Text

  datatype Metrics = Metrics(total: int, avg: real, count: nat, topCategory: string)

  /** `count ? total / count : 0`. */
  function Average(total: int, count: nat): (r: real)
    ensures count > 0 ==> r * count as real == total as real
    ensures count == 0 ==> r == 0.0
  {
    if count > 0 then total as real / count as real else 0.0
  }

  /** Every expense counts once towards its category. */
  function One(e: Expense): int { 1 }

  /** The `(name, 1)` entries the category counter adds up. */
  function CountEntries(expenses: seq<Expense>): seq<Entry<string>>
  {
    KeyedBy(expenses, CategoryOf("Uncategorized"), One)
  }

  /** One step of the `reduce` over the counted names:
      `catCounts[a] > catCounts[b] ? a : b`. A name missing from the dictionary
      reads as `undefined`, which is never greater. */
  function KeepGreater(counts: map<string, int>, a: string, b: string): (r: string)
    requires b in counts
    ensures r == a || r == b
    ensures r != b ==> a in counts && counts[a] > counts[b]
  {
    if a in counts && counts[a] > counts[b] then a else b
  }

  /** `ks.reduce(KeepGreater, init)`, folded from the left. */
  function ReduceTop(ks: seq<string>, counts: map<string, int>, init: string): string
    requires forall i :: 0 <= i < |ks| ==> ks[i] in counts
  {
    if ks == [] then init
    else KeepGreater(counts, ReduceTop(ks[..|ks| - 1], counts, init), ks[|ks| - 1])
  }

  /** `q[i]` has the greatest count in `q`, and every later element a smaller one. */
  ghost predicate IsLastMax(q: seq<string>, counts: map<string, int>, i: int)
  {
    && 0 <= i < |q|
    && (forall j :: 0 <= j < |q| ==> q[j] in counts)
    && (forall j :: 0 <= j < |q| ==> counts[q[j]] <= counts[q[i]])
    && (forall j :: i < j < |q| ==> counts[q[j]] < counts[q[i]])
  }

  /** The start value takes part in the comparison when it is itself a key. */
  function Contenders(ks: seq<string>, counts: map<string, int>, init: string): seq<string>
  {
    (if init in counts then [init] else []) + ks
  }

  /** The strict `>` keeps a later key on a tie: the fold picks the last of
      the keys with the greatest count. */
  lemma {:induction false} ReduceTopLastMax(ks: seq<string>, counts: map<string, int>, init: string)
    requires forall i :: 0 <= i < |ks| ==> ks[i] in counts
    requires Contenders(ks, counts, init) != []
    ensures exists i :: IsLastMax(Contenders(ks, counts, init), counts, i) &&
                        Contenders(ks, counts, init)[i] == ReduceTop(ks, counts, init)
  {
    var q := Contenders(ks, counts, init);
    var r := ReduceTop(ks, counts, init);
    if ks == [] {
      assert q == [init];
      assert IsLastMax(q, counts, 0);
    } else {
      var init' := ks[..|ks| - 1];
      var b := ks[|ks| - 1];
      var q' := Contenders(init', counts, init);
      assert q == q' + [b];
      if q' == [] {
        assert init' == [] && init !in counts;
        assert ReduceTop(init', counts, init) == init;
        assert q == [b] && r == b;
        assert IsLastMax(q, counts, 0);
      } else {
        ReduceTopLastMax(init', counts, init);
        var i :| IsLastMax(q', counts, i) && q'[i] == ReduceTop(init', counts, init);
        if r == b && !(q'[i] in counts && counts[q'[i]] > counts[b]) {
          assert IsLastMax(q, counts, |q| - 1);
        } else {
          assert IsLastMax(q, counts, i);
        }
      }
    }
  }

  /** Over the keys of a dictionary, in any order, the start value never wins
      unless it is itself one of the keys. */
  lemma ReduceTopOverKeys(order: seq<string>, counts: map<string, int>, init: string)
    requires forall i :: 0 <= i < |order| ==> order[i] in counts
    requires init in counts ==> init in order
    requires order != []
    ensures exists i :: IsLastMax(order, counts, i) && order[i] == ReduceTop(order, counts, init)
  {
    var q := Contenders(order, counts, init);
    ReduceTopLastMax(order, counts, init);
    var i :| IsLastMax(q, counts, i) && q[i] == ReduceTop(order, counts, init);
    if init in counts {
      var j :| 0 <= j < |order| && order[j] == init;
      assert q[j + 1] == q[0];
      assert i != 0;
      assert forall k :: 0 <= k < |order| ==> order[k] == q[k + 1];
      assert IsLastMax(order, counts, i - 1);
    } else {
      assert q == order;
    }
  }

  /** The `topCategory` of `calculateMetrics`. */
  function TopCategory(expenses: seq<Expense>): string
  {
    var s := CountEntries(expenses);
    assert forall i :: 0 <= i < |Dedup(KeysOf(s))| ==> Dedup(KeysOf(s))[i] in Tally(s);
    ReduceTop(Dedup(KeysOf(s)), Tally(s), "N/A")
  }

  /** `topCategory` is `"N/A"` without expenses; otherwise it is the category
      name (fallback `"Uncategorized"`) with the most expenses, the last such
      name in first-occurrence order on a tie. */
  lemma TopCategoryIsLastMax(expenses: seq<Expense>)
    ensures expenses == [] ==> TopCategory(expenses) == "N/A"
    ensures expenses != [] ==>
              exists i :: IsLastMax(Dedup(KeysOf(CountEntries(expenses))), Tally(CountEntries(expenses)), i) &&
                          Dedup(KeysOf(CountEntries(expenses)))[i] == TopCategory(expenses)
  {
    var s := CountEntries(expenses);
    var order, counts := Dedup(KeysOf(s)), Tally(s);
    assert forall i :: 0 <= i < |order| ==> order[i] in counts;
    if expenses != [] {
      assert KeysOf(s)[0] in order;
      assert "N/A" in counts ==> "N/A" in order;
      ReduceTopOverKeys(order, counts, "N/A");
    }
  }

  /** `calculateMetrics`: the total and average amount, the number of expenses
      and the top category, whose counts are filled in a `forEach` loop. */
  method CalculateMetrics(expenses: seq<Expense>) returns (m: Metrics)
    ensures m.total == SumBy(expenses, ExpenseAmount)
    ensures m.avg == Average(m.total, |expenses|)
    ensures m.count == |expenses|
    ensures m.topCategory == TopCategory(expenses)
  {
    var total := SumBy(expenses, ExpenseAmount);
    var order, counts := GroupByDictionary(CountEntries(expenses));
    var top := ReduceTop(order, counts, "N/A");
    m := Metrics(total, Average(total, |expenses|), |expenses|, top);
  }

  /** Sort key of `(a, b) => b.value - a.value`: descending by value. */
  function ByValueDescending(e: Entry<string>): int { -e.value }

  /** `getCategoryData`: per-category sums, fallback name `"Other"`, largest first. */
  function CategoryData(expenses: seq<Expense>): seq<Entry<string>>
  {
    Sort(Group(KeyedBy(expenses, CategoryOf("Other"), ExpenseAmount)), ByValueDescending)
  }

  method GetCategoryData(expenses: seq<Expense>) returns (r: seq<Entry<string>>)
    ensures r == CategoryData(expenses)
  {
    var order, map_ := GroupByDictionary(KeyedBy(expenses, CategoryOf("Other"), ExpenseAmount));
    r := Sort(Entries(order, map_), ByValueDescending);
  }

  /** One entry per distinct category name of the expenses and no other, each
      holding the sum of that category's amounts, all of them adding up to the
      total, in non-increasing order of value. */
  lemma CategoryDataSpec(expenses: seq<Expense>)
    ensures NoDup(KeysOf(CategoryData(expenses)))
    ensures forall i :: 0 <= i < |expenses| ==>
              CategoryName(expenses[i].category, "Other") in KeysOf(CategoryData(expenses))
    ensures forall i :: 0 <= i < |CategoryData(expenses)| ==>
              exists j :: 0 <= j < |expenses| &&
                CategoryName(expenses[j].category, "Other") == CategoryData(expenses)[i].key
    ensures forall i :: 0 <= i < |CategoryData(expenses)| ==>
              CategoryData(expenses)[i].value ==
              SumWhere(expenses, KeyIs(CategoryOf("Other"), CategoryData(expenses)[i].key), ExpenseAmount)
    ensures Total(CategoryData(expenses)) == SumBy(expenses, ExpenseAmount)
    ensures forall i, j :: 0 <= i < j < |CategoryData(expenses)| ==>
              CategoryData(expenses)[i].value >= CategoryData(expenses)[j].value
  {
    SortKeyedGroupSpec(expenses, CategoryOf("Other"), ExpenseAmount, ByValueDescending);
    Descending(CategoryData(expenses));
  }

  /** Sorted by `ByValueDescending`, the values do not increase. */
  lemma Descending(r: seq<Entry<string>>)
    requires SortedBy(r, ByValueDescending)
    ensures forall i, j :: 0 <= i < j < |r| ==> r[i].value >= r[j].value
  {
    forall i, j | 0 <= i < j < |r| ensures r[i].value >= r[j].value {
      assert ByValueDescending(r[i]) <= ByValueDescending(r[j]);
    }
  }

  // ---- Months ----

  datatype MonthKey = MonthKey(year: int, month: Month)

  /** The month of an expense: the key `` `${year}-${mm}` ``. */
  function MonthOf(e: Expense): MonthKey { MonthKey(e.when.year, e.when.month) }

  /** Position of a month on the calendar. */
  function MonthIndex(k: MonthKey): int { k.year * 12 + k.month }

  /** Months are ordered by year, then by month, and distinct months have
      distinct positions. */
  lemma MonthIndexOrder(a: MonthKey, b: MonthKey)
    ensures MonthIndex(a) < MonthIndex(b) <==> a.year < b.year || (a.year == b.year && a.month < b.month)
    ensures MonthIndex(a) == MonthIndex(b) <==> a == b
  {
    if a.year < b.year {
      assert a.year * 12 <= b.year * 12 - 12;
    } else if a.year > b.year {
      assert b.year * 12 <= a.year * 12 - 12;
    }
  }

  function ByMonth(e: Entry<MonthKey>): int { MonthIndex(e.key) }

  /** The per-month sums of `getMonthlyData`, before the months are named. */
  function MonthlyEntries(expenses: seq<Expense>): seq<Entry<MonthKey>>
  {
    Sort(Group(KeyedBy(expenses, MonthOf, ExpenseAmount)), ByMonth)
  }

  /** The month of `new Date(y, Number(digits) - 1)`: the constructor carries
      whole years over, so month index `n - 1` falls in month `(n - 1) mod 12`,
      counted here from 1. */
  function DateMonth(digits: string): (m: Month)
    requires forall i :: 0 <= i < |digits| ==> IsDigit(digits[i])
    ensures ParseNat(digits) >= 1 ==> m == (ParseNat(digits) - 1) % 12 + 1
    ensures ParseNat(digits) == 0 ==> m == 12
  {
    (ParseNat(digits) + 11) % 12 + 1
  }

  /** The month named for a key: `const [year, month] = key.split('-')`, then
      the month of `new Date(Number(year), Number(month) - 1)`. */
  function NamedMonth(key: string): Option<Month>
  {
    MonthOfParts(Split(key, '-'))
  }

  /** The month of the date built from the parts of a key. `None` is the
      invalid date that a `month` part other than digits gives. */
  function MonthOfParts(parts: seq<string>): Option<Month>
  {
    var month := Part(parts, 1);
    if forall i :: 0 <= i < |month| ==> IsDigit(month[i]) then Some(DateMonth(month)) else None
  }

  /** `toLocaleString('default', { month: 'short' })` of that date, with
      `monthName` giving the name of a month. */
  function MonthLabel(k: MonthKey, monthName: Month -> string): string
  {
    match NamedMonth(MonthKeyText(k))
    case Some(m) => monthName(m)
    case None => "Invalid Date"
  }

  /** The closing `map` of `getMonthlyData`: each month's entry is named by
      `MonthLabel`. */
  function NameMonths(es: seq<Entry<MonthKey>>, monthName: Month -> string): seq<Entry<string>>
  {
    seq(|es|, i requires 0 <= i < |es| => Entry(MonthLabel(es[i].key, monthName), es[i].value))
  }

  /** Naming the months keeps their values, and so their total. */
  lemma {:induction false} NameMonthsTotal(es: seq<Entry<MonthKey>>, monthName: Month -> string)
    ensures Total(NameMonths(es, monthName)) == Total(es)
  {
    if es != [] {
      var r := NameMonths(es, monthName);
      assert r[..|r| - 1] == NameMonths(es[..|es| - 1], monthName);
      NameMonthsTotal(es[..|es| - 1], monthName);
    }
  }

  /** The text of a month key, `YYYY-MM`. */
  function MonthKeyText(k: MonthKey): string
  {
    IntToString(k.year) + "-" + Pad2(k.month)
  }

  /** `key.split('-')` gives back the year and the month, so the date
      `new Date(Number(year), Number(month) - 1)` that is named lies in the
      key's own month. */
  lemma MonthKeyParts(k: MonthKey)
    requires k.year >= 0
    ensures Split(MonthKeyText(k), '-') == [IntToString(k.year), Pad2(k.month)]
    ensures ParseNat(IntToString(k.year)) == k.year && ParseNat(Pad2(k.month)) == k.month
  {
    var y := IntToString(k.year);
    assert forall i :: 0 <= i < |y| ==> IsDigit(y[i]);
    assert MonthKeyText(k) == y + ['-'] + Pad2(k.month);
    SplitJoin(y, '-', Pad2(k.month));
    SplitNone(Pad2(k.month), '-');
    ParseNatToString(k.year);
    ParsePad2(k.month);
  }

  /** The month the code names for a key: the key's month for a year without
      a sign, and for a negative year the month that the year's digits, read
      as a month number, carry over to. */
  function KeyMonth(k: MonthKey): Month
  {
    if k.year >= 0 then k.month else (-k.year + 11) % 12 + 1
  }

  /** Splitting and reading back the key names `KeyMonth`. */
  lemma MonthKeyNamed(k: MonthKey)
    ensures NamedMonth(MonthKeyText(k)) == Some(KeyMonth(k))
  {
    if k.year >= 0 {
      UnsignedYearNamed(k);
    } else {
      NegativeYearNamed(k);
    }
  }

  /** For a year without a sign the named month is the key's month. */
  lemma UnsignedYearNamed(k: MonthKey)
    requires k.year >= 0
    ensures NamedMonth(MonthKeyText(k)) == Some(k.month)
  {
    MonthKeyParts(k);
    NamedMonthOfParts(MonthKeyText(k), [IntToString(k.year), Pad2(k.month)], k.month);
    assert (k.month + 11) % 12 + 1 == k.month;
  }

  /** For a negative year the key is `-` followed by the year's digits, so
      the part the code reads as the month is the year's digits. */
  lemma NegativeYearNamed(k: MonthKey)
    requires k.year < 0
    ensures NamedMonth(MonthKeyText(k)) == Some((-k.year + 11) % 12 + 1)
  {
    var y, m := NatToString(-k.year), Pad2(k.month);
    ParseNatToString(-k.year);
    assert MonthKeyText(k) == "-" + y + "-" + m;
    SplitSignedKey(y, m);
    NamedMonthOfParts(MonthKeyText(k), ["", y, m], -k.year);
  }

  /** `-y-m` with `y` and `m` digits splits into an empty part, `y` and `m`. */
  lemma SplitSignedKey(y: string, m: string)
    requires forall i :: 0 <= i < |y| ==> IsDigit(y[i])
    requires forall i :: 0 <= i < |m| ==> IsDigit(m[i])
    ensures Split("-" + y + "-" + m, '-') == ["", y, m]
  {
    var rest := y + ['-'] + m;
    assert "-" + y + "-" + m == [] + ['-'] + rest;
    SplitJoin([], '-', rest);
    SplitJoin(y, '-', m);
    SplitNone(m, '-');
  }

  /** A key whose `month` part holds the digits of `n` names the month
      `n - 1` falls in. */
  lemma NamedMonthOfParts(key: string, parts: seq<string>, n: nat)
    requires Split(key, '-') == parts && |parts| >= 2
    requires forall i :: 0 <= i < |parts[1]| ==> IsDigit(parts[1][i])
    requires ParseNat(parts[1]) == n
    ensures NamedMonth(key) == Some((n + 11) % 12 + 1)
  {
    assert MonthOfParts(parts) == Some(DateMonth(parts[1]));
  }

  /** Naming keeps each month's value and names it after `KeyMonth`. */
  lemma NameMonthsSpec(es: seq<Entry<MonthKey>>, monthName: Month -> string)
    ensures |NameMonths(es, monthName)| == |es|
    ensures forall i :: 0 <= i < |es| ==>
              NameMonths(es, monthName)[i] == Entry(monthName(KeyMonth(es[i].key)), es[i].value)
    ensures Total(NameMonths(es, monthName)) == Total(es)
  {
    forall i | 0 <= i < |es| ensures MonthLabel(es[i].key, monthName) == monthName(KeyMonth(es[i].key)) {
      MonthKeyNamed(es[i].key);
    }
    NameMonthsTotal(es, monthName);
  }

  function MonthlyData(expenses: seq<Expense>, monthName: Month -> string): seq<Entry<string>>
  {
    NameMonths(MonthlyEntries(expenses), monthName)
  }

  method GetMonthlyData(expenses: seq<Expense>, monthName: Month -> string) returns (r: seq<Entry<string>>)
    ensures r == MonthlyData(expenses, monthName)
  {
    var order, map_ := GroupByDictionary(KeyedBy(expenses, MonthOf, ExpenseAmount));
    r := NameMonths(Sort(Entries(order, map_), ByMonth), monthName);
  }

  /** One entry per month that has expenses and no other, in strictly
      increasing calendar order, each holding that month's sum, all adding up
      to the total. */
  lemma MonthlyEntriesSpec(expenses: seq<Expense>)
    ensures forall i :: 0 <= i < |expenses| ==> MonthOf(expenses[i]) in KeysOf(MonthlyEntries(expenses))
    ensures forall i :: 0 <= i < |MonthlyEntries(expenses)| ==>
              exists j :: 0 <= j < |expenses| && MonthOf(expenses[j]) == MonthlyEntries(expenses)[i].key
    ensures forall i, j :: 0 <= i < j < |MonthlyEntries(expenses)| ==>
              MonthIndex(MonthlyEntries(expenses)[i].key) < MonthIndex(MonthlyEntries(expenses)[j].key)
    ensures forall i :: 0 <= i < |MonthlyEntries(expenses)| ==>
              MonthlyEntries(expenses)[i].value ==
              SumWhere(expenses, KeyIs(MonthOf, MonthlyEntries(expenses)[i].key), ExpenseAmount)
    ensures Total(MonthlyEntries(expenses)) == SumBy(expenses, ExpenseAmount)
  {
    SortKeyedGroupSpec(expenses, MonthOf, ExpenseAmount, ByMonth);
    StrictlyByMonth(MonthlyEntries(expenses));
  }

  /** Months sorted by position with no month twice are strictly increasing. */
  lemma StrictlyByMonth(r: seq<Entry<MonthKey>>)
    requires NoDup(KeysOf(r))
    requires SortedBy(r, ByMonth)
    ensures forall i, j :: 0 <= i < j < |r| ==> MonthIndex(r[i].key) < MonthIndex(r[j].key)
  {
    forall i, j | 0 <= i < j < |r| ensures MonthIndex(r[i].key) < MonthIndex(r[j].key) {
      assert KeysOf(r)[i] != KeysOf(r)[j];
      MonthIndexOrder(r[i].key, r[j].key);
    }
  }

  // ---- Days ----

  datatype DayKey = DayKey(year: int, month: Month, day: DayOfMonth)

  /** A row of `getDailyData`: the `DD/MM` label, the day's sum and the key text. */
  datatype DailyPoint = DailyPoint(name: string, value: int, dateKey: string)

  function DayOf(e: Expense): DayKey { DayKey(e.when.year, e.when.month, e.when.day) }

  /** The text of a day key, `YYYY-MM-DD`. */
  function DayKeyText(k: DayKey): string
  {
    IntToString(k.year) + "-" + Pad2(k.month) + "-" + Pad2(k.day)
  }

  /** The `DD/MM` x-axis label of a day, built from its month and day. */
  function DayLabel(k: DayKey): string { Pad2(k.day) + "/" + Pad2(k.month) }

  /** Position of a day on the calendar. */
  function DayIndex(k: DayKey): int { (k.year * 12 + k.month) * 31 + k.day }

  /** Days are ordered by year, month and day, and distinct days have distinct
      positions. */
  lemma DayIndexOrder(a: DayKey, b: DayKey)
    ensures DayIndex(a) < DayIndex(b) <==>
            MonthIndex(MonthKey(a.year, a.month)) < MonthIndex(MonthKey(b.year, b.month)) ||
            (a.year == b.year && a.month == b.month && a.day < b.day)
    ensures DayIndex(a) == DayIndex(b) <==> a == b
  {
    var ma, mb := MonthKey(a.year, a.month), MonthKey(b.year, b.month);
    MonthIndexOrder(ma, mb);
    if MonthIndex(ma) < MonthIndex(mb) {
      assert MonthIndex(ma) * 31 <= MonthIndex(mb) * 31 - 31;
    } else if MonthIndex(ma) > MonthIndex(mb) {
      assert MonthIndex(mb) * 31 <= MonthIndex(ma) * 31 - 31;
    }
  }

  function ByDay(e: Entry<DayKey>): int { DayIndex(e.key) }

  /** Days sorted by position with no day twice are strictly increasing. */
  lemma StrictlyByDay(r: seq<Entry<DayKey>>)
    requires NoDup(KeysOf(r))
    requires SortedBy(r, ByDay)
    ensures forall i, j :: 0 <= i < j < |r| ==> DayIndex(r[i].key) < DayIndex(r[j].key)
  {
    forall i, j | 0 <= i < j < |r| ensures DayIndex(r[i].key) < DayIndex(r[j].key) {
      assert KeysOf(r)[i] != KeysOf(r)[j];
      DayIndexOrder(r[i].key, r[j].key);
    }
  }

  /** The per-day sums of `getDailyData`, in calendar order. */
  function DailyEntries(expenses: seq<Expense>): seq<Entry<DayKey>>
  {
    Sort(Group(KeyedBy(expenses, DayOf, ExpenseAmount)), ByDay)
  }

  /** `` `${parts[i]}` `` of a split key: a missing part renders as `undefined`. */
  function Part(parts: seq<string>, i: nat): string
  {
    if i < |parts| then parts[i] else "undefined"
  }

  /** The label `` `${dateParts[2]}/${dateParts[1]}` `` with
      `dateParts = key.split('-')`. */
  function KeyLabel(key: string): string
  {
    var parts := Split(key, '-');
    Part(parts, 2) + "/" + Part(parts, 1)
  }

  /** For a year written without a sign, the key splits into year, month and
      day, so the label is `DD/MM`, whose two halves read back as the day and
      the month. */
  lemma DayKeyParts(k: DayKey)
    requires k.year >= 0
    ensures Split(DayKeyText(k), '-') == [IntToString(k.year), Pad2(k.month), Pad2(k.day)]
    ensures KeyLabel(DayKeyText(k)) == DayLabel(k)
    ensures |DayLabel(k)| == 5 && DayLabel(k)[2] == '/'
    ensures ParseNat(DayLabel(k)[..2]) == k.day && ParseNat(DayLabel(k)[3..]) == k.month
  {
    var y, m, d := IntToString(k.year), Pad2(k.month), Pad2(k.day);
    assert forall i :: 0 <= i < |y| ==> IsDigit(y[i]);
    assert DayKeyText(k) == y + ['-'] + (m + ['-'] + d);
    SplitJoin(y, '-', m + ['-'] + d);
    SplitJoin(m, '-', d);
    SplitNone(d, '-');
    assert DayLabel(k)[..2] == d;
    assert DayLabel(k)[3..] == m;
    ParsePad2(k.day);
    ParsePad2(k.month);
  }

  /** The closing `map` of `getDailyData`. */
  function PointsOf(es: seq<Entry<DayKey>>): seq<DailyPoint>
  {
    seq(|es|, i requires 0 <= i < |es| =>
      DailyPoint(KeyLabel(DayKeyText(es[i].key)), es[i].value, DayKeyText(es[i].key)))
  }

  function DailyData(expenses: seq<Expense>): seq<DailyPoint>
  {
    PointsOf(DailyEntries(expenses))
  }

  method GetDailyData(expenses: seq<Expense>) returns (r: seq<DailyPoint>)
    ensures r == DailyData(expenses)
  {
    var order, map_ := GroupByDictionary(KeyedBy(expenses, DayOf, ExpenseAmount));
    r := PointsOf(Sort(Entries(order, map_), ByDay));
  }

  /** One entry per day that has expenses and no other, in strictly
      increasing calendar order, each holding that day's sum, all adding up to
      the total. */
  lemma DailyDataSpec(expenses: seq<Expense>)
    ensures forall i :: 0 <= i < |expenses| ==> DayOf(expenses[i]) in KeysOf(DailyEntries(expenses))
    ensures forall i :: 0 <= i < |DailyEntries(expenses)| ==>
              exists j :: 0 <= j < |expenses| && DayOf(expenses[j]) == DailyEntries(expenses)[i].key
    ensures forall i, j :: 0 <= i < j < |DailyEntries(expenses)| ==>
              DayIndex(DailyEntries(expenses)[i].key) < DayIndex(DailyEntries(expenses)[j].key)
    ensures forall i :: 0 <= i < |DailyEntries(expenses)| ==>
              DailyEntries(expenses)[i].value ==
              SumWhere(expenses, KeyIs(DayOf, DailyEntries(expenses)[i].key), ExpenseAmount)
    ensures Total(DailyEntries(expenses)) == SumBy(expenses, ExpenseAmount)
  {
    SortKeyedGroupSpec(expenses, DayOf, ExpenseAmount, ByDay);
    StrictlyByDay(DailyEntries(expenses));
  }

  /** The named months keep the per-month sums in calendar order and still
      add up to the total; each is named after `KeyMonth`, which is the month
      itself for a year without a sign. */
  lemma MonthlyDataSpec(expenses: seq<Expense>, monthName: Month -> string)
    ensures |MonthlyData(expenses, monthName)| == |MonthlyEntries(expenses)|
    ensures forall i :: 0 <= i < |MonthlyEntries(expenses)| ==>
              MonthlyData(expenses, monthName)[i] ==
              Entry(monthName(KeyMonth(MonthlyEntries(expenses)[i].key)),
                    SumWhere(expenses, KeyIs(MonthOf, MonthlyEntries(expenses)[i].key), ExpenseAmount))
    ensures Total(MonthlyData(expenses, monthName)) == SumBy(expenses, ExpenseAmount)
  {
    MonthlyEntriesSpec(expenses);
    NameMonthsSpec(MonthlyEntries(expenses), monthName);
  }

  /** Each point carries its day's key text and sum, and, for a year written
      without a sign, the label `DD/MM` of that day. */
  lemma DailyPointsSpec(expenses: seq<Expense>)
    ensures |DailyData(expenses)| == |DailyEntries(expenses)|
    ensures forall i :: 0 <= i < |DailyEntries(expenses)| ==>
              DailyData(expenses)[i].dateKey == DayKeyText(DailyEntries(expenses)[i].key) &&
              DailyData(expenses)[i].value ==
              SumWhere(expenses, KeyIs(DayOf, DailyEntries(expenses)[i].key), ExpenseAmount)
    ensures forall i :: 0 <= i < |DailyEntries(expenses)| && DailyEntries(expenses)[i].key.year >= 0 ==>
              DailyData(expenses)[i].name == DayLabel(DailyEntries(expenses)[i].key)
  {
    var es := DailyEntries(expenses);
    DailyDataSpec(expenses);
    forall i | 0 <= i < |es| && es[i].key.year >= 0
      ensures DailyData(expenses)[i].name == DayLabel(es[i].key)
    {
      DayKeyParts(es[i].key);
    }
  }

  /** The daily points add up to the total, as the category entries do. */
  lemma DailyTotalMatchesCategories(expenses: seq<Expense>)
    ensures Total(DailyEntries(expenses)) == Total(CategoryData(expenses))
  {
    DailyDataSpec(expenses);
    CategoryDataSpec(expenses);
  }
}
