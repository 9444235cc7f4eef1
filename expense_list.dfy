/** The expense table: search, category and date-range filters, four sort
    orders, the category drop-down and pagination. `processedData` reassigns a
    local list through up to three filters, then sorts a copy in place; the
    page and the rows per page are state changed by handlers. The date-fns calls
    `startOfDay(parseISO(d)).getTime()` and `endOfDay(parseISO(d)).getTime()`
    are the parameters `dayStart` and `dayEnd`. */
module ExpenseList {
  import opened Wrappers
  import opened Seqs
  import opened Grouping
  import opened StableSort
  import opened Records
  import opened Text

  /** The search filter for an already lower-cased term: the lower-cased
      description contains it, or the amount is not zero and its text
      contains it. */
  function MatchesSearch(lowerTerm: string): Expense -> bool
  {
    (e: Expense) => Contains(Lower(e.description), lowerTerm) ||
                    (e.amount != 0 && Contains(AmountText(e.amount), lowerTerm))
  }

  /** `item.categories?.name === categoryFilter`. */
  function HasCategoryName(name: string): Expense -> bool
  {
    (e: Expense) => e.category == Some(name)
  }

  /** `itemDate >= start && itemDate <= end`, with `end` as `Infinity` when absent. */
  function InRange(start: int, end: Option<int>): Expense -> bool
  {
    (e: Expense) => e.when.time >= start && (end.None? || e.when.time <= end.value)
  }

  /** The date filter's bounds: a missing start date is 0, the epoch; a missing
      end date is no bound. */
  function RangeOf(startDate: string, endDate: string, dayStart: string -> int, dayEnd: string -> int): Expense -> bool
  {
    InRange(if startDate != "" then dayStart(startDate) else 0,
            if endDate != "" then Some(dayEnd(endDate)) else None)
  }

  /** The three filters of `processedData`, each applied only when set. */
  function Filtered(expenses: seq<Expense>, searchTerm: string, categoryFilter: string,
                    startDate: string, endDate: string,
                    dayStart: string -> int, dayEnd: string -> int): seq<Expense>
  {
    var a := if searchTerm != "" then Filter(expenses, MatchesSearch(Lower(searchTerm))) else expenses;
    var b := if categoryFilter != "All" then Filter(a, HasCategoryName(categoryFilter)) else a;
    if startDate != "" || endDate != "" then Filter(b, RangeOf(startDate, endDate, dayStart, dayEnd)) else b
  }

  function ByDateAscending(e: Expense): int { e.when.time }
  function ByDateDescending(e: Expense): int { -e.when.time }
  function ByAmountDescending(e: Expense): int { -e.amount }
  function ByAmountAscending(e: Expense): int { e.amount }
  function Unordered(e: Expense): int { 0 }

  /** The comparator of `data.sort`, as the key whose difference it returns. */
  function SortKey(sortBy: string): Expense -> int
  {
    if sortBy == "date-asc" then ByDateAscending
    else if sortBy == "date-desc" then ByDateDescending
    else if sortBy == "amount-desc" then ByAmountDescending
    else if sortBy == "amount-asc" then ByAmountAscending
    else Unordered
  }

  /** `processedData`. */
  function Processed(expenses: seq<Expense>, searchTerm: string, categoryFilter: string, sortBy: string,
                     startDate: string, endDate: string,
                     dayStart: string -> int, dayEnd: string -> int): seq<Expense>
  {
    Sort(Filtered(expenses, searchTerm, categoryFilter, startDate, endDate, dayStart, dayEnd), SortKey(sortBy))
  }

  method ProcessData(expenses: seq<Expense>, searchTerm: string, categoryFilter: string, sortBy: string,
                     startDate: string, endDate: string,
                     dayStart: string -> int, dayEnd: string -> int) returns (r: seq<Expense>)
    ensures r == Processed(expenses, searchTerm, categoryFilter, sortBy, startDate, endDate, dayStart, dayEnd)
  {
    var data := expenses;
    if searchTerm != "" {
      var lowerTerm := Lower(searchTerm);
      data := Filter(data, MatchesSearch(lowerTerm));
    }
    if categoryFilter != "All" {
      data := Filter(data, HasCategoryName(categoryFilter));
    }
    if startDate != "" || endDate != "" {
      data := Filter(data, RangeOf(startDate, endDate, dayStart, dayEnd));
    }
    var a := new Expense[|data|](i requires 0 <= i < |data| => data[i]);
    assert a[..] == data;
    SortInPlace(a, SortKey(sortBy));
    r := a[..];
  }

  /** Filtering and sorting only remove and reorder: every item comes from the
      input, unaltered, and no more often than it occurs there. */
  lemma ProcessedSubMultiset(expenses: seq<Expense>, searchTerm: string, categoryFilter: string, sortBy: string,
                             startDate: string, endDate: string,
                             dayStart: string -> int, dayEnd: string -> int)
    ensures multiset(Processed(expenses, searchTerm, categoryFilter, sortBy, startDate, endDate, dayStart, dayEnd))
            <= multiset(expenses)
  {
    var a := if searchTerm != "" then Filter(expenses, MatchesSearch(Lower(searchTerm))) else expenses;
    var b := if categoryFilter != "All" then Filter(a, HasCategoryName(categoryFilter)) else a;
    var c := Filtered(expenses, searchTerm, categoryFilter, startDate, endDate, dayStart, dayEnd);
    FilterSubMultiset(expenses, MatchesSearch(Lower(searchTerm)));
    FilterSubMultiset(a, HasCategoryName(categoryFilter));
    FilterSubMultiset(b, RangeOf(startDate, endDate, dayStart, dayEnd));
    SortPermutes(c, SortKey(sortBy));
  }

  /** An item is shown exactly when it is in the input and passes each filter
      that is set. An item without a category fails every category filter but
      `'All'`, `'Uncategorized'` included; the date range is inclusive at both
      ends. */
  lemma ProcessedMembers(expenses: seq<Expense>, searchTerm: string, categoryFilter: string, sortBy: string,
                         startDate: string, endDate: string,
                         dayStart: string -> int, dayEnd: string -> int, e: Expense)
    ensures e in Processed(expenses, searchTerm, categoryFilter, sortBy, startDate, endDate, dayStart, dayEnd) <==>
            && e in expenses
            && (searchTerm == "" || MatchesSearch(Lower(searchTerm))(e))
            && (categoryFilter == "All" || e.category == Some(categoryFilter))
            && (startDate == "" || e.when.time >= dayStart(startDate))
            && (startDate != "" || endDate == "" || e.when.time >= 0)
            && (endDate == "" || e.when.time <= dayEnd(endDate))
  {
    var a := if searchTerm != "" then Filter(expenses, MatchesSearch(Lower(searchTerm))) else expenses;
    var b := if categoryFilter != "All" then Filter(a, HasCategoryName(categoryFilter)) else a;
    var c := Filtered(expenses, searchTerm, categoryFilter, startDate, endDate, dayStart, dayEnd);
    FilterMembers(expenses, MatchesSearch(Lower(searchTerm)), e);
    FilterMembers(a, HasCategoryName(categoryFilter), e);
    FilterMembers(b, RangeOf(startDate, endDate, dayStart, dayEnd), e);
    SortMembers(c, SortKey(sortBy));
  }

  /** The search in terms of occurrences of the lower-cased term. */
  lemma SearchIff(searchTerm: string, e: Expense)
    ensures MatchesSearch(Lower(searchTerm))(e) <==>
            (exists i: nat :: OccursAt(Lower(e.description), Lower(searchTerm), i)) ||
            (e.amount != 0 && exists i: nat :: OccursAt(AmountText(e.amount), Lower(searchTerm), i))
  {
    ContainsIff(Lower(e.description), Lower(searchTerm));
    ContainsIff(AmountText(e.amount), Lower(searchTerm));
  }

  /** The `searchTerm` guard changes nothing: the empty term is contained in
      every description, so filtering by it keeps every item. */
  lemma EmptySearchKeepsAll(expenses: seq<Expense>)
    ensures Filter(expenses, MatchesSearch(Lower(""))) == expenses
  {
    forall i | 0 <= i < |expenses| ensures MatchesSearch(Lower(""))(expenses[i]) {
      ContainsSelf(Lower(expenses[i].description));
    }
    FilterAll(expenses, MatchesSearch(Lower("")));
  }

  /** With no search term, category `'All'` and no dates, every item is kept
      and an unknown sort order leaves them as they came. */
  lemma DefaultsKeepAll(expenses: seq<Expense>, sortBy: string, dayStart: string -> int, dayEnd: string -> int)
    ensures Filtered(expenses, "", "All", "", "", dayStart, dayEnd) == expenses
    ensures sortBy !in {"date-asc", "date-desc", "amount-desc", "amount-asc"} ==>
              Processed(expenses, "", "All", sortBy, "", "", dayStart, dayEnd) == expenses
  {
    if sortBy !in {"date-asc", "date-desc", "amount-desc", "amount-asc"} {
      SortConstantKey(expenses, SortKey(sortBy), 0);
    }
  }

  /** Each sort order orders the rows by its field; an unknown one keeps the
      filtered order. */
  lemma ProcessedOrder(expenses: seq<Expense>, searchTerm: string, categoryFilter: string, sortBy: string,
                       startDate: string, endDate: string,
                       dayStart: string -> int, dayEnd: string -> int)
    ensures var r := Processed(expenses, searchTerm, categoryFilter, sortBy, startDate, endDate, dayStart, dayEnd);
            && (sortBy == "date-asc" ==> forall i, j :: 0 <= i < j < |r| ==> r[i].when.time <= r[j].when.time)
            && (sortBy == "date-desc" ==> forall i, j :: 0 <= i < j < |r| ==> r[i].when.time >= r[j].when.time)
            && (sortBy == "amount-desc" ==> forall i, j :: 0 <= i < j < |r| ==> r[i].amount >= r[j].amount)
            && (sortBy == "amount-asc" ==> forall i, j :: 0 <= i < j < |r| ==> r[i].amount <= r[j].amount)
            && (sortBy !in {"date-asc", "date-desc", "amount-desc", "amount-asc"} ==>
                  r == Filtered(expenses, searchTerm, categoryFilter, startDate, endDate, dayStart, dayEnd))
  {
    var c := Filtered(expenses, searchTerm, categoryFilter, startDate, endDate, dayStart, dayEnd);
    var key := SortKey(sortBy);
    var r := Sort(c, key);
    SortSorted(c, key);
    if sortBy !in {"date-asc", "date-desc", "amount-desc", "amount-asc"} {
      SortConstantKey(c, key, 0);
    }
    forall i, j | 0 <= i < j < |r| ensures key(r[i]) <= key(r[j]) {
    }
  }

  /** `uniqueCategories`: `'All'`, then each category name (fallback
      `'Uncategorized'`) once, in order of first occurrence. */
  function UniqueCategories(expenses: seq<Expense>): seq<string>
  {
    ["All"] + Dedup(KeysOf(KeyedBy(expenses, CategoryOf("Uncategorized"), ExpenseAmount)))
  }

  lemma UniqueCategoriesSpec(expenses: seq<Expense>)
    ensures |UniqueCategories(expenses)| >= 1 && UniqueCategories(expenses)[0] == "All"
    ensures NoDup(UniqueCategories(expenses)[1..])
    ensures forall i :: 0 <= i < |expenses| ==>
              CategoryName(expenses[i].category, "Uncategorized") in UniqueCategories(expenses)[1..]
    ensures forall i :: 1 <= i < |UniqueCategories(expenses)| ==>
              exists j :: 0 <= j < |expenses| && CategoryName(expenses[j].category, "Uncategorized") == UniqueCategories(expenses)[i]
    ensures |UniqueCategories(expenses)| <= |expenses| + 1
  {
    var ks := KeysOf(KeyedBy(expenses, CategoryOf("Uncategorized"), ExpenseAmount));
    var r := UniqueCategories(expenses);
    assert r[1..] == Dedup(ks);
    forall i | 0 <= i < |expenses|
      ensures CategoryName(expenses[i].category, "Uncategorized") in r[1..]
    {
      assert ks[i] == CategoryName(expenses[i].category, "Uncategorized");
    }
    forall i | 1 <= i < |r|
      ensures exists j :: 0 <= j < |expenses| && CategoryName(expenses[j].category, "Uncategorized") == r[i]
    {
      assert r[i] == Dedup(ks)[i - 1];
      var j :| 0 <= j < |ks| && ks[j] == r[i];
      assert CategoryName(expenses[j].category, "Uncategorized") == r[i];
    }
  }

  function Min(a: int, b: int): int { if a <= b then a else b }

  /** `data.slice(page * rowsPerPage, page * rowsPerPage + rowsPerPage)`: both
      ends are cut back to the length of the list. */
  function VisibleRows<T>(data: seq<T>, page: nat, rowsPerPage: nat): seq<T>
  {
    data[Min(page * rowsPerPage, |data|)..Min(page * rowsPerPage + rowsPerPage, |data|)]
  }

  /** A page holds at most `rowsPerPage` rows, row `k` of the page being row
      `page * rowsPerPage + k` of the list, and it is full unless it reaches
      the end of the list. */
  lemma VisibleRowsSpec<T>(data: seq<T>, page: nat, rowsPerPage: nat)
    ensures |VisibleRows(data, page, rowsPerPage)| <= rowsPerPage
    ensures forall k :: 0 <= k < |VisibleRows(data, page, rowsPerPage)| ==>
              page * rowsPerPage + k < |data| &&
              VisibleRows(data, page, rowsPerPage)[k] == data[page * rowsPerPage + k]
    ensures page * rowsPerPage + rowsPerPage <= |data| ==> |VisibleRows(data, page, rowsPerPage)| == rowsPerPage
    ensures page * rowsPerPage >= |data| ==> VisibleRows(data, page, rowsPerPage) == []
  {
  }

  /** Every row is on exactly the page its index divided by the page size
      names, at the remainder's position. */
  lemma EveryRowOnItsPage<T>(data: seq<T>, rowsPerPage: nat, i: nat)
    requires rowsPerPage > 0 && i < |data|
    ensures i % rowsPerPage < |VisibleRows(data, i / rowsPerPage, rowsPerPage)|
    ensures VisibleRows(data, i / rowsPerPage, rowsPerPage)[i % rowsPerPage] == data[i]
  {
    var p, k := i / rowsPerPage, i % rowsPerPage;
    assert p * rowsPerPage + k == i;
    VisibleRowsSpec(data, p, rowsPerPage);
  }

  /** The filter state of the list. */
  datatype Filters = Filters(searchTerm: string, categoryFilter: string, sortBy: string,
                             startDate: string, endDate: string)

  /** The component state: the page, the rows per page and the filters. */
  class ListState {
    var page: nat
    var rowsPerPage: nat
    var filters: Filters

    constructor()
      ensures page == 0 && rowsPerPage == 5
      ensures filters == Filters("", "All", "date-desc", "", "")
    {
      page := 0;
      rowsPerPage := 5;
      filters := Filters("", "All", "date-desc", "", "");
    }

    /** `visibleRows` for the current state. */
    function Rows(expenses: seq<Expense>, dayStart: string -> int, dayEnd: string -> int): seq<Expense>
      reads this
    {
      VisibleRows(Processed(expenses, filters.searchTerm, filters.categoryFilter, filters.sortBy,
                            filters.startDate, filters.endDate, dayStart, dayEnd), page, rowsPerPage)
    }

    /** `handleChangePage`. */
    method ChangePage(newPage: nat)
      modifies this
      ensures page == newPage
      ensures rowsPerPage == old(rowsPerPage) && filters == old(filters)
    {
      page := newPage;
    }

    /** `handleChangeRowsPerPage`: a new page size goes back to the first page. */
    method ChangeRowsPerPage(value: nat)
      modifies this
      ensures rowsPerPage == value && page == 0
      ensures filters == old(filters)
      ensures forall xs: seq<Expense>, ds: string -> int, de: string -> int ::
                Rows(xs, ds, de) == VisibleRows(Processed(xs, filters.searchTerm, filters.categoryFilter,
                  filters.sortBy, filters.startDate, filters.endDate, ds, de), 0, value)
    {
      rowsPerPage := value;
      page := 0;
    }

    /** `clearDateFilter`. */
    method ClearDateFilter()
      modifies this
      ensures filters == old(filters).(startDate := "", endDate := "")
      ensures page == old(page) && rowsPerPage == old(rowsPerPage)
    {
      filters := filters.(startDate := "", endDate := "");
    }

    /** The "Clear Filters" button: no search, category `'All'`, no dates; the
        sort order and the page stay. */
    method ClearFilters()
      modifies this
      ensures filters == Filters("", "All", old(filters).sortBy, "", "")
      ensures page == old(page) && rowsPerPage == old(rowsPerPage)
    {
      filters := filters.(searchTerm := "", categoryFilter := "All");
      ClearDateFilter();
    }
  }

  /** The first page is the head of the list. */
  lemma FirstPage<T>(data: seq<T>, rowsPerPage: nat)
    ensures VisibleRows(data, 0, rowsPerPage) == data[..Min(rowsPerPage, |data|)]
  {
  }
}
