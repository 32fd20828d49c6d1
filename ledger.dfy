/** The ledger page (app/admin/ledger/page.tsx): totals over the listed entries,
    the year / month / text filter applied to the fetched entries, the
    five-year default summary and the page arithmetic. */
module Ledger {
  import opened Wrappers
  import opened TextUtil
  import opened Seqs
  import opened Pagination

  /** A fetched ledger entry; `year` and `month` (1-based) are the calendar date of
      `entry_date`, and an absent client or staff name is "". */
  datatype LedgerEntry = LedgerEntry(
    id: int,
    year: int,
    month: int,
    entryType: string,
    amount: real,
    description: string,
    referenceId: string,
    clientName: string,
    staffName: string)

  datatype Totals = Totals(income: real, expense: real, profit: real)

  datatype YearlySummary = YearlySummary(year: int, income: real, expense: real, profit: real)

  const ItemsPerPage: nat := 6

  function IsIncome(e: LedgerEntry): bool {
    e.entryType == "income"
  }

  /** Every entry whose type is not "income" counts as an expense. */
  function IsExpense(e: LedgerEntry): bool {
    e.entryType != "income"
  }

  function AmountSum(entries: seq<LedgerEntry>): real
    decreases |entries|
  {
    if entries == [] then 0.0 else entries[0].amount + AmountSum(entries[1..])
  }

  /** The sum of the amounts of the income entries. */
  function IncomeSum(entries: seq<LedgerEntry>): real {
    AmountSum(Filter(entries, IsIncome))
  }

  /** The sum of the amounts of all other entries. */
  function ExpenseSum(entries: seq<LedgerEntry>): real {
    AmountSum(Filter(entries, IsExpense))
  }

  lemma {:induction false} AmountSumAppend(a: seq<LedgerEntry>, b: seq<LedgerEntry>)
    ensures AmountSum(a + b) == AmountSum(a) + AmountSum(b)
    decreases |a|
  {
    if a == [] {
      assert a + b == b;
    } else {
      AmountSumAppend(a[1..], b);
      assert (a + b)[1..] == a[1..] + b;
    }
  }

  /** Adding one entry at the end adds its amount to exactly one of the two sums. */
  lemma SumsStep(prefix: seq<LedgerEntry>, e: LedgerEntry)
    ensures IncomeSum(prefix + [e]) == IncomeSum(prefix) + (if IsIncome(e) then e.amount else 0.0)
    ensures ExpenseSum(prefix + [e]) == ExpenseSum(prefix) + (if IsIncome(e) then 0.0 else e.amount)
  {
    FilterAppend(prefix, [e], IsIncome);
    FilterAppend(prefix, [e], IsExpense);
    AmountSumAppend(Filter(prefix, IsIncome), Filter([e], IsIncome));
    AmountSumAppend(Filter(prefix, IsExpense), Filter([e], IsExpense));
    assert AmountSum([e]) == e.amount;
  }

  /** `calculateTotals`: one pass over the entries adding each amount to income or
      to expense; profit is income minus expense. */
  method CalculateTotals(entries: seq<LedgerEntry>) returns (t: Totals)
    ensures t.income == IncomeSum(entries)
    ensures t.expense == ExpenseSum(entries)
    ensures t.profit == t.income - t.expense
  {
    var totalIncome, totalExpense := 0.0, 0.0;
    var i := 0;
    while i < |entries|
      invariant 0 <= i <= |entries|
      invariant totalIncome == IncomeSum(entries[..i])
      invariant totalExpense == ExpenseSum(entries[..i])
    {
      var e := entries[i];
      assert entries[..i + 1] == entries[..i] + [e];
      SumsStep(entries[..i], e);
      if e.entryType == "income" {
        totalIncome := totalIncome + e.amount;
      } else {
        totalExpense := totalExpense + e.amount;
      }
      i := i + 1;
    }
    assert entries[..i] == entries;
    t := Totals(totalIncome, totalExpense, totalIncome - totalExpense);
  }

  /** Income and expense split the entries: together they are the sum of all amounts. */
  lemma {:induction false} IncomePlusExpense(entries: seq<LedgerEntry>)
    ensures IncomeSum(entries) + ExpenseSum(entries) == AmountSum(entries)
    decreases |entries|
  {
    if entries != [] {
      var e, rest := entries[0], entries[1..];
      IncomePlusExpense(rest);
      assert Filter(entries, IsIncome) == (if IsIncome(e) then [e] else []) + Filter(rest, IsIncome);
      assert Filter(entries, IsExpense) == (if IsExpense(e) then [e] else []) + Filter(rest, IsExpense);
      AmountSumAppend(if IsIncome(e) then [e] else [], Filter(rest, IsIncome));
      AmountSumAppend(if IsExpense(e) then [e] else [], Filter(rest, IsExpense));
      assert AmountSum([e]) == e.amount;
    }
  }

  function InYear(year: int): LedgerEntry -> bool {
    (e: LedgerEntry) => e.year == year
  }

  function InMonth(month: int): LedgerEntry -> bool {
    (e: LedgerEntry) => e.month == month
  }

  /** The lower-cased query occurs in the lower-cased description, client name,
      staff name or reference id (an empty name never matches). */
  predicate SearchHit(e: LedgerEntry, query: string) {
    var q := Lower(query);
    || Includes(Lower(e.description), q)
    || (e.clientName != "" && Includes(Lower(e.clientName), q))
    || (e.staffName != "" && Includes(Lower(e.staffName), q))
    || Includes(Lower(e.referenceId), q)
  }

  function MatchesSearch(query: string): LedgerEntry -> bool {
    (e: LedgerEntry) => SearchHit(e, query)
  }

  /** `applyFilters`: keep the entries of the selected year, then of the selected
      month, then, unless the query is blank, those the query matches. */
  function FilterEntries(all: seq<LedgerEntry>, year: int, month: int, query: string): seq<LedgerEntry> {
    var byYear := Filter(all, InYear(year));
    var byMonth := Filter(byYear, InMonth(month));
    if Trim(query) != "" then Filter(byMonth, MatchesSearch(query)) else byMonth
  }

  /** The three filters as one predicate. */
  function Criteria(year: int, month: int, query: string): LedgerEntry -> bool {
    if Trim(query) != "" then And(And(InYear(year), InMonth(month)), MatchesSearch(query))
    else And(InYear(year), InMonth(month))
  }

  lemma FilterEntriesIsOneFilter(all: seq<LedgerEntry>, year: int, month: int, query: string)
    ensures FilterEntries(all, year, month, query) == Filter(all, Criteria(year, month, query))
  {
    FilterFilter(all, InYear(year), InMonth(month));
    if Trim(query) != "" {
      FilterFilter(all, And(InYear(year), InMonth(month)), MatchesSearch(query));
    }
  }

  /** `applyFilters` keeps an order-preserving subsequence of the fetched entries. */
  lemma FilterEntriesSubsequence(all: seq<LedgerEntry>, year: int, month: int, query: string)
    ensures IsSubsequence(FilterEntries(all, year, month, query), all)
  {
    FilterEntriesIsOneFilter(all, year, month, query);
    FilterIsSubsequence(all, Criteria(year, month, query));
  }

  /** `applyFilters` keeps exactly the fetched entries of the selected year and
      month that the query matches (every such entry, when the query is blank). */
  lemma FilterEntriesMembers(all: seq<LedgerEntry>, year: int, month: int, query: string)
    ensures forall e :: e in FilterEntries(all, year, month, query) <==>
      e in all && e.year == year && e.month == month && (IsBlank(query) || SearchHit(e, query))
  {
    FilterEntriesIsOneFilter(all, year, month, query);
    TrimEmptyIffBlank(query);
    FilterMembers(all, Criteria(year, month, query));
  }

  /** An entry is listed when it has the selected year and month and the query
      is blank or matches it. */
  predicate Selected(e: LedgerEntry, year: int, month: int, query: string) {
    e.year == year && e.month == month && (IsBlank(query) || SearchHit(e, query))
  }

  /** `applyFilters` keeps every copy of a selected entry and no copy of any
      other: the listed entries are counted exactly. */
  lemma FilterEntriesCounts(all: seq<LedgerEntry>, year: int, month: int, query: string)
    ensures forall e ::
      multiset(FilterEntries(all, year, month, query))[e] == if Selected(e, year, month, query) then multiset(all)[e] else 0
  {
    FilterEntriesIsOneFilter(all, year, month, query);
    TrimEmptyIffBlank(query);
    assert forall e :: Criteria(year, month, query)(e) == Selected(e, year, month, query);
    FilterMultiset(all, Criteria(year, month, query));
  }

  /** Applying the filter to its own result changes nothing. */
  lemma FilterEntriesIdempotent(all: seq<LedgerEntry>, year: int, month: int, query: string)
    ensures FilterEntries(FilterEntries(all, year, month, query), year, month, query)
         == FilterEntries(all, year, month, query)
  {
    var once := FilterEntries(all, year, month, query);
    FilterEntriesIsOneFilter(all, year, month, query);
    FilterEntriesIsOneFilter(once, year, month, query);
    FilterIdempotent(all, Criteria(year, month, query));
  }

  /** A blank query filters by year and month only. */
  lemma BlankQueryIgnored(all: seq<LedgerEntry>, year: int, month: int, query: string)
    requires IsBlank(query)
    ensures FilterEntries(all, year, month, query) == FilterEntries(all, year, month, "")
  {
    TrimEmptyIffBlank(query);
  }

  /** The summary shown before the server answers: the five years ending with the
      current one, ascending, all figures zero. */
  function DefaultYearlySummary(currentYear: int): (r: seq<YearlySummary>)
    ensures |r| == 5 && r[4].year == currentYear
    ensures forall i :: 0 <= i < 4 ==> r[i + 1].year == r[i].year + 1
    ensures forall i :: 0 <= i < 5 ==> r[i].income == 0.0 && r[i].expense == 0.0 && r[i].profit == 0.0
  {
    seq(5, i requires 0 <= i < 5 => YearlySummary(currentYear - 4 + i, 0.0, 0.0, 0.0))
  }

  /** The state of the ledger page. */
  class LedgerView {
    const currentYear: int
    const currentMonth: int
    var allEntries: seq<LedgerEntry>
    var filteredEntries: seq<LedgerEntry>
    var yearlySummary: seq<YearlySummary>
    var monthTotals: Totals
    var selectedYear: int
    var selectedMonth: int
    var searchQuery: string
    var currentPage: int

    /** The listed entries are always drawn from the fetched ones, the page number
        is at least 1, and the year selector always has a summary to show. */
    ghost predicate Valid()
      reads this
    {
      && currentPage >= 1
      && IsSubsequence(filteredEntries, allEntries)
      && |yearlySummary| > 0
    }

    /** The page as first rendered, for the clock's current year and month. */
    constructor (currentYear: int, currentMonth: int)
      ensures Valid()
      ensures this.currentYear == currentYear && this.currentMonth == currentMonth
      ensures allEntries == [] && filteredEntries == []
      ensures yearlySummary == DefaultYearlySummary(currentYear)
      ensures monthTotals == Totals(0.0, 0.0, 0.0)
      ensures selectedYear == currentYear && selectedMonth == currentMonth
      ensures searchQuery == "" && currentPage == 1
    {
      this.currentYear := currentYear;
      this.currentMonth := currentMonth;
      allEntries := [];
      filteredEntries := [];
      yearlySummary := DefaultYearlySummary(currentYear);
      monthTotals := Totals(0.0, 0.0, 0.0);
      selectedYear := currentYear;
      selectedMonth := currentMonth;
      searchQuery := "";
      currentPage := 1;
      SubsequenceOfSelf<LedgerEntry>([]);
    }

    /** `fetchCurrentMonthData`: on success the month totals and the entries are
        replaced and every entry is listed; on failure nothing changes. */
    method ReceiveCurrentMonth(response: Result<(Totals, seq<LedgerEntry>), string>)
      requires Valid()
      modifies this
      ensures Valid()
      ensures response.Success? ==>
                monthTotals == response.value.0
                && allEntries == response.value.1 && filteredEntries == response.value.1
      ensures response.Failure? ==>
                monthTotals == old(monthTotals)
                && allEntries == old(allEntries) && filteredEntries == old(filteredEntries)
      ensures yearlySummary == old(yearlySummary) && currentPage == old(currentPage)
      ensures selectedYear == old(selectedYear) && selectedMonth == old(selectedMonth)
      ensures searchQuery == old(searchQuery)
    {
      if response.Success? {
        monthTotals := response.value.0;
        allEntries := response.value.1;
        filteredEntries := response.value.1;
        SubsequenceOfSelf(allEntries);
      }
    }

    /** `fetchYearlySummary`: the summary is replaced only by a successful,
        non-empty answer. */
    method ReceiveYearlySummary(response: Result<seq<YearlySummary>, string>)
      requires Valid()
      modifies this
      ensures Valid()
      ensures yearlySummary ==
        if response.Success? && |response.value| > 0 then response.value else old(yearlySummary)
      ensures allEntries == old(allEntries) && filteredEntries == old(filteredEntries)
      ensures monthTotals == old(monthTotals) && currentPage == old(currentPage)
      ensures selectedYear == old(selectedYear) && selectedMonth == old(selectedMonth)
      ensures searchQuery == old(searchQuery)
    {
      if response.Success? && |response.value| > 0 {
        yearlySummary := response.value;
      }
    }

    /** `applyFilters`: list the filtered entries and go back to the first page. */
    method ApplyFilters()
      requires Valid()
      modifies this
      ensures Valid()
      ensures filteredEntries == FilterEntries(allEntries, selectedYear, selectedMonth, searchQuery)
      ensures currentPage == 1
      ensures allEntries == old(allEntries) && yearlySummary == old(yearlySummary)
      ensures monthTotals == old(monthTotals)
      ensures selectedYear == old(selectedYear) && selectedMonth == old(selectedMonth)
      ensures searchQuery == old(searchQuery)
    {
      var kept := FilterEntries(allEntries, selectedYear, selectedMonth, searchQuery);
      FilterEntriesSubsequence(allEntries, selectedYear, selectedMonth, searchQuery);
      filteredEntries := kept;
      currentPage := 1;
    }

    /** `clearFilters`: back to the current year and month, no query, first page. */
    method ClearFilters()
      requires Valid()
      modifies this
      ensures Valid()
      ensures selectedYear == currentYear && selectedMonth == currentMonth
      ensures searchQuery == "" && currentPage == 1
      ensures allEntries == old(allEntries) && filteredEntries == old(filteredEntries)
      ensures yearlySummary == old(yearlySummary) && monthTotals == old(monthTotals)
    {
      selectedYear := currentYear;
      selectedMonth := currentMonth;
      searchQuery := "";
      currentPage := 1;
    }

    /** A page button or the previous / next arrows. */
    method GoToPage(page: int)
      requires Valid() && page >= 1
      modifies this`currentPage
      ensures Valid() && currentPage == page
    {
      currentPage := page;
    }

    /** The entries on the current page. */
    function CurrentEntries(): (r: seq<LedgerEntry>)
      reads this
      requires Valid()
      ensures |r| <= ItemsPerPage
      ensures |r| == Min(currentPage * ItemsPerPage, |filteredEntries|) - Min((currentPage - 1) * ItemsPerPage, |filteredEntries|)
      ensures |r| > 0 ==> (currentPage - 1) * ItemsPerPage + |r| <= |filteredEntries|
      ensures forall k :: 0 <= k < |r| ==> r[k] == filteredEntries[(currentPage - 1) * ItemsPerPage + k]
    {
      PageSlice(filteredEntries, currentPage, ItemsPerPage)
    }

    /** The number of page buttons. */
    function PageCount(): (n: nat)
      reads this
      ensures |filteredEntries| <= n * ItemsPerPage
      ensures |filteredEntries| > 0 ==> (n - 1) * ItemsPerPage < |filteredEntries|
      ensures |filteredEntries| == 0 ==> n == 0
    {
      TotalPages(|filteredEntries|, ItemsPerPage)
    }
  }
}
