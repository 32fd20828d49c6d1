/** The transactions list page (app/admin/transactions/page.tsx): the sortable,
    filtered list fetched from the server, its pagination (8 cards a page) and
    the payment-method names. */
module Transactions {
  import opened Wrappers
  import opened TextUtil
  import opened Pagination
  import opened Sorting
  import opened Notices

  /** A transaction as the page reads it; the two dates are already the
      millisecond values `new Date(..).getTime()` gives for them. */
  datatype Transaction = Transaction(
    id: int,
    transactionId: string,
    clientName: string,
    transactionDate: int,
    dueDate: int,
    totalAmount: real,
    status: string)

  const ItemsPerPage: nat := 8

  /** The comparator's `comparison` for one sort field: text fields compare
      their strings, dates and amounts subtract, any other field gives 0. */
  function Comparison(a: Transaction, b: Transaction, field: string): real {
    match field
    case "transactionId" => Compare(a.transactionId, b.transactionId) as real
    case "clientName" => Compare(a.clientName, b.clientName) as real
    case "transactionDate" => (a.transactionDate - b.transactionDate) as real
    case "dueDate" => (a.dueDate - b.dueDate) as real
    case "totalAmount" => a.totalAmount - b.totalAmount
    case "status" => Compare(a.status, b.status) as real
    case _ => 0.0
  }

  /** `sortDirection === "asc" ? comparison : -comparison` */
  function Directed(comparison: real, direction: Direction): real {
    if direction == Asc then comparison else -comparison
  }

  /** `a` may precede `b` in the sorted list: the comparator's result is not positive. */
  function Before(field: string, direction: Direction): (Transaction, Transaction) -> bool {
    (a: Transaction, b: Transaction) => Directed(Comparison(a, b, field), direction) <= 0.0
  }

  lemma ComparisonAntisymmetric(a: Transaction, b: Transaction, field: string)
    ensures Comparison(a, b, field) == -Comparison(b, a, field)
  {
    CompareAntisymmetric(a.transactionId, b.transactionId);
    CompareAntisymmetric(a.clientName, b.clientName);
    CompareAntisymmetric(a.status, b.status);
  }

  lemma ComparisonTransitive(a: Transaction, b: Transaction, c: Transaction, field: string)
    requires Comparison(a, b, field) <= 0.0 && Comparison(b, c, field) <= 0.0
    ensures Comparison(a, c, field) <= 0.0
  {
    match field
    case "transactionId" => CompareTransitive(a.transactionId, b.transactionId, c.transactionId);
    case "clientName" => CompareTransitive(a.clientName, b.clientName, c.clientName);
    case "status" => CompareTransitive(a.status, b.status, c.status);
    case _ =>
  }

  /** Every field and direction gives a comparator that orders all transactions
      consistently, so the list can be sorted by it. */
  lemma BeforeIsPreorder(field: string, direction: Direction)
    ensures TotalPreorder(Before(field, direction))
  {
    var le := Before(field, direction);
    forall x, y
      ensures le(x, y) || le(y, x)
    {
      ComparisonAntisymmetric(x, y, field);
    }
    forall x, y, z | le(x, y) && le(y, z)
      ensures le(x, z)
    {
      ComparisonAntisymmetric(x, y, field);
      ComparisonAntisymmetric(y, z, field);
      ComparisonAntisymmetric(x, z, field);
      if direction == Asc {
        ComparisonTransitive(x, y, z, field);
      } else {
        ComparisonTransitive(z, y, x, field);
      }
    }
  }

  /** Reversing the direction reverses the order: `a` may precede `b` descending
      exactly when `b` may precede `a` ascending. */
  lemma DescendingIsReversed(a: Transaction, b: Transaction, field: string)
    ensures Before(field, Desc)(a, b) <==> Before(field, Asc)(b, a)
  {
    ComparisonAntisymmetric(a, b, field);
  }

  /** In a list sorted ascending, earlier cards never have a larger key: text
      fields by string order, dates by timestamp, amounts numerically. */
  lemma AscendingByKey(s: seq<Transaction>, field: string, i: int, j: int)
    requires SortedBy(s, Before(field, Asc)) && 0 <= i < j < |s|
    ensures field == "transactionId" ==> Compare(s[i].transactionId, s[j].transactionId) <= 0
    ensures field == "clientName" ==> Compare(s[i].clientName, s[j].clientName) <= 0
    ensures field == "transactionDate" ==> s[i].transactionDate <= s[j].transactionDate
    ensures field == "dueDate" ==> s[i].dueDate <= s[j].dueDate
    ensures field == "totalAmount" ==> s[i].totalAmount <= s[j].totalAmount
    ensures field == "status" ==> Compare(s[i].status, s[j].status) <= 0
  {
    assert Before(field, Asc)(s[i], s[j]);
  }

  /** An unknown sort field puts every pair in order, so sorting by it keeps the
      list as it is. */
  lemma UnknownFieldKeepsOrder(s: seq<Transaction>, field: string, direction: Direction)
    requires field !in {"transactionId", "clientName", "transactionDate", "dueDate", "totalAmount", "status"}
    ensures SortedBy(s, Before(field, direction))
  {
  }

  /** `sortField` is a string or null; only a non-empty string sorts. */
  predicate SortsBy(sortField: Option<string>) {
    sortField.Some? && sortField.value != ""
  }

  /** What `filterTransactions` came back with: a success carrying an array, any
      other answer (with its `error` text, "" when it has none), or an exception. */
  datatype FilterOutcome = Listed(transactions: seq<Transaction>) | Refused(error: string) | Threw

  const PaymentMethods: map<string, string> := map[
    "method-001" := "Credit Card",
    "method-002" := "Bank Transfer",
    "method-003" := "PayPal",
    "method-004" := "Cash",
    "method-005" := "Check"]

  /** `getPaymentMethodName`: the name of one of the five known methods, "N/A"
      for a missing or unknown one. */
  function PaymentMethodName(methodId: string): (r: string)
    ensures methodId in PaymentMethods ==> r == PaymentMethods[methodId]
    ensures methodId !in PaymentMethods ==> r == "N/A"
    ensures r == "N/A" <==> methodId !in PaymentMethods
  {
    if methodId == "" then "N/A"
    else if methodId in PaymentMethods then PaymentMethods[methodId]
    else "N/A"
  }

  /** The state of the transactions page. */
  class TransactionsView {
    var transactions: seq<Transaction>
    var filteredTransactions: seq<Transaction>
    var sortField: Option<string>
    var sortDirection: Direction
    var currentPage: int
    var loading: bool

    ghost predicate Valid()
      reads this
    {
      currentPage >= 1
    }

    /** The page as first rendered: nothing listed, no sort field, descending,
        first page, still loading. */
    constructor ()
      ensures Valid()
      ensures transactions == [] && filteredTransactions == []
      ensures sortField == None && sortDirection == Desc
      ensures currentPage == 1 && loading
    {
      transactions := [];
      filteredTransactions := [];
      sortField := None;
      sortDirection := Desc;
      currentPage := 1;
      loading := true;
    }

    /** `fetchTransactions` inside the first load, and the `finally` that ends the
        loading state: a success lists every transaction, anything else leaves the
        lists alone and returns the toast text. */
    method ReceiveTransactions(outcome: FilterOutcome) returns (toast: Option<string>)
      requires Valid()
      modifies this
      ensures Valid() && !loading
      ensures outcome.Listed? ==>
                transactions == outcome.transactions && filteredTransactions == outcome.transactions
                && toast == None
      ensures outcome.Refused? ==>
                transactions == old(transactions) && filteredTransactions == old(filteredTransactions)
                && toast == Some(ToastText(outcome.error, "Failed to fetch transactions"))
      ensures outcome.Threw? ==>
                transactions == old(transactions) && filteredTransactions == old(filteredTransactions)
                && toast == Some("An unexpected error occurred while fetching transactions")
      ensures sortField == old(sortField) && sortDirection == old(sortDirection)
      ensures currentPage == old(currentPage)
    {
      toast := None;
      loading := false;
      match outcome
      case Listed(list) =>
        transactions := list;
        filteredTransactions := list;
      case Refused(error) =>
        toast := Some(ToastText(error, "Failed to fetch transactions"));
      case Threw =>
        toast := Some("An unexpected error occurred while fetching transactions");
    }

    /** `handleSort`: the same field flips the direction, another field becomes the
        sort field in ascending order. */
    method HandleSort(field: string)
      requires Valid()
      modifies this`sortField, this`sortDirection
      ensures Valid()
      ensures sortField == Some(field)
      ensures old(sortField) == Some(field) ==> sortDirection != old(sortDirection)
      ensures old(sortField) != Some(field) ==> sortDirection == Asc
    {
      var toggled := ToggleSort(sortField, sortDirection, Some(field));
      sortField, sortDirection := toggled.0, toggled.1;
    }

    /** The filter effect (`applyFilters`), which runs only once the page has
        loaded. A listed answer is copied, sorted by the current field and
        direction when a sort field is set, listed, and the first page shown; any
        other outcome empties the list, keeps the page and returns the toast text. */
    method ApplyFilters(outcome: FilterOutcome) returns (toast: Option<string>)
      requires Valid()
      modifies this
      ensures Valid()
      ensures transactions == old(transactions) && loading == old(loading)
      ensures sortField == old(sortField) && sortDirection == old(sortDirection)
      ensures old(loading) ==>
                filteredTransactions == old(filteredTransactions) && currentPage == old(currentPage)
                && toast == None
      ensures !old(loading) && outcome.Listed? ==>
                && multiset(filteredTransactions) == multiset(outcome.transactions)
                && (SortsBy(sortField) ==> SortedBy(filteredTransactions, Before(sortField.value, sortDirection)))
                && ((SortsBy(sortField) && SortedBy(outcome.transactions, Before(sortField.value, sortDirection)))
                    ==> filteredTransactions == outcome.transactions)
                && (!SortsBy(sortField) ==> filteredTransactions == outcome.transactions)
                && currentPage == 1 && toast == None
      ensures !old(loading) && outcome.Refused? ==>
                filteredTransactions == [] && currentPage == old(currentPage)
                && toast == Some(ToastText(outcome.error, "Failed to filter transactions"))
      ensures !old(loading) && outcome.Threw? ==>
                filteredTransactions == [] && currentPage == old(currentPage)
                && toast == Some("An unexpected error occurred while filtering transactions")
    {
      toast := None;
      if loading {
        return;
      }
      match outcome
      case Listed(list) =>
        var filtered := new Transaction[|list|](i requires 0 <= i < |list| => list[i]);
        assert filtered[..] == list;
        if SortsBy(sortField) && filtered.Length > 0 {
          BeforeIsPreorder(sortField.value, sortDirection);
          SortInPlace(filtered, Before(sortField.value, sortDirection));
        }
        filteredTransactions := filtered[..];
        currentPage := 1;
      case Refused(error) =>
        filteredTransactions := [];
        toast := Some(ToastText(error, "Failed to filter transactions"));
      case Threw =>
        filteredTransactions := [];
        toast := Some("An unexpected error occurred while filtering transactions");
    }

    /** A page button or the previous / next arrows. */
    method GoToPage(page: int)
      requires Valid() && page >= 1
      modifies this`currentPage
      ensures Valid() && currentPage == page
    {
      currentPage := page;
    }

    /** `currentTransactions`: the cards on the current page. */
    function CurrentTransactions(): (r: seq<Transaction>)
      reads this
      requires Valid()
      ensures |r| <= ItemsPerPage
      ensures |r| == Min(currentPage * ItemsPerPage, |filteredTransactions|) - Min((currentPage - 1) * ItemsPerPage, |filteredTransactions|)
      ensures |r| > 0 ==> (currentPage - 1) * ItemsPerPage + |r| <= |filteredTransactions|
      ensures forall k :: 0 <= k < |r| ==> r[k] == filteredTransactions[(currentPage - 1) * ItemsPerPage + k]
    {
      PageSlice(filteredTransactions, currentPage, ItemsPerPage)
    }

    /** `totalPages` */
    function PageCount(): (n: nat)
      reads this
      ensures |filteredTransactions| <= n * ItemsPerPage
      ensures |filteredTransactions| > 0 ==> (n - 1) * ItemsPerPage < |filteredTransactions|
      ensures |filteredTransactions| == 0 ==> n == 0
    {
      TotalPages(|filteredTransactions|, ItemsPerPage)
    }
  }
}
