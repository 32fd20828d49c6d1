/** Client-side pagination shared by the list pages: page `p` (counted from 1)
    shows `items.slice((p - 1) * perPage, p * perPage)` and the page count is
    `Math.ceil(count / perPage)`. */
module Pagination {

  function Min(a: int, b: int): int {
    if a <= b then a else b
  }

  /** `Math.ceil(count / perPage)` */
  function TotalPages(count: nat, perPage: nat): (n: nat)
    requires perPage > 0
    ensures count <= n * perPage
    ensures count > 0 ==> (n - 1) * perPage < count
    ensures count == 0 ==> n == 0
  {
    var n := (count + perPage - 1) / perPage;
    CeilBounds(count, perPage, n);
    n
  }

  lemma CeilBounds(count: nat, perPage: nat, n: nat)
    requires perPage > 0 && n == (count + perPage - 1) / perPage
    ensures count <= n * perPage
    ensures count > 0 ==> (n - 1) * perPage < count
    ensures count == 0 ==> n == 0
  {
    var r := (count + perPage - 1) % perPage;
    assert count + perPage - 1 == n * perPage + r;
    assert (n - 1) * perPage == n * perPage - perPage;
  }

  /** `items.slice((page - 1) * perPage, page * perPage)`; JavaScript clips both ends to the list. */
  function PageSlice<T>(items: seq<T>, page: int, perPage: nat): (r: seq<T>)
    requires page >= 1 && perPage > 0
    ensures |r| <= perPage
    ensures |r| == Min(page * perPage, |items|) - Min((page - 1) * perPage, |items|)
    ensures |r| > 0 ==> 0 <= (page - 1) * perPage && (page - 1) * perPage + |r| <= |items|
    ensures forall k :: 0 <= k < |r| ==> r[k] == items[(page - 1) * perPage + k]
  {
    var first := Min((page - 1) * perPage, |items|);
    var last := Min(page * perPage, |items|);
    assert page * perPage == (page - 1) * perPage + perPage;
    items[first..last]
  }

  /** The "to" figure of "Showing from .. to .. of ..": `Math.min(page * perPage, count)`. */
  function ShownTo(page: int, perPage: nat, count: nat): int {
    Min(page * perPage, count)
  }

  /** Every item is shown exactly once: item `i` sits on page `i / perPage + 1`, at
      position `i % perPage`, and that page is one of the `TotalPages` pages. */
  lemma ItemPage<T>(items: seq<T>, perPage: nat, i: nat)
    requires perPage > 0 && i < |items|
    ensures 1 <= i / perPage + 1 <= TotalPages(|items|, perPage)
    ensures i % perPage < |PageSlice(items, i / perPage + 1, perPage)|
    ensures PageSlice(items, i / perPage + 1, perPage)[i % perPage] == items[i]
  {
    var q, r := i / perPage, i % perPage;
    var n := TotalPages(|items|, perPage);
    DivMod(i, perPage);
    assert q * perPage <= i;
    if q >= n {
      MulMono(n, q, perPage);
    }
    assert (q + 1) * perPage == q * perPage + perPage;
  }

  lemma DivMod(i: nat, k: nat)
    requires k > 0
    ensures i == (i / k) * k + i % k && 0 <= i % k < k
  {
  }

  lemma MulMono(a: nat, b: nat, k: nat)
    requires a <= b
    ensures a * k <= b * k
  {
  }

  /** The page range shown by the "Showing" line has as many items as the page itself. */
  lemma ShownRange<T>(items: seq<T>, page: int, perPage: nat)
    requires page >= 1 && perPage > 0 && (page - 1) * perPage < |items|
    ensures ShownTo(page, perPage, |items|) - (page - 1) * perPage == |PageSlice(items, page, perPage)|
  {
  }
}
