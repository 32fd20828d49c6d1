/** Sorting as the list pages use it: `array.sort(comparator)` on a copy of the
    fetched list, with a comparator that reads one field and is negated for a
    descending order, plus the column-header toggle that picks field and direction. */
module Sorting {

  /** `le(x, y)` says `x` may come before `y`: a comparator result `<= 0`. */
  ghost predicate TotalPreorder<T(!new)>(le: (T, T) -> bool) {
    && (forall x, y :: le(x, y) || le(y, x))
    && (forall x, y, z :: le(x, y) && le(y, z) ==> le(x, z))
  }

  ghost predicate SortedBy<T>(s: seq<T>, le: (T, T) -> bool) {
    forall i, j :: 0 <= i < j < |s| ==> le(s[i], s[j])
  }

  /** The prefix `s[..n]` is ordered by `le`. */
  ghost predicate SortedUpTo<T>(s: seq<T>, n: int, le: (T, T) -> bool) {
    forall p, q :: 0 <= p < q < n && q < |s| ==> le(s[p], s[q])
  }

  /** `a.sort(cmp)` with `le(x, y) == (cmp(x, y) <= 0)`, as an insertion sort.
      The result is a permutation of the input ordered by `le`; an input that is
      already ordered is left exactly as it was. */
  method SortInPlace<T(!new)>(a: array<T>, le: (T, T) -> bool)
    requires TotalPreorder(le)
    modifies a
    ensures SortedBy(a[..], le)
    ensures multiset(a[..]) == multiset(old(a[..]))
    ensures SortedBy(old(a[..]), le) ==> a[..] == old(a[..])
  {
    if a.Length == 0 {
      return;
    }
    var i := 1;
    while i < a.Length
      invariant 1 <= i <= a.Length
      invariant SortedUpTo(a[..], i, le)
      invariant multiset(a[..]) == multiset(old(a[..]))
      invariant SortedBy(old(a[..]), le) ==> a[..] == old(a[..])
    {
      ghost var before := a[..];
      if SortedBy(old(a[..]), le) {
        assert le(before[i - 1], before[i]);
      }
      InsertAt(a, i, le);
      i := i + 1;
    }
  }

  /** One insertion step: `a[i]` sinks into the ordered prefix `a[..i]`. It moves
      nothing when it is already in place behind `a[i - 1]`. */
  method InsertAt<T(!new)>(a: array<T>, i: int, le: (T, T) -> bool)
    requires TotalPreorder(le)
    requires 1 <= i < a.Length
    requires SortedUpTo(a[..], i, le)
    modifies a
    ensures SortedUpTo(a[..], i + 1, le)
    ensures multiset(a[..]) == multiset(old(a[..]))
    ensures le(old(a[i - 1]), old(a[i])) ==> a[..] == old(a[..])
  {
    if le(a[i - 1], a[i]) {
      InsertedSorted(a[..], i, i, le);
      return;
    }
    var j := i;
    while j > 0 && !le(a[j - 1], a[j])
      invariant 0 <= j <= i
      invariant forall p, q :: 0 <= p < q <= i && p != j && q != j ==> le(a[p], a[q])
      invariant forall q :: j < q <= i ==> le(a[j], a[q])
      invariant multiset(a[..]) == multiset(old(a[..]))
    {
      ghost var prev := a[..];
      var x, y := a[j], a[j - 1];
      assert le(x, y);
      a[j - 1], a[j] := x, y;
      assert a[..] == prev[j - 1 := x][j := y];
      j := j - 1;
    }
    InsertedSorted(a[..], j, i, le);
  }

  /** Once the sinking element `s[j]` is behind an element it may follow, the
      prefix up to `i` is ordered again. */
  lemma InsertedSorted<T(!new)>(s: seq<T>, j: int, i: int, le: (T, T) -> bool)
    requires TotalPreorder(le)
    requires 0 <= j <= i < |s|
    requires forall p, q :: 0 <= p < q <= i && p != j && q != j ==> le(s[p], s[q])
    requires forall q :: j < q <= i ==> le(s[j], s[q])
    requires j > 0 ==> le(s[j - 1], s[j])
    ensures SortedUpTo(s, i + 1, le)
  {
    forall p, q | 0 <= p < q < i + 1 && q < |s|
      ensures le(s[p], s[q])
    {
      if q == j && p < j - 1 {
        assert le(s[p], s[j - 1]);
      }
    }
  }

  datatype Direction = Asc | Desc

  /** The clicked column header's effect on `(sortField, sortDirection)`: the same
      field flips the direction, another field becomes the sort field, ascending. */
  function ToggleSort<F(==)>(field: F, direction: Direction, clicked: F): (r: (F, Direction))
    ensures r.0 == clicked
    ensures clicked == field ==> r.1 != direction
    ensures clicked != field ==> r.1 == Asc
  {
    if clicked == field then (field, if direction == Asc then Desc else Asc)
    else (clicked, Asc)
  }

  /** Clicking the current sort field twice restores the direction. */
  lemma ToggleTwice<F>(field: F, direction: Direction)
    ensures ToggleSort(field, ToggleSort(field, direction, field).1, field) == (field, direction)
  {
  }
}
