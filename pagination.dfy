/**
 * `paginate` of app.py: the `page` query argument selects a run of at most
 * `ItemsPerPage` consecutive items of the formatted query result.
 */
module Pagination {
  import opened Wrappers

  const ItemsPerPage := 10

  function Min(a: int, b: int): int {
    if a <= b then a else b
  }

  /** A Python slice bound: a negative bound counts from the end, and every bound is clamped to `[0, n]`. */
  function SliceBound(i: int, n: nat): (k: nat)
    ensures k <= n
    ensures 0 <= i ==> k == Min(i, n)
    ensures i < 0 ==> k == (if i + n < 0 then 0 else i + n)
  {
    if i < 0 then (if i + n < 0 then 0 else i + n) else if i > n then n else i
  }

  /** Python's `xs[i:j]`. */
  function PySlice<T>(xs: seq<T>, i: int, j: int): (r: seq<T>)
    ensures |r| <= |xs|
    ensures |r| == (if SliceBound(i, |xs|) < SliceBound(j, |xs|) then SliceBound(j, |xs|) - SliceBound(i, |xs|) else 0)
    ensures forall k :: 0 <= k < |r| ==> r[k] == xs[SliceBound(i, |xs|) + k]
    ensures 0 <= i <= j ==>
      |r| == Min(j, |xs|) - Min(i, |xs|) && forall k :: 0 <= k < |r| ==> r[k] == xs[i + k]
  {
    var lo := SliceBound(i, |xs|);
    var hi := SliceBound(j, |xs|);
    if lo < hi then xs[lo..hi] else []
  }

  /**
   * `request.args.get("page", 1, type=int)`: `arg` is the argument read as an integer,
   * `None` when it is absent or not an integer.
   */
  function PageNumber(arg: Option<int>): int {
    match arg
    case None => 1
    case Some(p) => p
  }

  /** The result of `paginate`: the items of the page and the page number used. */
  datatype Page<U> = Page(items: seq<U>, page: int)

  function FormatAll<T, U>(format: T -> U, selection: seq<T>): (r: seq<U>)
    ensures |r| == |selection|
    ensures forall k :: 0 <= k < |r| ==> r[k] == format(selection[k])
  {
    seq(|selection|, i requires 0 <= i < |selection| => format(selection[i]))
  }

  function Paginate<T, U>(format: T -> U, selection: seq<T>, arg: Option<int>): (r: Page<U>)
    ensures r.page == PageNumber(arg)
    ensures r.page >= 1 ==>
      var start := (r.page - 1) * ItemsPerPage;
      && |r.items| <= ItemsPerPage
      && |r.items| == (if start < |selection| then Min(ItemsPerPage, |selection| - start) else 0)
      && forall k :: 0 <= k < |r.items| ==> r.items[k] == format(selection[start + k])
  {
    var page := PageNumber(arg);
    var start := (page - 1) * ItemsPerPage;
    var end := start + ItemsPerPage;
    Page(PySlice(FormatAll(format, selection), start, end), page)
  }

  /** A page starting at or past the end of the list is empty. */
  lemma PastTheEndIsEmpty<T, U>(format: T -> U, selection: seq<T>, p: int)
    requires p >= 1 && (p - 1) * ItemsPerPage >= |selection|
    ensures Paginate(format, selection, Some(p)).items == []
  {
  }

  /** Page 0 is empty: its slice is `[-10:0]`. */
  lemma PageZeroIsEmpty<T, U>(format: T -> U, selection: seq<T>)
    ensures Paginate(format, selection, Some(0)).items == []
  {
  }

  /**
   * Page numbers below 1 are not rejected: page `-1` is the slice `[-20:-10]`, the ten
   * items that end ten before the last one.
   */
  lemma PageMinusOneCountsFromEnd<T, U>(format: T -> U, selection: seq<T>)
    requires |selection| >= 20
    ensures var r := Paginate(format, selection, Some(-1));
      |r.items| == 10 && forall k :: 0 <= k < 10 ==> r.items[k] == format(selection[|selection| - 20 + k])
  {
  }

  /** Every item is found on page `k / 10 + 1`, at position `k % 10`. */
  lemma {:induction false} EveryItemOnItsPage<T, U>(format: T -> U, selection: seq<T>, k: nat)
    requires k < |selection|
    ensures var r := Paginate(format, selection, Some(k / ItemsPerPage + 1));
      k % ItemsPerPage < |r.items| && r.items[k % ItemsPerPage] == format(selection[k])
  {
    var start := (k / ItemsPerPage) * ItemsPerPage;
    assert start + k % ItemsPerPage == k;
    assert start < |selection|;
  }
}
