/**
 * Pagination of the filtered gallery: a fixed page length, the number of
 * pages, and the slice shown for a page cursor that starts at 1.
 */
module Pagination {
  import opened Sequences

  /** Projects per page. */
  const PageLength: nat := 6

  function Min(a: int, b: int): (r: int) { if a <= b then a else b }

  /** `Math.ceil(n / PageLength)`: the fewest pages that hold `n` items. */
  function TotalPages(n: nat): (r: nat)
    ensures r * PageLength >= n
    ensures (r - 1) * PageLength < n
  {
    (n + PageLength - 1) / PageLength
  }

  /**
   * The items on page `page`: `list.slice(page * 6 - 6, page * 6)`, where a
   * bound past the end of the list stops at the end.
   */
  function PageOf<T>(list: seq<T>, page: int): (r: seq<T>)
    requires page >= 1
    ensures |r| <= PageLength
    ensures forall k :: 0 <= k < |r| ==> (page - 1) * PageLength + k < |list| && r[k] == list[(page - 1) * PageLength + k]
    ensures |r| == if (page - 1) * PageLength < |list| then Min(PageLength, |list| - (page - 1) * PageLength) else 0
  {
    var indexOfLast := page * PageLength;
    var indexOfFirst := indexOfLast - PageLength;
    list[Min(indexOfFirst, |list|)..Min(indexOfLast, |list|)]
  }

  /** A page shows something exactly when the cursor is at most the number of pages. */
  lemma PageNonEmptyIff<T>(list: seq<T>, page: int)
    requires page >= 1
    ensures PageOf(list, page) != [] <==> page <= TotalPages(|list|)
  {
  }

  /** Pages `p` and `p + 1` are adjacent: together they are one contiguous stretch of the list. */
  lemma AdjacentPagesAreContiguous<T>(list: seq<T>, p: int)
    requires p >= 1
    ensures PageOf(list, p) + PageOf(list, p + 1) ==
      list[Min((p - 1) * PageLength, |list|)..Min((p + 1) * PageLength, |list|)]
  {
  }

  /** Two different pages of a list without repeated items share no item. */
  lemma DistinctPagesAreDisjoint<T>(list: seq<T>, p: int, q: int)
    requires p >= 1 && q >= 1 && p != q
    requires NoDuplicates(list)
    ensures forall x :: x in PageOf(list, p) ==> x !in PageOf(list, q)
  {
  }

  /** The pages 1 to `k`, concatenated in order. */
  function FirstPages<T>(list: seq<T>, k: nat): (r: seq<T>)
  {
    if k == 0 then [] else FirstPages(list, k - 1) + PageOf(list, k)
  }

  /** Reading pages 1 to `k` in order reads a prefix of the list, with nothing skipped or repeated. */
  lemma {:induction false} FirstPagesArePrefix<T>(list: seq<T>, k: nat)
    ensures FirstPages(list, k) == list[..Min(k * PageLength, |list|)]
  {
    if k > 0 {
      FirstPagesArePrefix(list, k - 1);
      var lo, hi := Min((k - 1) * PageLength, |list|), Min(k * PageLength, |list|);
      assert PageOf(list, k) == list[lo..hi];
      assert list[..lo] + list[lo..hi] == list[..hi];
    }
  }

  /** Pages 1 to `TotalPages` cover the whole list. */
  lemma AllPagesCoverList<T>(list: seq<T>)
    ensures FirstPages(list, TotalPages(|list|)) == list
  {
    FirstPagesArePrefix(list, TotalPages(|list|));
  }
}
