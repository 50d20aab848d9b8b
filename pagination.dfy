/**
 * Client-side pagination of the title list (src/App.js): the page count,
 * the `slice` that picks one page, and the row of page buttons.
 */
module Pagination {

  /** Titles shown on one page. */
  const TitlesPerPage := 5

  function Min(a: int, b: int): int { if a < b then a else b }

  /** `Math.ceil(n / TitlesPerPage)`: the fewest pages that hold `n` titles. */
  function TotalPages(n: nat): (t: nat)
    ensures t * TitlesPerPage >= n
    ensures t > 0 ==> (t - 1) * TitlesPerPage < n
    ensures t == 0 <==> n == 0
  {
    (n + TitlesPerPage - 1) / TitlesPerPage
  }

  /**
   * How `Array.prototype.slice` turns an argument into an index of a list
   * of length `len`: a negative index counts from the end, and the result
   * is clamped to `0..len`.
   */
  function SliceIndex(i: int, len: nat): (k: nat)
    ensures k <= len
    ensures 0 <= i ==> k == Min(i, len)
  {
    if i < 0 then (if len + i < 0 then 0 else len + i)
    else if i < len then i else len
  }

  /** `s.slice(start, end)`. */
  function Slice<T>(s: seq<T>, start: int, end: int): (r: seq<T>)
    ensures SliceIndex(start, |s|) + |r| <= |s|
    ensures |r| == (if SliceIndex(start, |s|) < SliceIndex(end, |s|)
                    then SliceIndex(end, |s|) - SliceIndex(start, |s|) else 0)
    ensures forall i :: 0 <= i < |r| ==> r[i] == s[SliceIndex(start, |s|) + i]
  {
    var lo, hi := SliceIndex(start, |s|), SliceIndex(end, |s|);
    if lo < hi then s[lo..hi] else []
  }

  /**
   * `currentTitles`: the titles of page `page`, counting from 1. For pages
   * from 1 on it is the run of titles starting at `(page - 1) * 5`, at most
   * five of them, and empty exactly for the pages past `TotalPages`.
   */
  function CurrentTitles<T>(list: seq<T>, page: int): (r: seq<T>)
    ensures |r| <= TitlesPerPage
    ensures page >= 1 ==>
      |r| == (if (page - 1) * TitlesPerPage < |list|
              then Min(page * TitlesPerPage, |list|) - (page - 1) * TitlesPerPage else 0)
    ensures page >= 1 ==> forall i :: 0 <= i < |r| ==> r[i] == list[(page - 1) * TitlesPerPage + i]
    ensures page >= 1 ==> (r == [] <==> page > TotalPages(|list|))
  {
    Slice(list, (page - 1) * TitlesPerPage, page * TitlesPerPage)
  }

  /** Pages 1 to `k`, one after the other. */
  function FirstPages<T>(list: seq<T>, k: nat): seq<T> {
    if k == 0 then [] else FirstPages(list, k - 1) + CurrentTitles(list, k)
  }

  /** The first `k` pages together are the list's first `k * 5` titles, in order. */
  lemma {:induction false} FirstPagesPrefix<T>(list: seq<T>, k: nat)
    ensures FirstPages(list, k) == list[..Min(k * TitlesPerPage, |list|)]
  {
    if k > 0 {
      FirstPagesPrefix(list, k - 1);
      var a, b := Min((k - 1) * TitlesPerPage, |list|), Min(k * TitlesPerPage, |list|);
      assert CurrentTitles(list, k) == list[a..b];
      assert list[..a] + list[a..b] == list[..b];
    }
  }

  /** Pages 1 to `TotalPages` together give back the whole list, in order. */
  lemma AllPagesRebuildList<T>(list: seq<T>)
    ensures FirstPages(list, TotalPages(|list|)) == list
  {
    FirstPagesPrefix(list, TotalPages(|list|));
    assert list[..|list|] == list;
  }

  /** The row of page buttons: button `i` (labelled `i + 1`) is `active` when it is the current page. */
  function PageButtons(total: nat, currentPage: int): (active: seq<bool>)
    ensures |active| == total
    ensures forall i :: 0 <= i < total ==> (active[i] <==> currentPage == i + 1)
  {
    seq(total, i => currentPage == i + 1)
  }

  /**
   * At most one button is active, and one is exactly when the current page
   * is one of the pages 1 to `total`.
   */
  lemma ActiveButton(total: nat, currentPage: int)
    ensures forall i, j :: 0 <= i < j < total ==> !(PageButtons(total, currentPage)[i] && PageButtons(total, currentPage)[j])
    ensures (exists i :: 0 <= i < total && PageButtons(total, currentPage)[i]) <==> 1 <= currentPage <= total
  {
    if 1 <= currentPage <= total {
      assert PageButtons(total, currentPage)[currentPage - 1];
    }
  }
}
