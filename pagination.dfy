/**
 * The pagination bar of the staff list: the list of page buttons with
 * ellipses, whether anything is drawn, and the previous/next buttons.
 */
module Pagination {
  import opened Wrappers

  /** A numbered page button, or the `"..."` marker. */
  datatype PageItem = Page(number: int) | Ellipsis

  const MaxVisible := 5

  function Max(a: int, b: int): int { if a < b then b else a }
  function Min(a: int, b: int): int { if a < b then a else b }

  /** The numbered entries strictly increase from left to right (so none repeats). */
  predicate StrictlyIncreasing(pages: seq<PageItem>) {
    forall i, j :: 0 <= i < j < |pages| && pages[i].Page? && pages[j].Page? ==> pages[i].number < pages[j].number
  }

  predicate NumbersWithin(pages: seq<PageItem>, totalPages: int) {
    forall k :: 0 <= k < |pages| && pages[k].Page? ==> 1 <= pages[k].number <= totalPages
  }

  /** The entries `lo`, `lo + 1`, ... in order. */
  predicate RunFrom(run: seq<PageItem>, lo: int) {
    forall k :: 0 <= k < |run| ==> run[k] == Page(lo + k)
  }

  /** The buttons for pages `lo` to `hi`, in order (none when `lo > hi`). */
  function PageRun(lo: int, hi: int): (run: seq<PageItem>)
    ensures |run| == Max(0, hi - lo + 1) && RunFrom(run, lo)
    decreases hi - lo
  {
    if lo > hi then [] else [Page(lo)] + PageRun(lo + 1, hi)
  }

  /** Two runs from the same page with the same length are equal. */
  lemma SameRun(a: seq<PageItem>, b: seq<PageItem>, lo: int)
    requires |a| == |b| && RunFrom(a, lo) && RunFrom(b, lo)
    ensures a == b
  {
    assert forall k :: 0 <= k < |a| ==> a[k] == b[k];
  }

  /**
   * The list `getPageNumbers` builds, for any inputs: with at most five
   * pages, 1 to `totalPages`; otherwise page 1, an ellipsis when
   * `currentPage > 3`, the pages from `max(2, currentPage - 1)` to
   * `min(totalPages - 1, currentPage + 1)`, an ellipsis when
   * `currentPage < totalPages - 2`, and the last page.
   */
  function PageList(currentPage: int, totalPages: int): seq<PageItem> {
    if totalPages <= MaxVisible then PageRun(1, totalPages)
    else
      [Page(1)] + (if currentPage > 3 then [Ellipsis] else [])
      + PageRun(Max(2, currentPage - 1), Min(totalPages - 1, currentPage + 1))
      + (if currentPage < totalPages - 2 then [Ellipsis] else []) + [Page(totalPages)]
  }

  /**
   * Beyond five pages, the numbered entries are exactly page 1, the last
   * page and the pages next to the current one that lie strictly between
   * them.
   */
  predicate WindowListed(pages: seq<PageItem>, currentPage: int, totalPages: int) {
    && (forall p :: Max(2, currentPage - 1) <= p <= Min(totalPages - 1, currentPage + 1) ==> Page(p) in pages)
    && (forall k :: 0 <= k < |pages| && pages[k].Page? ==>
          || pages[k].number == 1 || pages[k].number == totalPages
          || Max(2, currentPage - 1) <= pages[k].number <= Min(totalPages - 1, currentPage + 1))
  }

  /** Everything the page list promises, whatever `currentPage` is. */
  predicate WellFormed(pages: seq<PageItem>, currentPage: int, totalPages: int) {
    && StrictlyIncreasing(pages)
    && NumbersWithin(pages, totalPages)
    && |pages| <= 7
    && (totalPages <= MaxVisible ==> |pages| == Max(totalPages, 0) && RunFrom(pages, 1))
    && (totalPages > MaxVisible ==>
          && |pages| >= 2 && pages[0] == Page(1) && pages[|pages| - 1] == Page(totalPages)
          && (forall k :: 0 <= k < |pages| - 1 ==> !(pages[k].Ellipsis? && pages[k + 1].Ellipsis?))
          && (forall k :: 0 <= k < |pages| && pages[k].Ellipsis? ==> k == 1 || k == |pages| - 2)
          && WindowListed(pages, currentPage, totalPages)
          && (1 <= currentPage <= totalPages ==>
                && (pages[1] == Ellipsis <==> currentPage > 3)
                && (pages[|pages| - 2] == Ellipsis <==> currentPage < totalPages - 2)))
    && (1 <= currentPage <= totalPages ==> Page(currentPage) in pages)
  }

  /**
   * `getPageNumbers`: with at most five pages, all of them; otherwise the
   * first page, an ellipsis when `currentPage > 3`, the pages next to the
   * current one (skipping any already listed), an ellipsis when
   * `currentPage < totalPages - 2`, and the last page unless listed.
   */
  method GetPageNumbers(currentPage: int, totalPages: int) returns (pages: seq<PageItem>)
    ensures pages == PageList(currentPage, totalPages)
    ensures WellFormed(pages, currentPage, totalPages)
  {
    pages := [];
    if totalPages <= MaxVisible {
      var i := 1;
      while i <= totalPages
        invariant 1 <= i <= Max(totalPages, 0) + 1
        invariant |pages| == i - 1 && RunFrom(pages, 1)
      {
        pages := pages + [Page(i)];
        i := i + 1;
      }
      SameRun(pages, PageRun(1, totalPages), 1);
    } else {
      pages := AssembleLong(currentPage, totalPages);
    }
    PageListWellFormed(currentPage, totalPages);
  }

  /** The branch of `getPageNumbers` for more than five pages. */
  method AssembleLong(currentPage: int, totalPages: int) returns (pages: seq<PageItem>)
    requires totalPages > MaxVisible
    ensures pages == PageList(currentPage, totalPages)
  {
    pages := [Page(1)];
    if currentPage > 3 {
      pages := pages + [Ellipsis];
    }
    ghost var head := pages;
    var lo := Max(2, currentPage - 1);
    var hi := Min(totalPages - 1, currentPage + 1);
    pages := AppendWindow(pages, lo, hi);
    ghost var window := pages[|head|..];
    SameRun(window, PageRun(lo, hi), lo);
    if currentPage < totalPages - 2 {
      pages := pages + [Ellipsis];
    }
    if Page(totalPages) !in pages {
      pages := pages + [Page(totalPages)];
    }
    assert Assembled(pages, head, window, currentPage, totalPages, lo, hi);
  }

  /** The list `PageList` describes has every property `WellFormed` names. */
  lemma PageListWellFormed(currentPage: int, totalPages: int)
    ensures WellFormed(PageList(currentPage, totalPages), currentPage, totalPages)
  {
    var pages := PageList(currentPage, totalPages);
    if totalPages <= MaxVisible {
      if 1 <= currentPage <= totalPages {
        assert pages[currentPage - 1] == Page(currentPage);
      }
    } else {
      var head := [Page(1)] + (if currentPage > 3 then [Ellipsis] else []);
      var lo := Max(2, currentPage - 1);
      var hi := Min(totalPages - 1, currentPage + 1);
      WindowShape(pages, head, PageRun(lo, hi), currentPage, totalPages, lo, hi);
    }
  }

  /**
   * The `for` loop over the pages next to the current one: appends `lo`
   * to `hi` in order, each only if not listed yet. When every listed page
   * is below `lo`, none is skipped.
   */
  method AppendWindow(pages: seq<PageItem>, lo: int, hi: int) returns (out: seq<PageItem>)
    requires forall k :: 0 <= k < |pages| && pages[k].Page? ==> pages[k].number < lo
    ensures |out| == |pages| + Max(0, hi - lo + 1) && out[..|pages|] == pages
    ensures RunFrom(out[|pages|..], lo)
  {
    out := pages;
    var i := lo;
    while i <= hi
      invariant lo <= i <= Max(lo, hi + 1)
      invariant |out| == |pages| + (i - lo) && out[..|pages|] == pages
      invariant RunFrom(out[|pages|..], lo)
      invariant forall k :: 0 <= k < |out| && out[k].Page? ==> out[k].number < i
    {
      if Page(i) !in out {
        ghost var run := out[|pages|..];
        out := out + [Page(i)];
        assert out[|pages|..] == run + [Page(i)];
      } else {
        assert false;
      }
      i := i + 1;
    }
  }

  /**
   * The list `getPageNumbers` assembles beyond five pages: page 1, an
   * ellipsis when `currentPage > 3`, the window `lo..hi`, an ellipsis when
   * `currentPage < totalPages - 2`, and the last page.
   */
  predicate Assembled(pages: seq<PageItem>, head: seq<PageItem>, window: seq<PageItem>,
                      currentPage: int, totalPages: int, lo: int, hi: int) {
    && totalPages > MaxVisible
    && head == [Page(1)] + (if currentPage > 3 then [Ellipsis] else [])
    && lo == Max(2, currentPage - 1) && hi == Min(totalPages - 1, currentPage + 1)
    && window == PageRun(lo, hi)
    && pages == head + window + (if currentPage < totalPages - 2 then [Ellipsis] else []) + [Page(totalPages)]
  }

  /** The assembled list is strictly increasing and within 1..totalPages. */
  lemma AssembledOrdered(pages: seq<PageItem>, head: seq<PageItem>, window: seq<PageItem>,
                         currentPage: int, totalPages: int, lo: int, hi: int)
    requires Assembled(pages, head, window, currentPage, totalPages, lo, hi)
    ensures StrictlyIncreasing(pages) && NumbersWithin(pages, totalPages)
  {
    var n := |head| + |window|;
    assert forall k :: 0 <= k < |pages| && pages[k].Page? ==>
      (k == 0 && pages[k].number == 1) || (|head| <= k < n && pages[k].number == lo + k - |head|)
        || (k == |pages| - 1 && pages[k].number == totalPages);
  }

  /** The assembled list's outline: its ends, its ellipses and its length. */
  lemma AssembledOutline(pages: seq<PageItem>, head: seq<PageItem>, window: seq<PageItem>,
                         currentPage: int, totalPages: int, lo: int, hi: int)
    requires Assembled(pages, head, window, currentPage, totalPages, lo, hi)
    ensures |pages| <= 7 && |pages| >= 2 && pages[0] == Page(1) && pages[|pages| - 1] == Page(totalPages)
    ensures forall k :: 0 <= k < |pages| - 1 ==> !(pages[k].Ellipsis? && pages[k + 1].Ellipsis?)
    ensures forall k :: 0 <= k < |pages| && pages[k].Ellipsis? ==> k == 1 || k == |pages| - 2
    ensures 1 <= currentPage <= totalPages ==>
      && (pages[1] == Ellipsis <==> currentPage > 3)
      && (pages[|pages| - 2] == Ellipsis <==> currentPage < totalPages - 2)
  {
    if 1 <= currentPage <= totalPages {
      assert |window| >= 1;
    }
  }

  /** The assembled list holds the whole window and, besides it, only the first and last pages. */
  lemma AssembledWindow(pages: seq<PageItem>, head: seq<PageItem>, window: seq<PageItem>,
                        currentPage: int, totalPages: int, lo: int, hi: int)
    requires Assembled(pages, head, window, currentPage, totalPages, lo, hi)
    ensures WindowListed(pages, currentPage, totalPages)
  {
    forall p | lo <= p <= hi
      ensures Page(p) in pages
    {
      assert pages[|head| + p - lo] == window[p - lo];
    }
    var n := |head| + |window|;
    assert forall k :: 0 <= k < |pages| && pages[k].Page? ==>
      (k == 0 && pages[k].number == 1) || (|head| <= k < n && pages[k].number == lo + k - |head|)
        || (k == |pages| - 1 && pages[k].number == totalPages);
  }

  /** Beyond five pages, the assembled list has every property `WellFormed` names. */
  lemma WindowShape(pages: seq<PageItem>, head: seq<PageItem>, window: seq<PageItem>,
                    currentPage: int, totalPages: int, lo: int, hi: int)
    requires Assembled(pages, head, window, currentPage, totalPages, lo, hi)
    ensures WellFormed(pages, currentPage, totalPages)
  {
    AssembledOrdered(pages, head, window, currentPage, totalPages, lo, hi);
    AssembledOutline(pages, head, window, currentPage, totalPages, lo, hi);
    AssembledWindow(pages, head, window, currentPage, totalPages, lo, hi);
    if 1 < currentPage < totalPages {
      assert pages[|head| + currentPage - lo] == window[currentPage - lo] == Page(currentPage);
    }
  }

  /**
   * A current page beyond the last one (the page state is never clamped
   * to the `total_pages` the server reports, which can shrink after a
   * delete) leaves an empty window: page 11 of 10 lists page 1, one
   * ellipsis and page 10.
   */
  lemma PageBeyondLast()
    ensures PageList(11, 10) == [Page(1), Ellipsis, Page(10)]
  {
    assert PageRun(10, 9) == [];
  }

  /** What the component draws: the page list and the two arrow buttons. */
  datatype Controls = Controls(
    pages: seq<PageItem>,
    previousDisabled: bool, previousTarget: int,
    nextDisabled: bool, nextTarget: int)

  /**
   * The `Pagination` component: nothing when there is at most one page;
   * otherwise the page list, a previous button disabled exactly on the
   * first page that asks for `currentPage - 1`, and a next button disabled
   * exactly on the last page that asks for `currentPage + 1`.
   */
  method Render(currentPage: int, totalPages: int) returns (view: Option<Controls>)
    ensures view.None? <==> totalPages <= 1
    ensures view.Some? ==> WellFormed(view.value.pages, currentPage, totalPages)
    ensures view.Some? ==> view.value.previousDisabled == (currentPage == 1) && view.value.previousTarget == currentPage - 1
    ensures view.Some? ==> view.value.nextDisabled == (currentPage == totalPages) && view.value.nextTarget == currentPage + 1
  {
    if totalPages <= 1 {
      return None;
    }
    var pages := GetPageNumbers(currentPage, totalPages);
    view := Some(Controls(pages, currentPage == 1, currentPage - 1, currentPage == totalPages, currentPage + 1));
  }
}
