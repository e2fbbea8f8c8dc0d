/**
 * The page selector of the content site (src/components/ui/Pagination/index.tsx):
 * which page buttons and ellipses are shown around the current page, and
 * where the previous and next buttons lead. The component renders nothing
 * when there is at most one page.
 */
module Pagination {
  import opened Wrappers
  import opened JsSemantics

  /** One entry of the selector: a page button or the `'...'` marker. */
  datatype PageItem = Page(n: int) | Ellipsis

  /** The contiguous run of page buttons around the current page. */
  datatype Window = Window(start: int, end: int)

  /** What the component renders: the previous button, the entries, the next button. */
  datatype Nav = Nav(
    prevDisabled: bool, prevTarget: int,
    items: seq<PageItem>,
    nextDisabled: bool, nextTarget: int)

  /** The number of pages shown around the current one, and `Math.floor(maxVisible / 2)`. */
  const MAX_VISIBLE: int := 5
  const SIDE_PAGES: int := 2

  /** The pages a..b, none when b < a. */
  function Pages(a: int, b: int): (r: seq<PageItem>)
    ensures |r| == Max(b - a + 1, 0)
    ensures forall k :: 0 <= k < |r| ==> r[k] == Page(a + k)
  {
    seq(Max(b - a + 1, 0), k => Page(a + k))
  }

  lemma PagesSnoc(a: int, b: int)
    requires a <= b
    ensures Pages(a, b) == Pages(a, b - 1) + [Page(b)]
  {
  }

  /** The window `getPageNumbers` settles on: two pages either side of the
      current one, widened to five at the first or the last page. */
  function PageWindow(currentPage: int, totalPages: int): Window
  {
    var start, end := Max(1, currentPage - SIDE_PAGES), Min(totalPages, currentPage + SIDE_PAGES);
    if end - start + 1 < MAX_VISIBLE && start == 1 then
      Window(start, Min(totalPages, start + MAX_VISIBLE - 1))
    else if end - start + 1 < MAX_VISIBLE && end == totalPages then
      Window(Max(1, end - MAX_VISIBLE + 1), end)
    else
      Window(start, end)
  }

  /** The entries for a window: page 1 and an ellipsis before it when it
      does not reach them, the window's pages, then an ellipsis and the
      last page when it does not reach them. */
  function PageItems(w: Window, totalPages: int): seq<PageItem>
  {
    Head(w.start) + Pages(w.start, w.end) + Tail(w.end, totalPages)
  }

  function Head(start: int): seq<PageItem>
  {
    if start > 1 then [Page(1)] + (if start > 2 then [Ellipsis] else []) else []
  }

  function Tail(end: int, totalPages: int): seq<PageItem>
  {
    if end < totalPages then (if end < totalPages - 1 then [Ellipsis] else []) + [Page(totalPages)] else []
  }

  /** What `getPageNumbers()` returns. */
  function PageNumbers(currentPage: int, totalPages: int): seq<PageItem>
  {
    PageItems(PageWindow(currentPage, totalPages), totalPages)
  }

  /** `getPageNumbers()`: adjusts `start` and `end`, then pushes the entries. */
  method GetPageNumbers(currentPage: int, totalPages: int) returns (pages: seq<PageItem>)
    ensures pages == PageNumbers(currentPage, totalPages)
  {
    var start := Max(1, currentPage - SIDE_PAGES);
    var end := Min(totalPages, currentPage + SIDE_PAGES);
    if end - start + 1 < MAX_VISIBLE {
      if start == 1 {
        end := Min(totalPages, start + MAX_VISIBLE - 1);
      } else if end == totalPages {
        start := Max(1, end - MAX_VISIBLE + 1);
      }
    }
    pages := PushEntries(start, end, totalPages);
    PageNumbersParts(currentPage, totalPages);
  }

  /** The pushes of `getPageNumbers()` once the window is settled: page 1 and
      an ellipsis, the window's pages in order, then an ellipsis and the last page. */
  method PushEntries(start: int, end: int, totalPages: int) returns (pages: seq<PageItem>)
    ensures pages == PageItems(Window(start, end), totalPages)
  {
    pages := [];
    if start > 1 {
      pages := pages + [Page(1)];
      if start > 2 {
        pages := pages + [Ellipsis];
      }
    }
    assert pages == Head(start);
    var i := start;
    while i <= end
      invariant start <= i <= Max(start, end + 1)
      invariant pages == Head(start) + Pages(start, i - 1)
    {
      PagesSnoc(start, i);
      pages := pages + [Page(i)];
      i := i + 1;
    }
    assert pages == Head(start) + Pages(start, end);
    ghost var body := pages;
    if end < totalPages {
      if end < totalPages - 1 {
        pages := pages + [Ellipsis];
      }
      pages := pages + [Page(totalPages)];
    }
    assert pages == body + Tail(end, totalPages);
  }

  /** The component: nothing for at most one page; otherwise the previous
      button (disabled on page 1, leading to the page before), the entries,
      and the next button (disabled on the last page, leading to the page after). */
  method RenderPagination(currentPage: int, totalPages: int) returns (r: Option<Nav>)
    ensures r.None? <==> totalPages <= 1
    ensures r.Some? ==> r.value.items == PageNumbers(currentPage, totalPages)
    ensures r.Some? ==> (r.value.prevDisabled <==> currentPage == 1) && r.value.prevTarget == currentPage - 1
    ensures r.Some? ==> (r.value.nextDisabled <==> currentPage == totalPages) && r.value.nextTarget == currentPage + 1
  {
    if totalPages <= 1 {
      return None;
    }
    var items := GetPageNumbers(currentPage, totalPages);
    r := Some(Nav(currentPage == 1, currentPage - 1, items, currentPage == totalPages, currentPage + 1));
  }

  // ---------------------------------------------------------------------
  // Properties of the window and the entries
  // ---------------------------------------------------------------------

  function Clamp(x: int, lo: int, hi: int): int { Max(lo, Min(x, hi)) }

  /** For a page in range, the window is the run of min(5, totalPages) pages
      starting two before the current page, pushed back inside 1..totalPages. */
  lemma WindowIsClampedRun(currentPage: int, totalPages: int)
    requires 1 <= currentPage <= totalPages
    ensures var s := Clamp(currentPage - SIDE_PAGES, 1, Max(1, totalPages - MAX_VISIBLE + 1));
            PageWindow(currentPage, totalPages) == Window(s, s + Min(MAX_VISIBLE, totalPages) - 1)
  {
  }

  /** The window lies within 1..totalPages, holds the current page and the two
      pages either side that exist, and has min(5, totalPages) pages. */
  lemma WindowFacts(currentPage: int, totalPages: int)
    requires 1 <= currentPage <= totalPages
    ensures var w := PageWindow(currentPage, totalPages);
            1 <= w.start <= currentPage <= w.end <= totalPages &&
            w.end - w.start + 1 == Min(MAX_VISIBLE, totalPages) &&
            w.start <= Max(1, currentPage - SIDE_PAGES) &&
            Min(totalPages, currentPage + SIDE_PAGES) <= w.end
  {
    WindowIsClampedRun(currentPage, totalPages);
  }

  /** Page numbers strictly increase along the entries, so none repeats. */
  predicate Increasing(r: seq<PageItem>)
  {
    forall i, j :: 0 <= i < j < |r| && r[i].Page? && r[j].Page? ==> r[i].n < r[j].n
  }

  lemma IncreasingAppend(a: seq<PageItem>, b: seq<PageItem>, m: int)
    requires Increasing(a) && Increasing(b)
    requires forall i :: 0 <= i < |a| && a[i].Page? ==> a[i].n < m
    requires forall j :: 0 <= j < |b| && b[j].Page? ==> m <= b[j].n
    ensures Increasing(a + b)
  {
    forall i, j | 0 <= i < j < |a + b| && (a + b)[i].Page? && (a + b)[j].Page?
      ensures (a + b)[i].n < (a + b)[j].n
    {
      if j < |a| {
      } else if i >= |a| {
        assert (a + b)[i] == b[i - |a|] && (a + b)[j] == b[j - |a|];
      } else {
        assert (a + b)[j] == b[j - |a|];
      }
    }
  }

  /** The entries split at the window. */
  lemma PageNumbersParts(currentPage: int, totalPages: int)
    ensures var w := PageWindow(currentPage, totalPages);
            PageNumbers(currentPage, totalPages) == Head(w.start) + Pages(w.start, w.end) + Tail(w.end, totalPages)
  {
  }

  /** With more than one page and the current page in range, the entries
      start with page 1 and end with the last page. */
  lemma PageNumbersEnds(currentPage: int, totalPages: int)
    requires 1 <= currentPage <= totalPages && 1 < totalPages
    ensures var r := PageNumbers(currentPage, totalPages);
            |r| >= 2 && r[0] == Page(1) && r[|r| - 1] == Page(totalPages)
  {
    WindowFacts(currentPage, totalPages);
    var w := PageWindow(currentPage, totalPages);
    var head, mid, tail := Head(w.start), Pages(w.start, w.end), Tail(w.end, totalPages);
    PageNumbersParts(currentPage, totalPages);
    var r := head + mid + tail;
    assert |mid| >= 2;
    if head == [] {
      assert r[0] == mid[0];
    }
    if tail == [] {
      assert r[|r| - 1] == mid[|mid| - 1];
    }
  }

  /** Page numbers strictly increase along the entries and lie within 1..totalPages. */
  lemma PageNumbersIncreasing(currentPage: int, totalPages: int)
    requires 1 <= currentPage <= totalPages
    ensures var r := PageNumbers(currentPage, totalPages);
            Increasing(r) && forall i :: 0 <= i < |r| && r[i].Page? ==> 1 <= r[i].n <= totalPages
  {
    WindowFacts(currentPage, totalPages);
    var w := PageWindow(currentPage, totalPages);
    var head, mid, tail := Head(w.start), Pages(w.start, w.end), Tail(w.end, totalPages);
    PageNumbersParts(currentPage, totalPages);
    IncreasingAppend(head, mid, w.start);
    IncreasingAppend(head + mid, tail, w.end + 1);
    var r := head + mid + tail;
    forall i | 0 <= i < |r| && r[i].Page?
      ensures 1 <= r[i].n <= totalPages
    {
      if i < |head| {
      } else if i < |head| + |mid| {
        assert r[i] == mid[i - |head|];
      } else {
        assert r[i] == tail[i - |head| - |mid|];
      }
    }
  }

  /** The current page and every page within two of it that exists is shown. */
  lemma PageNumbersNeighbours(currentPage: int, totalPages: int)
    requires 1 <= currentPage <= totalPages
    ensures forall p :: currentPage - SIDE_PAGES <= p <= currentPage + SIDE_PAGES && 1 <= p <= totalPages ==>
                          Page(p) in PageNumbers(currentPage, totalPages)
  {
    WindowFacts(currentPage, totalPages);
    var w := PageWindow(currentPage, totalPages);
    var head, mid := Head(w.start), Pages(w.start, w.end);
    PageNumbersParts(currentPage, totalPages);
    var r := PageNumbers(currentPage, totalPages);
    forall p | currentPage - SIDE_PAGES <= p <= currentPage + SIDE_PAGES && 1 <= p <= totalPages
      ensures Page(p) in r
    {
      assert mid[p - w.start] == Page(p);
      assert r[|head| + (p - w.start)] == Page(p);
    }
  }

  /** With more than one page and the current page in range, an ellipsis
      stands second exactly when the window starts after page 2, second to
      last exactly when it ends before the page before last, and nowhere else. */
  lemma PageNumbersEllipses(currentPage: int, totalPages: int)
    requires 1 <= currentPage <= totalPages && 1 < totalPages
    ensures var r, w := PageNumbers(currentPage, totalPages), PageWindow(currentPage, totalPages);
            |r| >= 2 &&
            (r[1] == Ellipsis <==> w.start > 2) &&
            (r[|r| - 2] == Ellipsis <==> w.end < totalPages - 1) &&
            (forall i :: 0 <= i < |r| && r[i] == Ellipsis ==> i == 1 || i == |r| - 2)
  {
    WindowFacts(currentPage, totalPages);
    var w := PageWindow(currentPage, totalPages);
    var head, mid, tail := Head(w.start), Pages(w.start, w.end), Tail(w.end, totalPages);
    PageNumbersParts(currentPage, totalPages);
    var r := head + mid + tail;
    assert |mid| >= 2;
    if w.start > 2 {
      assert r[1] == head[1];
    } else {
      assert r[1] == if head == [] then mid[1] else mid[0];
    }
    if w.end < totalPages - 1 {
      assert r[|r| - 2] == tail[0];
    } else {
      assert r[|r| - 2] == if tail == [] then mid[|mid| - 2] else mid[|mid| - 1];
    }
    forall i | |head| <= i < |head| + |mid|
      ensures r[i].Page?
    {
      assert r[i] == mid[i - |head|];
    }
  }

  /** Page 10 of 20: page 1, an ellipsis, pages 8 to 12, an ellipsis, page 20. */
  lemma TenOfTwenty()
    ensures PageNumbers(10, 20)
         == [Page(1), Ellipsis, Page(8), Page(9), Page(10), Page(11), Page(12), Ellipsis, Page(20)]
  {
    assert Pages(8, 12) == [Page(8), Page(9), Page(10), Page(11), Page(12)];
  }

  /** Page 1 of 10: pages 1 to 5, an ellipsis, page 10. */
  lemma FirstOfTen()
    ensures PageNumbers(1, 10) == [Page(1), Page(2), Page(3), Page(4), Page(5), Ellipsis, Page(10)]
  {
    assert Pages(1, 5) == [Page(1), Page(2), Page(3), Page(4), Page(5)];
  }
}
