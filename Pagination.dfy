/** The pagination control (src/components/pagination/index.tsx): the
    previous/next guards, the windowed list of page numbers with ellipses,
    and the guard that renders nothing for zero pages. */
module Pagination {
  import opened Js

  const MaxVisible := 5
  const PageSizeOptions: seq<nat> := [10, 20, 50]

  /** An entry of `getPageNumbers`' result: a page number or "ellipsis". */
  datatype PageItem = Page(n: int) | Ellipsis

  /** `handlePrevious`: the page it asks `onPageChange` for, if any. */
  function HandlePrevious(currentPage: int): (request: Option<int>)
    ensures request.Some? <==> currentPage > 1
    ensures request.Some? ==> request.value == currentPage - 1 && request.value >= 1
  {
    if currentPage > 1 then Some(currentPage - 1) else None
  }

  /** `handleNext`. */
  function HandleNext(currentPage: int, totalPages: int): (request: Option<int>)
    ensures request.Some? <==> currentPage < totalPages
    ensures request.Some? ==> request.value == currentPage + 1 && request.value <= totalPages
  {
    if currentPage < totalPages then Some(currentPage + 1) else None
  }

  /** Starting from a page inside `1..totalPages`, neither guard ever asks
      for a page outside it. */
  lemma RequestsStayInRange(currentPage: int, totalPages: int)
    requires 1 <= currentPage <= totalPages
    ensures var r := HandlePrevious(currentPage); r.Some? ==> 1 <= r.value <= totalPages
    ensures var r := HandleNext(currentPage, totalPages); r.Some? ==> 1 <= r.value <= totalPages
  {
  }

  /** The pages `lo..hi`, as a `for` loop pushing them. */
  function Run(lo: int, hi: int): (r: seq<PageItem>)
    ensures |r| == if hi < lo then 0 else hi - lo + 1
    ensures forall i :: 0 <= i < |r| ==> r[i] == Page(lo + i)
    decreases hi - lo
  {
    if hi < lo then [] else Run(lo, hi - 1) + [Page(hi)]
  }

  /** The list `getPageNumbers` builds, case by case. */
  function PageWindow(currentPage: int, totalPages: int): seq<PageItem>
  {
    if totalPages <= MaxVisible then Run(1, totalPages)
    else if currentPage <= 3 then Run(1, 4) + [Ellipsis, Page(totalPages)]
    else if currentPage >= totalPages - 2 then [Page(1), Ellipsis] + Run(totalPages - 3, totalPages)
    else [Page(1), Ellipsis] + Run(currentPage - 1, currentPage + 1) + [Ellipsis, Page(totalPages)]
  }

  /** `getPageNumbers`, with its loops and pushes. */
  method GetPageNumbers(currentPage: int, totalPages: int) returns (pages: seq<PageItem>)
    ensures pages == PageWindow(currentPage, totalPages)
  {
    pages := [];
    if totalPages <= MaxVisible {
      var i := 1;
      while i <= totalPages
        invariant 1 <= i <= (if totalPages < 1 then 1 else totalPages + 1)
        invariant pages == Run(1, i - 1)
      {
        pages := pages + [Page(i)];
        i := i + 1;
      }
    } else if currentPage <= 3 {
      var i := 1;
      while i <= 4
        invariant 1 <= i <= 5 && pages == Run(1, i - 1)
      {
        pages := pages + [Page(i)];
        i := i + 1;
      }
      pages := pages + [Ellipsis];
      pages := pages + [Page(totalPages)];
    } else if currentPage >= totalPages - 2 {
      pages := pages + [Page(1)];
      pages := pages + [Ellipsis];
      var i := totalPages - 3;
      while i <= totalPages
        invariant totalPages - 3 <= i <= totalPages + 1
        invariant pages == [Page(1), Ellipsis] + Run(totalPages - 3, i - 1)
      {
        pages := pages + [Page(i)];
        i := i + 1;
      }
    } else {
      pages := pages + [Page(1)];
      pages := pages + [Ellipsis];
      var i := currentPage - 1;
      while i <= currentPage + 1
        invariant currentPage - 1 <= i <= currentPage + 2
        invariant pages == [Page(1), Ellipsis] + Run(currentPage - 1, i - 1)
      {
        pages := pages + [Page(i)];
        i := i + 1;
      }
      pages := pages + [Ellipsis];
      pages := pages + [Page(totalPages)];
    }
  }

  /** The page numbers of a window, in order. */
  function Numbers(w: seq<PageItem>): (ns: seq<int>)
    ensures |ns| <= |w|
    ensures forall n :: n in ns <==> Page(n) in w
    decreases |w|
  {
    if w == [] then []
    else
      var rest := Numbers(w[1..]);
      assert forall x :: x in w <==> x == w[0] || x in w[1..];
      if w[0].Page? then [w[0].n] + rest else rest
  }

  predicate StrictlyIncreasing(ns: seq<int>)
  {
    forall i, j :: 0 <= i < j < |ns| ==> ns[i] < ns[j]
  }

  /** Every ellipsis stands between two pages at least two apart, so it
      always hides at least one page. */
  predicate EllipsesHidePages(w: seq<PageItem>)
  {
    forall i :: 0 <= i < |w| && w[i] == Ellipsis ==>
      0 < i < |w| - 1 && w[i - 1].Page? && w[i + 1].Page? && w[i + 1].n - w[i - 1].n >= 2
  }

  /** The page items of a window, each with the one after it: consecutive
      numbers strictly increase. */
  predicate ItemsIncrease(w: seq<PageItem>)
  {
    forall i, j :: 0 <= i < j < |w| && w[i].Page? && w[j].Page? ==> w[i].n < w[j].n
  }

  lemma RunIncreases(lo: int, hi: int)
    ensures ItemsIncrease(Run(lo, hi))
  {
  }

  /** The windowed list for a current page inside `1..totalPages`: at most
      seven entries, page numbers strictly increasing and within range,
      1, the current page and the last page all present, and every
      ellipsis hiding at least one page. */
  lemma PageWindowProperties(currentPage: int, totalPages: int)
    requires 1 <= currentPage <= totalPages
    ensures WindowFacts(PageWindow(currentPage, totalPages), currentPage, totalPages)
  {
    var w := PageWindow(currentPage, totalPages);
    if totalPages <= MaxVisible {
      RunIncreases(1, totalPages);
      assert w[0] == Page(1) && w[currentPage - 1] == Page(currentPage) && w[totalPages - 1] == Page(totalPages);
    } else if currentPage <= 3 {
      HeadWindow(currentPage, totalPages);
    } else if currentPage >= totalPages - 2 {
      TailWindow(currentPage, totalPages);
    } else {
      MiddleWindow(currentPage, totalPages);
    }
  }

  /** What `PageWindowProperties` promises of a window. */
  predicate WindowFacts(w: seq<PageItem>, currentPage: int, totalPages: int)
  {
    |w| <= 7 &&
    ItemsIncrease(w) &&
    (forall i :: 0 <= i < |w| && w[i].Page? ==> 1 <= w[i].n <= totalPages) &&
    Page(1) in w && Page(currentPage) in w && Page(totalPages) in w &&
    EllipsesHidePages(w)
  }

  lemma HeadWindow(currentPage: int, totalPages: int)
    requires 1 <= currentPage <= 3 && totalPages > MaxVisible
    ensures WindowFacts(PageWindow(currentPage, totalPages), currentPage, totalPages)
  {
    var w := PageWindow(currentPage, totalPages);
    assert Run(1, 4) == [Page(1), Page(2), Page(3), Page(4)];
    HeadFacts(w, currentPage, totalPages);
  }

  lemma HeadFacts(w: seq<PageItem>, currentPage: int, totalPages: int)
    requires 1 <= currentPage <= 3 && totalPages > MaxVisible
    requires w == [Page(1), Page(2), Page(3), Page(4), Ellipsis, Page(totalPages)]
    ensures WindowFacts(w, currentPage, totalPages)
  {
    HeadIncreases(w, totalPages);
    assert w[currentPage - 1] == Page(currentPage);
    assert w[5] == Page(totalPages);
  }

  lemma HeadIncreases(w: seq<PageItem>, totalPages: int)
    requires totalPages > MaxVisible
    requires w == [Page(1), Page(2), Page(3), Page(4), Ellipsis, Page(totalPages)]
    ensures ItemsIncrease(w)
  {
  }

  lemma TailWindow(currentPage: int, totalPages: int)
    requires 3 < currentPage <= totalPages && currentPage >= totalPages - 2 && totalPages > MaxVisible
    ensures WindowFacts(PageWindow(currentPage, totalPages), currentPage, totalPages)
  {
    var w := PageWindow(currentPage, totalPages);
    var r := Run(totalPages - 3, totalPages);
    assert r == [Page(totalPages - 3), Page(totalPages - 2), Page(totalPages - 1), Page(totalPages)];
    TailFacts(w, currentPage, totalPages);
  }

  lemma TailFacts(w: seq<PageItem>, currentPage: int, totalPages: int)
    requires 3 < currentPage <= totalPages && currentPage >= totalPages - 2 && totalPages > MaxVisible
    requires w == [Page(1), Ellipsis, Page(totalPages - 3), Page(totalPages - 2), Page(totalPages - 1), Page(totalPages)]
    ensures WindowFacts(w, currentPage, totalPages)
  {
    TailIncreases(w, totalPages);
    TailEllipsis(w, totalPages);
    assert w[0] == Page(1) && w[5] == Page(totalPages);
    if currentPage == totalPages - 2 {
      assert w[3] == Page(currentPage);
    } else if currentPage == totalPages - 1 {
      assert w[4] == Page(currentPage);
    }
  }

  lemma TailEllipsis(w: seq<PageItem>, totalPages: int)
    requires totalPages > MaxVisible
    requires w == [Page(1), Ellipsis, Page(totalPages - 3), Page(totalPages - 2), Page(totalPages - 1), Page(totalPages)]
    ensures EllipsesHidePages(w)
    ensures forall i :: 0 <= i < |w| && w[i].Page? ==> 1 <= w[i].n <= totalPages
  {
  }

  lemma TailIncreases(w: seq<PageItem>, totalPages: int)
    requires totalPages > MaxVisible
    requires w == [Page(1), Ellipsis, Page(totalPages - 3), Page(totalPages - 2), Page(totalPages - 1), Page(totalPages)]
    ensures ItemsIncrease(w)
  {
  }

  lemma MiddleWindow(currentPage: int, totalPages: int)
    requires 3 < currentPage < totalPages - 2 && totalPages > MaxVisible
    ensures WindowFacts(PageWindow(currentPage, totalPages), currentPage, totalPages)
  {
    var w := PageWindow(currentPage, totalPages);
    var r := Run(currentPage - 1, currentPage + 1);
    assert r == [Page(currentPage - 1), Page(currentPage), Page(currentPage + 1)];
    assert w == [Page(1), Ellipsis] + r + [Ellipsis, Page(totalPages)];
    MiddleFacts(w, currentPage, totalPages);
  }

  lemma MiddleFacts(w: seq<PageItem>, currentPage: int, totalPages: int)
    requires 3 < currentPage < totalPages - 2
    requires w == [Page(1), Ellipsis, Page(currentPage - 1), Page(currentPage), Page(currentPage + 1),
                   Ellipsis, Page(totalPages)]
    ensures WindowFacts(w, currentPage, totalPages)
  {
    MiddleIncreases(w, currentPage, totalPages);
    assert w[3] == Page(currentPage);
    assert w[6] == Page(totalPages);
  }

  lemma MiddleIncreases(w: seq<PageItem>, currentPage: int, totalPages: int)
    requires 3 < currentPage < totalPages - 2
    requires w == [Page(1), Ellipsis, Page(currentPage - 1), Page(currentPage), Page(currentPage + 1),
                   Ellipsis, Page(totalPages)]
    ensures ItemsIncrease(w)
  {
  }

  /** Up to five pages are all listed, in order, with no ellipsis. */
  lemma FewPagesAllListed(currentPage: int, totalPages: int)
    requires totalPages <= MaxVisible
    ensures var w := PageWindow(currentPage, totalPages);
            |w| == (if totalPages < 1 then 0 else totalPages) &&
            (forall i :: 0 <= i < |w| ==> w[i] == Page(i + 1)) &&
            Ellipsis !in w
  {
  }

  lemma PageWindowNumbersIncrease(currentPage: int, totalPages: int)
    requires 1 <= currentPage <= totalPages
    ensures StrictlyIncreasing(Numbers(PageWindow(currentPage, totalPages)))
  {
    var w := PageWindow(currentPage, totalPages);
    PageWindowProperties(currentPage, totalPages);
    NumbersIncrease(w);
  }

  lemma {:induction false} NumbersIncrease(w: seq<PageItem>)
    requires ItemsIncrease(w)
    ensures StrictlyIncreasing(Numbers(w))
    decreases |w|
  {
    if w != [] {
      var tail := w[1..];
      assert ItemsIncrease(tail) by {
        forall i, j | 0 <= i < j < |tail| && tail[i].Page? && tail[j].Page?
          ensures tail[i].n < tail[j].n
        {
          assert tail[i] == w[i + 1] && tail[j] == w[j + 1];
        }
      }
      NumbersIncrease(tail);
      var rest := Numbers(tail);
      if w[0].Page? {
        forall j | 0 <= j < |rest|
          ensures w[0].n < rest[j]
        {
          assert rest[j] in rest;
          HeadBelowLater(w, rest[j]);
        }
        assert Numbers(w) == [w[0].n] + rest;
      } else {
        assert Numbers(w) == rest;
      }
    }
  }

  /** In an increasing window the first page is below every later one. */
  lemma HeadBelowLater(w: seq<PageItem>, x: int)
    requires |w| > 0 && ItemsIncrease(w) && w[0].Page? && Page(x) in w[1..]
    ensures w[0].n < x
  {
    var m :| 0 <= m < |w[1..]| && w[1..][m] == Page(x);
    assert w[m + 1] == Page(x);
  }

  /** The rendering guard: zero pages render nothing; otherwise the
      controls and the window are shown. */
  function Render(currentPage: int, totalPages: int): (view: Option<seq<PageItem>>)
    ensures view.None? <==> totalPages == 0
    ensures view.Some? ==> view.value == PageWindow(currentPage, totalPages)
  {
    if totalPages == 0 then None else Some(PageWindow(currentPage, totalPages))
  }

  /** The previous button is disabled on page 1, the next button on the last
      page. Past the ends the buttons stay enabled but their handlers ask for
      nothing in the direction that would leave the range. */
  function PreviousDisabled(currentPage: int): bool
  {
    currentPage == 1
  }

  function NextDisabled(currentPage: int, totalPages: int): bool
  {
    currentPage == totalPages
  }

  lemma DisabledButtonsRequestNothing(currentPage: int, totalPages: int)
    ensures PreviousDisabled(currentPage) ==> HandlePrevious(currentPage) == None
    ensures NextDisabled(currentPage, totalPages) ==> HandleNext(currentPage, totalPages) == None
  {
  }
}
