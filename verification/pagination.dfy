/**
  The page control of the search results: which page numbers and ellipses it
  shows for a current page and a page count, and which page its Previous and
  Next arrows request.
 */
module Pagination {

  import opened Optional

  /** One slot of the control: a clickable page number or a non-clickable ellipsis. */
  datatype Token = Page(n: int) | Dots

  /** How many slots the control shows before it collapses pages into ellipses. */
  const WindowSize: int := 7

  /** The pages `first, first + 1, ..., first + count - 1`, in order. */
  function Pages(first: int, count: nat): seq<Token>
  {
    seq(count, i => Page(first + i))
  }

  /**
    The tokens the control shows. A negative page count behaves like zero, as
    building an array from a negative length clamps that length to zero.
   */
  function Range(currentPage: int, totalPages: int): (r: seq<Token>)
    ensures |r| <= WindowSize
  {
    if totalPages <= WindowSize then
      Pages(1, if totalPages < 0 then 0 else totalPages)
    else if currentPage <= 4 then
      Pages(1, 5) + [Dots, Page(totalPages)]
    else if currentPage >= totalPages - 3 then
      [Page(1), Dots] + Pages(totalPages - 4, 5)
    else
      [Page(1), Dots, Page(currentPage - 1), Page(currentPage), Page(currentPage + 1), Dots, Page(totalPages)]
  }

  /** Every page token of `r` is a real page of a result with `totalPages` pages. */
  ghost predicate PagesInBounds(r: seq<Token>, totalPages: int)
  {
    forall i :: 0 <= i < |r| && r[i].Page? ==> 1 <= r[i].n <= totalPages
  }

  /** The page tokens of `r` are strictly increasing from left to right. */
  ghost predicate PagesIncreasing(r: seq<Token>)
  {
    forall i, j :: 0 <= i < j < |r| && r[i].Page? && r[j].Page? ==> r[i].n < r[j].n
  }

  /** An ellipsis is never first, never last and never next to another ellipsis. */
  ghost predicate DotsEnclosed(r: seq<Token>)
  {
    && (|r| > 0 ==> r[0].Page? && r[|r| - 1].Page?)
    && (forall i :: 0 <= i < |r| - 1 ==> r[i].Page? || r[i + 1].Page?)
  }

  /**
    An ellipsis stands exactly where pages are left out: two neighbouring page
    tokens are consecutive pages, and the pages on both sides of an ellipsis are not.
   */
  ghost predicate GapsMarked(r: seq<Token>)
  {
    && (forall i :: 0 <= i < |r| - 1 && r[i].Page? && r[i + 1].Page? ==> r[i + 1].n == r[i].n + 1)
    && (forall i :: 0 < i < |r| - 1 && r[i].Dots? ==> r[i - 1].Page? && r[i + 1].Page? && r[i - 1].n + 1 < r[i + 1].n)
  }

  /** All four shape rules of the control at once. */
  ghost predicate WellFormed(r: seq<Token>, totalPages: int)
  {
    PagesInBounds(r, totalPages) && PagesIncreasing(r) && DotsEnclosed(r) && GapsMarked(r)
  }

  /** Up to seven pages, every page is shown in order and there is no ellipsis. */
  lemma RangeUpToWindow(currentPage: int, totalPages: int)
    requires totalPages <= WindowSize
    ensures var r := Range(currentPage, totalPages);
      && |r| == (if totalPages < 0 then 0 else totalPages)
      && (forall i :: 0 <= i < |r| ==> r[i] == Page(i + 1))
      && Dots !in r
  {
  }

  /** Near the first page: pages one to five, an ellipsis and the last page. */
  lemma RangeNearStart(currentPage: int, totalPages: int)
    requires totalPages > WindowSize && currentPage <= 4
    ensures Range(currentPage, totalPages) == [Page(1), Page(2), Page(3), Page(4), Page(5), Dots, Page(totalPages)]
  {
  }

  /** Near the last page: the first page, an ellipsis and the last five pages. */
  lemma RangeNearEnd(currentPage: int, totalPages: int)
    requires totalPages > WindowSize && currentPage > 4 && currentPage >= totalPages - 3
    ensures Range(currentPage, totalPages)
         == [Page(1), Dots, Page(totalPages - 4), Page(totalPages - 3), Page(totalPages - 2), Page(totalPages - 1), Page(totalPages)]
  {
  }

  /** In between: the first page, the current page with its two neighbours, the last page. */
  lemma RangeInMiddle(currentPage: int, totalPages: int)
    requires totalPages > WindowSize && 4 < currentPage < totalPages - 3
    ensures Range(currentPage, totalPages)
         == [Page(1), Dots, Page(currentPage - 1), Page(currentPage), Page(currentPage + 1), Dots, Page(totalPages)]
  {
  }

  /** Past seven pages the control is always seven slots from page one to the last page. */
  lemma RangeFillsWindow(currentPage: int, totalPages: int)
    requires totalPages > WindowSize
    ensures var r := Range(currentPage, totalPages);
      |r| == WindowSize && r[0] == Page(1) && r[WindowSize - 1] == Page(totalPages) && Dots in r
  {
  }

  /** For any current page, in range or not, the tokens form a well-formed control. */
  lemma RangeWellFormed(currentPage: int, totalPages: int)
    ensures WellFormed(Range(currentPage, totalPages), totalPages)
  {
    var r := Range(currentPage, totalPages);
    if totalPages <= WindowSize {
      RangeUpToWindow(currentPage, totalPages);
    } else {
      if currentPage <= 4 {
        RangeNearStart(currentPage, totalPages);
      } else if currentPage >= totalPages - 3 {
        RangeNearEnd(currentPage, totalPages);
      } else {
        RangeInMiddle(currentPage, totalPages);
      }
      SevenWellFormed(r, totalPages);
    }
  }

  /**
    A seven-slot control is well formed when it runs from page one to the last
    page, pages at slots two and four are consecutive with their right
    neighbours, and at most slots one and five hold an ellipsis, each with a gap.
   */
  lemma SevenWellFormed(r: seq<Token>, totalPages: int)
    requires |r| == 7 && r[0] == Page(1) && r[6] == Page(totalPages)
    requires r[2].Page? && r[3].Page? && r[4].Page?
    requires r[3].n == r[2].n + 1 && r[4].n == r[3].n + 1
    requires r[1].Dots? || (r[1] == Page(2) && r[2].n == 3)
    requires r[5].Dots? || (r[5].Page? && r[5].n == r[4].n + 1 && r[6].n == r[5].n + 1)
    requires r[1].Dots? ==> r[2].n > 2
    requires r[5].Dots? ==> r[4].n + 1 < totalPages
    ensures WellFormed(r, totalPages)
  {
    assert PagesInBounds(r, totalPages);
    assert PagesIncreasing(r) by {
      forall i, j | 0 <= i < j < 7 && r[i].Page? && r[j].Page?
        ensures r[i].n < r[j].n
      {
      }
    }
    assert DotsEnclosed(r);
    assert GapsMarked(r);
  }

  /** Worked instances of the four windowing cases. */
  lemma RangeExamples()
    ensures forall c :: 1 <= c <= 5 ==> Range(c, 5) == [Page(1), Page(2), Page(3), Page(4), Page(5)]
    ensures Range(1, 20) == [Page(1), Page(2), Page(3), Page(4), Page(5), Dots, Page(20)]
    ensures Range(4, 20) == [Page(1), Page(2), Page(3), Page(4), Page(5), Dots, Page(20)]
    ensures Range(18, 20) == [Page(1), Dots, Page(16), Page(17), Page(18), Page(19), Page(20)]
    ensures Range(10, 20) == [Page(1), Dots, Page(9), Page(10), Page(11), Dots, Page(20)]
    ensures Range(1, 0) == []
  {
  }

  /**
    The current page is highlighted exactly when it is a real page, and then by
    exactly one token.
   */
  lemma RangeHighlightsCurrent(currentPage: int, totalPages: int)
    ensures var r := Range(currentPage, totalPages);
      && (Page(currentPage) in r <==> 1 <= currentPage <= totalPages)
      && (forall i, j :: 0 <= i < j < |r| && r[i] == Page(currentPage) ==> r[j] != Page(currentPage))
  {
    RangeWellFormed(currentPage, totalPages);
    if 1 <= currentPage <= totalPages {
      RangeShowsNeighbours(currentPage, totalPages, currentPage);
    }
  }

  /** The pages next to the current one are always reachable in one click. */
  lemma RangeShowsNeighbours(currentPage: int, totalPages: int, q: int)
    requires 1 <= currentPage <= totalPages
    requires currentPage - 1 <= q <= currentPage + 1 && 1 <= q <= totalPages
    ensures Page(q) in Range(currentPage, totalPages)
  {
    var r := Range(currentPage, totalPages);
    if totalPages <= WindowSize {
      assert r[q - 1] == Page(q);
    } else if currentPage <= 4 {
      RangeNearStart(currentPage, totalPages);
      assert r[q - 1] == Page(q);
    } else if currentPage >= totalPages - 3 {
      RangeNearEnd(currentPage, totalPages);
      if q == totalPages - 4 {
        assert r[2] == Page(q);
      } else {
        assert r[q - totalPages + 6] == Page(q);
      }
    } else {
      RangeInMiddle(currentPage, totalPages);
      assert r[q - currentPage + 3] == Page(q);
    }
  }

  /** The page the Previous arrow requests, if any. */
  function PreviousTarget(currentPage: int): (r: Option<int>)
    ensures r.Some? <==> currentPage > 1
    ensures r.Some? ==> r.value + 1 == currentPage
  {
    if currentPage > 1 then Some(currentPage - 1) else None
  }

  /** The page the Next arrow requests, if any. */
  function NextTarget(currentPage: int, totalPages: int): (r: Option<int>)
    ensures r.Some? <==> currentPage < totalPages
    ensures r.Some? ==> r.value == currentPage + 1 && r.value <= totalPages
  {
    if currentPage < totalPages then Some(currentPage + 1) else None
  }

  /** The page a click on a token requests: an ellipsis is not clickable. */
  function TokenTarget(token: Token): (r: Option<int>)
    ensures r.Some? <==> token.Page?
    ensures r.Some? ==> r.value == token.n
  {
    match token
    case Page(n) => Some(n)
    case Dots => None
  }

  /** The control requests `page` through one of its arrows or one of its tokens. */
  ghost predicate Requests(currentPage: int, totalPages: int, page: int)
  {
    || PreviousTarget(currentPage) == Some(page)
    || NextTarget(currentPage, totalPages) == Some(page)
    || exists i :: 0 <= i < |Range(currentPage, totalPages)| && TokenTarget(Range(currentPage, totalPages)[i]) == Some(page)
  }

  /** From a real current page, every page the control can request is a real page. */
  lemma RequestsStayInRange(currentPage: int, totalPages: int, page: int)
    requires 1 <= currentPage <= totalPages
    requires Requests(currentPage, totalPages, page)
    ensures 1 <= page <= totalPages
  {
  }
}
