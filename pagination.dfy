/**
 * The pagination bar (components/ui/pagination.tsx): Prev/Next buttons that
 * ask the parent for a neighbouring page, hidden when there is at most one page.
 */
module Pagination {
  import opened Wrappers

  /** The bar renders only when there is more than one page. */
  predicate Rendered(totalPages: int)
  {
    totalPages > 1
  }

  /** The page the Prev button asks for, or None when clicking it requests nothing (or the bar is hidden). */
  function PrevRequest(currentPage: int, totalPages: int): (r: Option<int>)
    ensures r.Some? <==> Rendered(totalPages) && currentPage > 1
    ensures r.Some? ==> r.value == currentPage - 1
  {
    if !Rendered(totalPages) then None
    else if currentPage > 1 then Some(currentPage - 1)
    else None
  }

  /** The page the Next button asks for, or None when clicking it requests nothing (or the bar is hidden). */
  function NextRequest(currentPage: int, totalPages: int): (r: Option<int>)
    ensures r.Some? <==> Rendered(totalPages) && currentPage < totalPages
    ensures r.Some? ==> r.value == currentPage + 1
  {
    if !Rendered(totalPages) then None
    else if currentPage < totalPages then Some(currentPage + 1)
    else None
  }

  /** The Prev button's `disabled` attribute. */
  predicate PrevDisabled(currentPage: int)
  {
    currentPage == 1
  }

  /** The Next button's `disabled` attribute. */
  predicate NextDisabled(currentPage: int, totalPages: int)
  {
    currentPage == totalPages
  }

  /** From a page within range, both buttons only ever ask for a page within range. */
  lemma RequestsStayInRange(currentPage: int, totalPages: int)
    requires 1 <= currentPage <= totalPages
    ensures PrevRequest(currentPage, totalPages).Some? ==> 1 <= PrevRequest(currentPage, totalPages).value <= totalPages
    ensures NextRequest(currentPage, totalPages).Some? ==> 1 <= NextRequest(currentPage, totalPages).value <= totalPages
  {
  }

  /** With the bar shown and the page in range, a button is disabled exactly when clicking it would request nothing. */
  lemma DisabledIffNoRequest(currentPage: int, totalPages: int)
    requires Rendered(totalPages) && 1 <= currentPage <= totalPages
    ensures PrevDisabled(currentPage) <==> PrevRequest(currentPage, totalPages).None?
    ensures NextDisabled(currentPage, totalPages) <==> NextRequest(currentPage, totalPages).None?
  {
  }

  /**
   * The page reached by clicking Next `clicks` times when the parent always
   * moves to the requested page: it advances one page per click and stops at
   * the last page.
   */
  function WalkNext(currentPage: int, totalPages: int, clicks: nat): (r: int)
    requires 1 <= currentPage <= totalPages
    ensures 1 <= r <= totalPages
    ensures r == if currentPage + clicks <= totalPages then currentPage + clicks else totalPages
    decreases clicks
  {
    if clicks == 0 then currentPage
    else match NextRequest(currentPage, totalPages)
      case None => currentPage
      case Some(p) => WalkNext(p, totalPages, clicks - 1)
  }

  /** The page reached by clicking Prev `clicks` times: back one page per click, stopping at page 1. */
  function WalkPrev(currentPage: int, totalPages: int, clicks: nat): (r: int)
    requires 1 <= currentPage <= totalPages
    ensures 1 <= r <= totalPages
    ensures r == if currentPage - clicks >= 1 then currentPage - clicks else 1
    decreases clicks
  {
    if clicks == 0 then currentPage
    else match PrevRequest(currentPage, totalPages)
      case None => currentPage
      case Some(p) => WalkPrev(p, totalPages, clicks - 1)
  }
}
