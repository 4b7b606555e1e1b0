/** The previous/next page buttons shared by the list pages: `Math.max(0, prev - 1)` and
    `Math.min(totalPages - 1, prev + 1)`, shown only while there is more than one page. */
module Pagination {

  /** A valid zero-based page index for a listing of `totalPages` pages. */
  predicate InRange(page: int, totalPages: int) {
    0 <= page < totalPages
  }

  /** The "Anterior" step: the larger of 0 and the page before. */
  function Prev(page: int): (r: int)
    ensures r >= 0 && r >= page - 1
    ensures r == 0 || r == page - 1
  {
    if page - 1 < 0 then 0 else page - 1
  }

  /** The "Siguiente" step: the smaller of the last page and the page after. */
  function Next(page: int, totalPages: int): (r: int)
    ensures r <= totalPages - 1 && r <= page + 1
    ensures r == totalPages - 1 || r == page + 1
  {
    if totalPages - 1 < page + 1 then totalPages - 1 else page + 1
  }

  /** From a valid page both steps land on a valid page, move by at most one, and stand still
      exactly at the end the matching button is disabled for. */
  lemma StepsStayInRange(page: int, totalPages: int)
    requires InRange(page, totalPages)
    ensures InRange(Prev(page), totalPages) && InRange(Next(page, totalPages), totalPages)
    ensures page - 1 <= Prev(page) <= page <= Next(page, totalPages) <= page + 1
    ensures Prev(page) == page <==> page == 0
    ensures Next(page, totalPages) == page <==> page == totalPages - 1
  {
  }

  /** Whatever the current page, the next step never passes the last page, and the previous
      step never goes below the first. */
  lemma StepsClamp(page: int, totalPages: int)
    ensures Next(page, totalPages) <= totalPages - 1
    ensures 0 <= Prev(page)
    ensures page >= totalPages - 1 ==> Next(page, totalPages) == totalPages - 1
  {
  }
}
