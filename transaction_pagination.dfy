/**
 * The Prev and Next buttons of the transaction list's pager: each asks for a
 * neighbouring page, clamped to the first and the last page.
 */
module TransactionPagination {

  /** The page the Prev button requests: `Math.max(1, currentPage - 1)`. */
  function PrevPage(currentPage: int): (p: int)
    ensures p >= 1
    ensures p == 1 || p == currentPage - 1
    ensures currentPage > 1 <==> p == currentPage - 1
  {
    if currentPage - 1 > 1 then currentPage - 1 else 1
  }

  /** The page the Next button requests: `Math.min(totalPages, currentPage + 1)`. */
  function NextPage(currentPage: int, totalPages: int): (p: int)
    ensures p <= totalPages
    ensures p == totalPages || p == currentPage + 1
    ensures currentPage < totalPages <==> p == currentPage + 1
  {
    if currentPage + 1 < totalPages then currentPage + 1 else totalPages
  }

  /** On a page in range, Prev never moves forward and Next never moves back, and both stay in range. */
  lemma StepsStayInRange(currentPage: int, totalPages: int)
    requires 1 <= currentPage <= totalPages
    ensures 1 <= PrevPage(currentPage) <= currentPage
    ensures currentPage <= NextPage(currentPage, totalPages) <= totalPages
  {
  }

  /** Prev on the first page and Next on the last page stay put. */
  lemma StepsFixedAtEnds(totalPages: int)
    requires 1 <= totalPages
    ensures PrevPage(1) == 1
    ensures NextPage(totalPages, totalPages) == totalPages
  {
  }

  /** Away from the ends, Next undoes Prev and Prev undoes Next. */
  lemma StepsUndoEachOther(currentPage: int, totalPages: int)
    requires 1 <= currentPage <= totalPages
    ensures currentPage > 1 ==> NextPage(PrevPage(currentPage), totalPages) == currentPage
    ensures currentPage < totalPages ==> PrevPage(NextPage(currentPage, totalPages)) == currentPage
  {
  }

  /** The page reached by pressing Next `k` times. */
  function NextTimes(k: nat, currentPage: int, totalPages: int): int {
    if k == 0 then currentPage else NextPage(NextTimes(k - 1, currentPage, totalPages), totalPages)
  }

  /** The page reached by pressing Prev `k` times. */
  function PrevTimes(k: nat, currentPage: int): int {
    if k == 0 then currentPage else PrevPage(PrevTimes(k - 1, currentPage))
  }

  /** Pressing Next `k` times from a page in range advances `k` pages, stopping at the last one. */
  lemma {:induction false} NextTimesClamps(k: nat, currentPage: int, totalPages: int)
    requires 1 <= currentPage <= totalPages
    ensures NextTimes(k, currentPage, totalPages) == if currentPage + k < totalPages then currentPage + k else totalPages
  {
    if k > 0 {
      NextTimesClamps(k - 1, currentPage, totalPages);
    }
  }

  /** Pressing Prev `k` times from a page in range goes back `k` pages, stopping at the first one. */
  lemma {:induction false} PrevTimesClamps(k: nat, currentPage: int)
    requires 1 <= currentPage
    ensures PrevTimes(k, currentPage) == if currentPage - k > 1 then currentPage - k else 1
  {
    if k > 0 {
      PrevTimesClamps(k - 1, currentPage);
    }
  }
}
