/**
 * The pager under the search results (src/components/Pagination.tsx): the
 * "Visar resultat {from} - {to} av {totalItems}" line and when its two
 * buttons are disabled. Everything here is a plain expression over the
 * component's props.
 */
module Pagination {

  /** The 1-based positions of the first and last hit shown. */
  datatype ShownRange = ShownRange(from: int, to: int)

  function Min(a: int, b: int): int {
    if a <= b then a else b
  }

  /** `from = startIndex + 1`, `to = Math.min(startIndex + maxResults, totalItems)`:
      the last page shows no position past `totalItems`, no page shows more
      than `maxResults` positions, and the range is non-empty as long as the
      offset lies inside the result list. */
  function Range(startIndex: int, maxResults: int, totalItems: int): (r: ShownRange)
    ensures r.from == startIndex + 1
    ensures r.to <= totalItems && r.to - startIndex <= maxResults
    ensures r.to == totalItems || r.to == startIndex + maxResults
    ensures 0 < maxResults && startIndex < totalItems ==> r.from <= r.to
  {
    ShownRange(startIndex + 1, Min(startIndex + maxResults, totalItems))
  }

  /** `disabled={startIndex === 0}` on the previous button. */
  predicate PreviousDisabled(startIndex: int) {
    startIndex == 0
  }

  /** `disabled={startIndex + maxResults >= totalItems}` on the next button. */
  predicate NextDisabled(startIndex: int, maxResults: int, totalItems: int) {
    startIndex + maxResults >= totalItems
  }
}
