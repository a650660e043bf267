/**
 * The search-results view (src/pages/SearchPage.tsx): an offset `startIndex`
 * that the pager moves by `maxResults` = 10 within `totalItems`, and the
 * state a finished book search leaves behind.
 */
module SearchPage {
  import opened Types
  import Js
  import Pagination

  /** Hits per page, sent to the search service as `maxResults`. */
  const MaxResults: int := 10

  const FetchErrorMessage := "Något gick fel vid inläsningen av böcker"

  /** `handleNextPage`: move one page on only when a hit lies beyond the
      current page. */
  function NextStart(startIndex: int, maxResults: int, totalItems: int): int {
    if startIndex + maxResults < totalItems then startIndex + maxResults else startIndex
  }

  /** `handlePreviousPage`: move one page back only when that does not go
      below zero. */
  function PreviousStart(startIndex: int, maxResults: int): int {
    if startIndex - maxResults >= 0 then startIndex - maxResults else startIndex
  }

  datatype PageStep = NextPage | PreviousPage

  function Step(startIndex: int, step: PageStep, maxResults: int, totalItems: int): int {
    match step
    case NextPage => NextStart(startIndex, maxResults, totalItems)
    case PreviousPage => PreviousStart(startIndex, maxResults)
  }

  /** The offset after clicking through `steps` in order while `totalItems`
      stays put. */
  function Run(startIndex: int, steps: seq<PageStep>, maxResults: int, totalItems: int): int
    decreases |steps|
  {
    if steps == [] then startIndex
    else Run(Step(startIndex, steps[0], maxResults, totalItems), steps[1..], maxResults, totalItems)
  }

  /** An offset at the start of a page. */
  ghost predicate OnPageBoundary(startIndex: int, maxResults: int)
    requires maxResults > 0
  {
    startIndex >= 0 && startIndex % maxResults == 0
  }

  lemma StepKeepsBoundary(startIndex: int, step: PageStep, maxResults: int, totalItems: int)
    requires maxResults > 0 && OnPageBoundary(startIndex, maxResults)
    ensures OnPageBoundary(Step(startIndex, step, maxResults, totalItems), maxResults)
  {
    Js.ShiftMod(startIndex, maxResults);
  }

  /** However the buttons are clicked, the offset stays a non-negative
      multiple of the page size. */
  lemma {:induction false} RunKeepsBoundary(startIndex: int, steps: seq<PageStep>, maxResults: int, totalItems: int)
    requires maxResults > 0 && OnPageBoundary(startIndex, maxResults)
    ensures OnPageBoundary(Run(startIndex, steps, maxResults, totalItems), maxResults)
    decreases |steps|
  {
    if steps != [] {
      StepKeepsBoundary(startIndex, steps[0], maxResults, totalItems);
      RunKeepsBoundary(Step(startIndex, steps[0], maxResults, totalItems), steps[1..], maxResults, totalItems);
    }
  }

  /** However the buttons are clicked, an offset inside the result list
      stays inside it. */
  lemma {:induction false} RunStaysInside(startIndex: int, steps: seq<PageStep>, maxResults: int, totalItems: int)
    requires maxResults > 0 && 0 <= startIndex < totalItems
    ensures 0 <= Run(startIndex, steps, maxResults, totalItems) < totalItems
    decreases |steps|
  {
    if steps != [] {
      RunStaysInside(Step(startIndex, steps[0], maxResults, totalItems), steps[1..], maxResults, totalItems);
    }
  }

  /** From the initial offset 0 with a non-empty result list, every
      reachable offset is a page start inside the list, so the pager always
      shows a non-empty range. */
  lemma ReachableOffsets(steps: seq<PageStep>, totalItems: int)
    requires totalItems > 0
    ensures var s := Run(0, steps, MaxResults, totalItems);
            0 <= s < totalItems && s % MaxResults == 0
            && Pagination.Range(s, MaxResults, totalItems).from <= Pagination.Range(s, MaxResults, totalItems).to
  {
    RunKeepsBoundary(0, steps, MaxResults, totalItems);
    RunStaysInside(0, steps, MaxResults, totalItems);
  }

  /** 47 hits: four clicks on "next" reach offset 40 and a fifth does nothing. */
  lemma FortySevenHits()
    ensures Run(0, [NextPage, NextPage, NextPage, NextPage], MaxResults, 47) == 40
    ensures Run(0, [NextPage, NextPage, NextPage, NextPage, NextPage], MaxResults, 47) == 40
  {
  }

  /** A "next" that moved, undone by "previous", and a "previous" that
      moved, undone by "next". */
  lemma NextPreviousInverse(startIndex: int, maxResults: int, totalItems: int)
    requires maxResults > 0 && startIndex >= 0
    ensures startIndex + maxResults < totalItems ==>
              PreviousStart(NextStart(startIndex, maxResults, totalItems), maxResults) == startIndex
    ensures startIndex - maxResults >= 0 && startIndex < totalItems ==>
              NextStart(PreviousStart(startIndex, maxResults), maxResults, totalItems) == startIndex
  {
  }

  /** The next button is enabled exactly when clicking it moves the offset. */
  lemma NextButtonMatchesHandler(startIndex: int, maxResults: int, totalItems: int)
    requires maxResults > 0
    ensures (!Pagination.NextDisabled(startIndex, maxResults, totalItems))
            <==> (NextStart(startIndex, maxResults, totalItems) != startIndex)
  {
  }

  /** On a page boundary, the previous button is disabled exactly when
      clicking it would do nothing. Off a boundary (offset 5, page 10) the
      button would be enabled and still do nothing, which the boundary
      invariant rules out. */
  lemma PreviousButtonMatchesHandler(startIndex: int, maxResults: int)
    requires maxResults > 0 && OnPageBoundary(startIndex, maxResults)
    ensures Pagination.PreviousDisabled(startIndex) <==> PreviousStart(startIndex, maxResults) == startIndex
  {
  }

  /** The body of a search reply: `items` and `totalItems` may be absent. */
  datatype SearchReply = SearchReply(items: Option<seq<Book>>, totalItems: Option<int>)

  /** The state of one mounted SearchPage. */
  class SearchPageState {
    var searchTerm: Option<string>
    var books: seq<Book>
    var searching: bool
    var error: string
    var startIndex: int
    var totalItems: int

    ghost predicate Valid()
      reads this
    {
      OnPageBoundary(startIndex, MaxResults)
    }

    constructor (term: Option<string>)
      ensures Valid()
      ensures searchTerm == term && books == [] && !searching && error == ""
      ensures startIndex == 0 && totalItems == 0
    {
      searchTerm := term;
      books := [];
      searching := false;
      error := "";
      startIndex := 0;
      totalItems := 0;
    }

    method HandleNextPage()
      requires Valid()
      modifies this`startIndex
      ensures Valid()
      ensures startIndex == NextStart(old(startIndex), MaxResults, totalItems)
    {
      StepKeepsBoundary(startIndex, NextPage, MaxResults, totalItems);
      if startIndex + MaxResults < totalItems {
        startIndex := startIndex + MaxResults;
      }
    }

    method HandlePreviousPage()
      requires Valid()
      modifies this`startIndex
      ensures Valid()
      ensures startIndex == PreviousStart(old(startIndex), MaxResults)
    {
      StepKeepsBoundary(startIndex, PreviousPage, MaxResults, totalItems);
      if startIndex - MaxResults >= 0 {
        startIndex := startIndex - MaxResults;
      }
    }

    /** The effect on `[searchTerm, startIndex]`: a search is sent only for a
        non-empty term. */
    method ShouldFetch() returns (fetch: bool)
      ensures fetch <==> Js.Truthy(searchTerm)
    {
      fetch := searchTerm.Some? && searchTerm.value != "";
    }

    /** `fetchBooks` once its reply is in: a 2xx reply replaces the hits and
        the total and clears the error; anything else sets the error and
        keeps the previous hits and total. */
    method ApplySearchReply(reply: Response<SearchReply>)
      requires Valid()
      modifies this`books, this`totalItems, this`error, this`searching
      ensures Valid() && !searching
      ensures reply.Ok? ==> books == reply.body.items.GetOr([])
                            && totalItems == reply.body.totalItems.GetOr(0) && error == ""
      ensures !reply.Ok? ==> books == old(books) && totalItems == old(totalItems)
                             && error == FetchErrorMessage
    {
      searching := true;
      match reply {
        case Ok(data) =>
          books := data.items.GetOr([]);
          totalItems := data.totalItems.GetOr(0);
          error := "";
        case _ =>
          error := FetchErrorMessage;
      }
      searching := false;
    }

    /** A new route parameter: the offset is not reset. */
    method ChangeSearchTerm(term: Option<string>)
      modifies this`searchTerm
      ensures searchTerm == term
    {
      searchTerm := term;
    }
  }
}
