/**
 * The books page (src/pages/BooksPage.tsx): the same search form as the
 * home page and the top list of the most liked books.
 */
module BooksPage {
  import opened Types
  import Js
  import HomePage

  const LikedBooksFetchError := "Något gick fel vid hämtning av mest gillade böcker."

  /** One card of the top list: its rank badge and the book, always drawn
      read-only. */
  datatype RankedCard = RankedCard(rank: int, book: LikedBook, readonly: bool)

  /** `likedBooks.map((likedBook, index) => …)` with ranks counted from
      `first` instead of 1, so that the recursion can carry them. */
  function RankFrom(books: seq<LikedBook>, first: int): (cards: seq<RankedCard>)
    ensures |cards| == |books|
    ensures forall k :: 0 <= k < |cards| ==> cards[k] == RankedCard(first + k, books[k], true)
    decreases |books|
  {
    if books == [] then []
    else [RankedCard(first, books[0], true)] + RankFrom(books[1..], first + 1)
  }

  /** The top list: the k-th book (from 0) gets the badge k + 1, so the
      badges run 1, 2, … in the order the service sent the books. */
  function RankedCards(books: seq<LikedBook>): (cards: seq<RankedCard>)
    ensures |cards| == |books|
    ensures forall k :: 0 <= k < |cards| ==> cards[k].rank == k + 1 && cards[k].book == books[k] && cards[k].readonly
  {
    RankFrom(books, 1)
  }

  /** Different positions get different badges, and the list's own order
      decides them. */
  lemma RanksIncrease(books: seq<LikedBook>, i: int, j: int)
    requires 0 <= i < j < |books|
    ensures RankedCards(books)[i].rank < RankedCards(books)[j].rank
    ensures 1 <= RankedCards(books)[i].rank && RankedCards(books)[j].rank <= |books|
  {
  }

  /** One mounted books page. */
  class BooksPageState {
    var searchTerm: string
    var error: string
    var likedBooks: seq<LikedBook>
    var loadingLikedBooks: bool
    var likedBooksError: Option<string>

    constructor ()
      ensures searchTerm == "" && error == "" && likedBooks == [] && !loadingLikedBooks && likedBooksError == None
    {
      searchTerm := "";
      error := "";
      likedBooks := [];
      loadingLikedBooks := false;
      likedBooksError := None;
    }

    /** `handleSearchChange`: stores the typed term and clears the error. */
    method HandleSearchChange(term: string)
      modifies this`searchTerm, this`error
      ensures searchTerm == term && error == ""
    {
      searchTerm := term;
      error := "";
    }

    /** `handleSubmit`: the home page's decision. */
    method HandleSubmit() returns (navigateTo: Option<string>)
      modifies this`error
      ensures navigateTo.None? <==> Js.IsBlank(searchTerm)
      ensures navigateTo.None? ==> error == HomePage.BlankTermError
      ensures navigateTo.Some? ==> navigateTo.value == HomePage.SearchRoute + searchTerm && error == old(error)
    {
      match HomePage.SubmitSearch(searchTerm) {
        case ShowError(message) =>
          error := message;
          navigateTo := None;
        case NavigateTo(path) =>
          navigateTo := Some(path);
      }
    }

    /** `fetchLikedBooks`: a 2xx reply replaces the list (an earlier error
        stays); anything else sets the error and keeps the list. */
    method FetchLikedBooks(reply: Response<seq<LikedBook>>)
      modifies this`likedBooks, this`likedBooksError, this`loadingLikedBooks
      ensures !loadingLikedBooks
      ensures reply.Ok? ==> likedBooks == reply.body && likedBooksError == old(likedBooksError)
      ensures !reply.Ok? ==> likedBooks == old(likedBooks) && likedBooksError == Some(LikedBooksFetchError)
    {
      loadingLikedBooks := true;
      if reply.Ok? {
        likedBooks := reply.body;
      } else {
        likedBooksError := Some(LikedBooksFetchError);
      }
      loadingLikedBooks := false;
    }
  }
}
