/**
 * The start page (src/pages/HomePage.tsx): a search form that refuses a
 * blank term, and the latest reviews shown in a carousel.
 */
module HomePage {
  import opened Types
  import Js
  import Carousel

  const BlankTermError := "Söktermen kan inte vara tom"
  const ReviewsFetchError := "Ett fel inträffade vid inläsning av recensioner"
  const SearchRoute := "/search/"

  /** What a submitted search does: show an error or go to the results. */
  datatype SearchSubmit = ShowError(message: string) | NavigateTo(path: string)

  /** The submit decision of the search form on the home and books pages:
      a term that trims to nothing is refused, any other term is put in the
      path as typed, untrimmed. */
  function SubmitSearch(term: string): (r: SearchSubmit)
    ensures r.ShowError? <==> Js.IsBlank(term)
    ensures r.ShowError? ==> r.message == BlankTermError
    ensures r.NavigateTo? ==> |r.path| > |SearchRoute| && r.path[..|SearchRoute|] == SearchRoute
  {
    if Js.IsBlank(term) then ShowError(BlankTermError) else NavigateTo(SearchRoute + term)
  }

  /** A term is refused exactly when every character of it is white space,
      and the path of an accepted one is `/search/` followed by the term as
      typed, untrimmed. */
  lemma SubmitSearchRoundTrip(term: string)
    ensures SubmitSearch(term).ShowError? <==> forall i :: 0 <= i < |term| ==> Js.IsWhitespace(term[i])
    ensures SubmitSearch(term).NavigateTo? ==> SubmitSearch(term).path[|SearchRoute|..] == term
  {
    Js.BlankIffAllWhitespace(term);
    if SubmitSearch(term).NavigateTo? {
      assert (SearchRoute + term)[|SearchRoute|..] == term;
    }
  }

  /** What the section under "Senaste recensionerna" shows once the error
      and spinner lines are drawn. */
  datatype ReviewSection = CarouselOf(slides: int) | NoReviewsNote | NothingMore

  /** `reviews.length > 0 ? <Carousel/> : (!loadingReviews && <note/>)`:
      the carousel is only mounted with at least one slide. */
  function Section(reviews: seq<Review>, loading: bool): (s: ReviewSection)
    ensures s.CarouselOf? <==> |reviews| > 0
    ensures s.CarouselOf? ==> s.slides == |reviews| && s.slides > 0
    ensures s == NoReviewsNote <==> reviews == [] && !loading
  {
    if |reviews| > 0 then CarouselOf(|reviews|)
    else if !loading then NoReviewsNote
    else NothingMore
  }

  /** One mounted home page. */
  class HomePageState {
    var searchTerm: string
    var error: string
    var reviews: seq<Review>
    var loadingReviews: bool
    var reviewError: Option<string>

    constructor ()
      ensures searchTerm == "" && error == "" && reviews == [] && !loadingReviews && reviewError == None
    {
      searchTerm := "";
      error := "";
      reviews := [];
      loadingReviews := false;
      reviewError := None;
    }

    /** `handleSearchChange`: stores the typed term and clears the error. */
    method HandleSearchChange(term: string)
      modifies this`searchTerm, this`error
      ensures searchTerm == term && error == ""
    {
      searchTerm := term;
      error := "";
    }

    /** `handleSubmit`: a blank term sets the error and stays; any other
        term navigates to its results and leaves the error as it was. */
    method HandleSubmit() returns (navigateTo: Option<string>)
      modifies this`error
      ensures navigateTo.None? <==> Js.IsBlank(searchTerm)
      ensures navigateTo.None? ==> error == BlankTermError
      ensures navigateTo.Some? ==> navigateTo.value == SearchRoute + searchTerm && error == old(error)
    {
      match SubmitSearch(searchTerm) {
        case ShowError(message) =>
          error := message;
          navigateTo := None;
        case NavigateTo(path) =>
          navigateTo := Some(path);
      }
    }

    /** `fetchReviews`: 2xx replaces the list and clears the error, 404
        means no reviews and no error, anything else sets the error and
        keeps the list. */
    method FetchReviews(reply: Response<seq<Review>>)
      modifies this`reviews, this`reviewError, this`loadingReviews
      ensures !loadingReviews
      ensures match ClassifyListFetch(reply)
              case Loaded(items) => reviews == items && reviewError == None
              case NoneFound => reviews == [] && reviewError == None
              case LoadFailed => reviews == old(reviews) && reviewError == Some(ReviewsFetchError)
    {
      loadingReviews := true;
      match reply {
        case Ok(data) =>
          reviews := data;
          reviewError := None;
        case Failed(status) =>
          if status == NotFound {
            reviews := [];
            reviewError := None;
          } else {
            reviewError := Some(ReviewsFetchError);
          }
        case Thrown(_) =>
          reviewError := Some(ReviewsFetchError);
      }
      loadingReviews := false;
    }

    /** Mounting the carousel the page draws: one slide per review, and
        none at all for an empty list, so the carousel's cursor starts in
        range. */
    method MountCarousel() returns (c: Carousel.CarouselState?)
      ensures c == null <==> !Section(reviews, loadingReviews).CarouselOf?
      ensures c != null ==> fresh(c) && c.Valid() && c.slides == |reviews| && c.currentIndex == 0
    {
      match Section(reviews, loadingReviews) {
        case CarouselOf(n) =>
          c := new Carousel.CarouselState(n);
        case NoReviewsNote =>
          c := null;
        case NothingMore =>
          c := null;
      }
    }
  }
}
