/**
 * A user's profile page (src/pages/ProfilePage.tsx): the profile shown, the
 * user's reviews and liked books, and the confirm-then-delete flow for one
 * of the reviews.
 */
module ProfilePage {
  import opened Types

  const ReviewsFetchError := "Något gick fel vid hämtning av recensioner."
  const LikedBooksFetchError := "Något gick fel vid hämtning av gillade böcker."
  const DeleteError := "Ett fel inträffade vid radering av recension"

  /** `reviews.find((review) => review.id === id)`: the first review with
      that id, or nothing when no review has it. */
  function FindReview(s: seq<Review>, id: string): (r: Option<Review>)
    ensures r.None? <==> forall i :: 0 <= i < |s| ==> s[i].id != id
    ensures r.Some? ==> exists i :: 0 <= i < |s| && s[i] == r.value && r.value.id == id
                                    && forall j :: 0 <= j < i ==> s[j].id != id
  {
    if s == [] then None
    else if s[0].id == id then Some(s[0])
    else
      var r := FindReview(s[1..], id);
      FindShift(s, id, r);
      r
  }

  /** A match found in the tail of `s`, after a head that does not match,
      is the first match in `s`. */
  lemma FindShift(s: seq<Review>, id: string, r: Option<Review>)
    requires s != [] && s[0].id != id
    requires r.Some? ==> exists i :: 0 <= i < |s| - 1 && s[1..][i] == r.value && r.value.id == id
                                     && forall j :: 0 <= j < i ==> s[1..][j].id != id
    ensures r.Some? ==> exists i :: 0 <= i < |s| && s[i] == r.value && r.value.id == id
                                    && forall j :: 0 <= j < i ==> s[j].id != id
  {
    if r.Some? {
      var i :| 0 <= i < |s| - 1 && s[1..][i] == r.value && r.value.id == id
               && forall j :: 0 <= j < i ==> s[1..][j].id != id;
      assert s[i + 1] == r.value;
      forall j | 0 <= j < i + 1 ensures s[j].id != id {
        if j > 0 {
          assert s[j] == s[1..][j - 1];
        }
      }
    }
  }

  /** `reviews.filter((review) => review.id !== id)`. */
  function RemoveReview(s: seq<Review>, id: string): (r: seq<Review>)
    ensures forall i :: 0 <= i < |r| ==> r[i].id != id
    ensures Subsequence(r, s)
  {
    if s == [] then []
    else if s[0].id != id then
      var t := RemoveReview(s[1..], id);
      assert ([s[0]] + t)[1..] == t;
      [s[0]] + t
    else RemoveReview(s[1..], id)
  }

  /** Deleting removes every review with the id, as often as it occurs,
      and keeps every other review as often as it occurs. */
  lemma {:induction false} RemoveReviewCounts(s: seq<Review>, id: string, x: Review)
    ensures multiset(RemoveReview(s, id))[x] == if x.id == id then 0 else multiset(s)[x]
  {
    if s != [] {
      assert s == [s[0]] + s[1..];
      RemoveReviewCounts(s[1..], id, x);
    }
  }

  /** Removing an id no review has leaves the list as it was. */
  lemma {:induction false} RemoveAbsent(s: seq<Review>, id: string)
    requires FindReview(s, id).None?
    ensures RemoveReview(s, id) == s
  {
    if s != [] {
      assert FindReview(s[1..], id).None?;
      RemoveAbsent(s[1..], id);
    }
  }

  /** `isOwnProfile`: the signed-in user is the one the route names. */
  predicate IsOwnProfile(user: Option<User>, userId: string) {
    user.Some? && user.value.id == userId
  }

  /** The state of one mounted ProfilePage for the route's `userId`. */
  class ProfilePageState {
    const userId: string
    var profile: Option<User>
    var loading: bool
    var reviews: seq<Review>
    var loadingReviews: bool
    var reviewError: Option<string>
    var showModal: bool
    var reviewToDelete: Option<Review>
    var deleting: bool
    var likedBooks: seq<LikedBook>
    var loadingLikedBooks: bool
    var likedBooksError: Option<string>

    constructor (id: string)
      ensures userId == id && profile == None && loading
      ensures reviews == [] && !loadingReviews && reviewError == None
      ensures !showModal && reviewToDelete == None && !deleting
      ensures likedBooks == [] && !loadingLikedBooks && likedBooksError == None
    {
      userId := id;
      profile := None;
      loading := true;
      reviews := [];
      loadingReviews := false;
      reviewError := None;
      showModal := false;
      reviewToDelete := None;
      deleting := false;
      likedBooks := [];
      loadingLikedBooks := false;
      likedBooksError := None;
    }

    /** `fetchProfile`: the owner sees the session's own user and no request
        is sent; anyone else's profile comes from the reply, and a reply
        that fails leaves the profile as it was. */
    method FetchProfile(user: Option<User>, reply: Response<User>) returns (requested: bool)
      modifies this`profile, this`loading
      ensures !loading
      ensures requested <==> !IsOwnProfile(user, userId)
      ensures IsOwnProfile(user, userId) ==> profile == user
      ensures requested && reply.Ok? ==> profile == Some(reply.body)
      ensures requested && !reply.Ok? ==> profile == old(profile)
    {
      loading := true;
      if user.Some? && user.value.id == userId {
        profile := user;
        requested := false;
      } else {
        requested := true;
        if reply.Ok? {
          profile := Some(reply.body);
        }
      }
      loading := false;
    }

    /** `fetchLikedBooks`: a 2xx reply replaces the list, and leaves an
        earlier error standing; anything else sets the error. */
    method FetchLikedBooks(reply: Response<seq<LikedBook>>)
      modifies this`likedBooks, this`likedBooksError, this`loadingLikedBooks
      ensures !loadingLikedBooks
      ensures reply.Ok? ==> likedBooks == reply.body && likedBooksError == old(likedBooksError)
      ensures !reply.Ok? ==> likedBooks == old(likedBooks) && likedBooksError == Some(LikedBooksFetchError)
    {
      loadingLikedBooks := true;
      if reply.Ok? {
        likedBooks := reply.body;
      } else {
        likedBooksError := Some(LikedBooksFetchError);
      }
      loadingLikedBooks := false;
    }

    /** `fetchReviews`: 2xx replaces the list (an earlier error is not
        cleared), 404 means no reviews and no error, anything else sets the
        error and keeps the list. */
    method FetchReviews(reply: Response<seq<Review>>)
      modifies this`reviews, this`reviewError, this`loadingReviews
      ensures !loadingReviews
      ensures match ClassifyListFetch(reply)
              case Loaded(items) => reviews == items && reviewError == old(reviewError)
              case NoneFound => reviews == [] && reviewError == None
              case LoadFailed => reviews == old(reviews) && reviewError == Some(ReviewsFetchError)
    {
      loadingReviews := true;
      match reply {
        case Ok(data) =>
          reviews := data;
        case Failed(status) =>
          if status == NotFound {
            reviews := [];
            reviewError := None;
          } else {
            reviewError := Some(ReviewsFetchError);
          }
        case Thrown(_) =>
          reviewError := Some(ReviewsFetchError);
      }
      loadingReviews := false;
    }

    /** `handleDeleteRequest`: the first review with the id is picked and
        the confirm dialog opens; an unknown id changes nothing. */
    method HandleDeleteRequest(id: string)
      modifies this`reviewToDelete, this`showModal
      ensures FindReview(reviews, id).Some? ==> reviewToDelete == FindReview(reviews, id) && showModal
      ensures FindReview(reviews, id).None? ==> reviewToDelete == old(reviewToDelete) && showModal == old(showModal)
    {
      var review := FindReview(reviews, id);
      if review.Some? {
        reviewToDelete := review;
        showModal := true;
      }
    }

    method HandleCloseModal()
      modifies this`showModal
      ensures !showModal
    {
      showModal := false;
    }

    /** `handleDelete` once the DELETE request has its reply. With no review
        picked nothing is sent and nothing changes. A 2xx reply removes every
        review with the picked id, closes the dialog and clears the error; a
        non-2xx reply sets the error and keeps list and dialog; a request
        that throws only ends the `deleting` state. */
    method HandleDelete(reply: Response<()>) returns (sent: Option<string>)
      modifies this`reviews, this`showModal, this`reviewError, this`deleting
      ensures sent == if reviewToDelete.Some? then Some(reviewToDelete.value.id) else None
      ensures sent.None? ==> reviews == old(reviews) && showModal == old(showModal)
                             && reviewError == old(reviewError) && deleting == old(deleting)
      ensures sent.Some? ==> !deleting
      ensures sent.Some? && reply.Ok? ==>
                reviews == RemoveReview(old(reviews), sent.value) && !showModal && reviewError == None
      ensures sent.Some? && reply.Failed? ==>
                reviews == old(reviews) && showModal == old(showModal) && reviewError == Some(DeleteError)
      ensures sent.Some? && reply.Thrown? ==>
                reviews == old(reviews) && showModal == old(showModal) && reviewError == old(reviewError)
    {
      sent := None;
      if reviewToDelete.Some? {
        var id := reviewToDelete.value.id;
        sent := Some(id);
        deleting := true;
        match reply {
          case Ok(_) =>
            reviews := RemoveReview(reviews, id);
            showModal := false;
            reviewError := None;
          case Failed(_) =>
            reviewError := Some(DeleteError);
          case Thrown(_) =>
        }
        deleting := false;
      }
    }
  }

  /** Picking a listed review and confirming with a 2xx reply takes out
      exactly the reviews with that id; the rest stay in their order. */
  method DeleteFlow(page: ProfilePageState, id: string, x: Review)
    requires FindReview(page.reviews, id).Some?
    modifies page
    ensures Subsequence(page.reviews, old(page.reviews))
    ensures multiset(page.reviews)[x] == if x.id == id then 0 else multiset(old(page.reviews))[x]
    ensures !page.showModal && page.reviewError == None && !page.deleting
  {
    page.HandleDeleteRequest(id);
    var sent := page.HandleDelete(Ok(()));
    RemoveReviewCounts(old(page.reviews), id, x);
  }
}
