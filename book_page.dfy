/**
 * The review list on a book's page (src/pages/BookPage.tsx): the reviews
 * loaded for the book, kept or dropped by the rating filter and then put in
 * the order the sort select asks for.
 *
 * `Array.prototype.sort` is stable (section 23.1.3.30 of ECMA-262, 2023
 * edition); it is modelled by a stable insertion sort on the key each
 * comparator subtracts, so `(a, b) => b.rating - a.rating` sorts ascending
 * on `-rating`.
 */
module BookPage {
  import opened Types
  import Js

  const ReviewsFetchError := "Ett fel inträffade vid inläsning av recensioner"

  /** The four orders the page knows. */
  datatype SortKey = Newest | Oldest | HighestRating | LowestRating

  /** The number each comparator subtracts: `compare(a, b) = KeyOf(a) - KeyOf(b)`. */
  function KeyOf(k: SortKey, r: Review): int {
    match k
    case Newest => -r.createdAt
    case Oldest => r.createdAt
    case HighestRating => -r.rating
    case LowestRating => r.rating
  }

  ghost predicate Sorted(s: seq<Review>, k: SortKey) {
    forall i, j :: 0 <= i < j < |s| ==> KeyOf(k, s[i]) <= KeyOf(k, s[j])
  }

  /** Every review of `s` has a key of at least `b`. */
  ghost predicate AllAtLeast(s: seq<Review>, k: SortKey, b: int) {
    forall j :: 0 <= j < |s| ==> b <= KeyOf(k, s[j])
  }

  lemma SortedCons(a: Review, t: seq<Review>, k: SortKey)
    ensures Sorted([a] + t, k) <==> AllAtLeast(t, k, KeyOf(k, a)) && Sorted(t, k)
  {
    var s := [a] + t;
    if AllAtLeast(t, k, KeyOf(k, a)) && Sorted(t, k) {
      forall i, j | 0 <= i < j < |s| ensures KeyOf(k, s[i]) <= KeyOf(k, s[j]) {
        if i > 0 {
          assert s[i] == t[i - 1] && s[j] == t[j - 1];
        }
      }
    }
    if Sorted(s, k) {
      forall j | 0 <= j < |t| ensures KeyOf(k, a) <= KeyOf(k, t[j]) {
        assert s[0] == a && s[j + 1] == t[j];
      }
      forall i, j | 0 <= i < j < |t| ensures KeyOf(k, t[i]) <= KeyOf(k, t[j]) {
        assert s[i + 1] == t[i] && s[j + 1] == t[j];
      }
    }
  }

  /** Places `x` before the first review whose key is not below its own. */
  function Insert(x: Review, s: seq<Review>, k: SortKey): (r: seq<Review>)
    ensures multiset(r) == multiset(s) + multiset{x}
  {
    if s == [] then [x]
    else if KeyOf(k, x) <= KeyOf(k, s[0]) then [x] + s
    else
      assert s == [s[0]] + s[1..];
      [s[0]] + Insert(x, s[1..], k)
  }

  lemma {:induction false} InsertBound(x: Review, s: seq<Review>, k: SortKey, b: int)
    requires AllAtLeast(s, k, b) && b <= KeyOf(k, x)
    ensures AllAtLeast(Insert(x, s, k), k, b)
    decreases |s|
  {
    if s != [] && KeyOf(k, s[0]) < KeyOf(k, x) {
      InsertBound(x, s[1..], k, b);
      var t := Insert(x, s[1..], k);
      assert Insert(x, s, k) == [s[0]] + t;
      forall j | 0 <= j < |t| + 1
        ensures b <= KeyOf(k, ([s[0]] + t)[j])
      {
        if j > 0 {
          assert ([s[0]] + t)[j] == t[j - 1];
        }
      }
    }
  }

  lemma {:induction false} InsertSorted(x: Review, s: seq<Review>, k: SortKey)
    requires Sorted(s, k)
    ensures Sorted(Insert(x, s, k), k)
    decreases |s|
  {
    if s == [] {
    } else if KeyOf(k, x) <= KeyOf(k, s[0]) {
      SortedCons(x, s, k);
    } else {
      assert s == [s[0]] + s[1..];
      SortedCons(s[0], s[1..], k);
      InsertSorted(x, s[1..], k);
      InsertBound(x, s[1..], k, KeyOf(k, s[0]));
      SortedCons(s[0], Insert(x, s[1..], k), k);
    }
  }

  /** The stable sort of `s` on key `k`: a permutation of `s` in key order. */
  function SortBy(s: seq<Review>, k: SortKey): (r: seq<Review>)
    ensures Sorted(r, k)
    ensures multiset(r) == multiset(s)
  {
    if s == [] then [] else
      assert s == [s[0]] + s[1..];
      InsertSorted(s[0], SortBy(s[1..], k), k);
      Insert(s[0], SortBy(s[1..], k), k)
  }

  /** The reviews of `s` whose key is `v`, in their order in `s`. */
  function WithKey(s: seq<Review>, k: SortKey, v: int): seq<Review> {
    if s == [] then []
    else if KeyOf(k, s[0]) == v then [s[0]] + WithKey(s[1..], k, v)
    else WithKey(s[1..], k, v)
  }

  lemma {:induction false} InsertWithKey(x: Review, s: seq<Review>, k: SortKey, v: int)
    ensures WithKey(Insert(x, s, k), k, v) == (if KeyOf(k, x) == v then [x] else []) + WithKey(s, k, v)
    decreases |s|
  {
    if s == [] {
    } else if KeyOf(k, x) <= KeyOf(k, s[0]) {
      assert ([x] + s)[1..] == s;
    } else {
      var t := Insert(x, s[1..], k);
      InsertWithKey(x, s[1..], k, v);
      assert Insert(x, s, k) == [s[0]] + t;
      assert ([s[0]] + t)[1..] == t;
    }
  }

  /** Stability: the reviews that share a key come out of the sort in the
      order they went in. */
  lemma {:induction false} SortStable(s: seq<Review>, k: SortKey, v: int)
    ensures WithKey(SortBy(s, k), k, v) == WithKey(s, k, v)
  {
    if s != [] {
      SortStable(s[1..], k, v);
      InsertWithKey(s[0], SortBy(s[1..], k), k, v);
    }
  }

  /** `review.rating === rating`, where the filter may hold NaN, which
      equals nothing. */
  predicate Matches(rating: Js.ParsedInt, value: int) {
    rating == Js.Int(value)
  }

  /** `reviews.filter((review) => review.rating === rating)`: only reviews
      with that rating, in their order in `s`. */
  function KeepRating(s: seq<Review>, rating: Js.ParsedInt): (r: seq<Review>)
    ensures forall i :: 0 <= i < |r| ==> Matches(rating, r[i].rating)
    ensures Subsequence(r, s)
  {
    if s == [] then []
    else if Matches(rating, s[0].rating) then
      var t := KeepRating(s[1..], rating);
      assert ([s[0]] + t)[1..] == t;
      [s[0]] + t
    else
      KeepRating(s[1..], rating)
  }

  /** Every review with the rating is kept, as often as it occurs in `s`,
      and no other. */
  lemma {:induction false} KeepRatingCounts(s: seq<Review>, rating: Js.ParsedInt, x: Review)
    ensures multiset(KeepRating(s, rating))[x] == if Matches(rating, x.rating) then multiset(s)[x] else 0
  {
    if s != [] {
      assert s == [s[0]] + s[1..];
      KeepRatingCounts(s[1..], rating, x);
    }
  }

  /** `filterReviewsByRating`: no filter (`null`) keeps the list as it is,
      the same array. */
  function FilterReviewsByRating(s: seq<Review>, rating: Option<Js.ParsedInt>): (r: seq<Review>)
    ensures rating.None? ==> r == s
    ensures rating.Some? ==> forall x :: x in r <==> x in s && Matches(rating.value, x.rating)
    ensures rating.Some? ==> forall x :: multiset(r)[x] == if Matches(rating.value, x.rating) then multiset(s)[x] else 0
    ensures Subsequence(r, s)
    ensures rating == Some(Js.NaN) ==> r == []
  {
    match rating
    case None =>
      SubsequenceRefl(s);
      s
    case Some(p) =>
      var r := KeepRating(s, p);
      forall x ensures multiset(r)[x] == if Matches(p, x.rating) then multiset(s)[x] else 0 {
        KeepRatingCounts(s, p, x);
      }
      r
  }

  /** The `case` labels of `sortReviews` as written, with `'higestRating'`. */
  function SortCaseAsWritten(option: string): Option<SortKey> {
    if option == "newest" then Some(Newest)
    else if option == "oldest" then Some(Oldest)
    else if option == "higestRating" then Some(HighestRating)
    else if option == "lowestRating" then Some(LowestRating)
    else None
  }

  /** `sortReviews` as written: an option that matches no label returns the
      list untouched, and so does "highestRating", which no label matches. */
  function SortReviewsAsWritten(s: seq<Review>, option: string): (r: seq<Review>)
    ensures multiset(r) == multiset(s)
    ensures option == "highestRating" ==> r == s
    ensures option == "newest" ==> forall i, j :: 0 <= i < j < |r| ==> r[i].createdAt >= r[j].createdAt
    ensures option == "oldest" ==> forall i, j :: 0 <= i < j < |r| ==> r[i].createdAt <= r[j].createdAt
    ensures option == "lowestRating" ==> forall i, j :: 0 <= i < j < |r| ==> r[i].rating <= r[j].rating
  {
    match SortCaseAsWritten(option)
    case None => s
    case Some(k) =>
      var r := SortBy(s, k);
      assert forall i, j :: 0 <= i < j < |r| ==> KeyOf(k, r[i]) <= KeyOf(k, r[j]);
      r
  }

  /** The `value`s of the sort select's four options. */
  const SelectOptions: seq<string> := ["newest", "oldest", "highestRating", "lowestRating"]

  /** The case labels as intended: the ones the select sends. */
  function SortCase(option: string): (k: Option<SortKey>)
    ensures option in SelectOptions <==> k.Some?
  {
    if option == "newest" then Some(Newest)
    else if option == "oldest" then Some(Oldest)
    else if option == "highestRating" then Some(HighestRating)
    else if option == "lowestRating" then Some(LowestRating)
    else None
  }

  /** `sortReviews` with the label corrected: a permutation of its input in
      the chosen order, and the input itself for an unknown option. */
  function SortReviews(s: seq<Review>, option: string): (r: seq<Review>)
    ensures multiset(r) == multiset(s)
    ensures option == "newest" ==> forall i, j :: 0 <= i < j < |r| ==> r[i].createdAt >= r[j].createdAt
    ensures option == "oldest" ==> forall i, j :: 0 <= i < j < |r| ==> r[i].createdAt <= r[j].createdAt
    ensures option == "highestRating" ==> forall i, j :: 0 <= i < j < |r| ==> r[i].rating >= r[j].rating
    ensures option == "lowestRating" ==> forall i, j :: 0 <= i < j < |r| ==> r[i].rating <= r[j].rating
    ensures option !in SelectOptions ==> r == s
  {
    match SortCase(option)
    case None => s
    case Some(k) =>
      var r := SortBy(s, k);
      assert forall i, j :: 0 <= i < j < |r| ==> KeyOf(k, r[i]) <= KeyOf(k, r[j]);
      r
  }

  function SampleReview(id: string, rating: int): Review {
    Review(id, "u", "Name", "b", "Title", rating, "Bra bok", 0, 0)
  }

  /** As written, choosing "Högst betyg" leaves every list as it is: two
      reviews rated 1 and then 5 stay in that order, while the corrected
      sort puts the 5 first. */
  lemma HighestRatingIgnoredAsWritten(s: seq<Review>)
    ensures SortReviewsAsWritten(s, "highestRating") == s
    ensures var two := [SampleReview("a", 1), SampleReview("b", 5)];
            SortReviewsAsWritten(two, "highestRating") == two
            && SortReviewsAsWritten(two, "highestRating")[0].rating < SortReviewsAsWritten(two, "highestRating")[1].rating
            && SortReviews(two, "highestRating") == [SampleReview("b", 5), SampleReview("a", 1)]
  {
    var two := [SampleReview("a", 1), SampleReview("b", 5)];
    var sorted := SortReviews(two, "highestRating");
    assert multiset(sorted) == multiset(two);
    assert |sorted| == 2;
    assert SampleReview("a", 1) in multiset(sorted) && SampleReview("b", 5) in multiset(sorted);
    assert sorted[0].rating >= sorted[1].rating;
    assert sorted == [sorted[0], sorted[1]];
  }

  /** The intended labels and the written ones agree on every other option. */
  lemma LabelsAgreeElsewhere(option: string)
    requires option != "highestRating" && option != "higestRating"
    ensures SortReviewsAsWritten(option := option, s := []) == SortReviews([], option)
    ensures SortCaseAsWritten(option) == SortCase(option)
  {
  }

  lemma {:induction false} KeepBound(s: seq<Review>, rating: Js.ParsedInt, k: SortKey, b: int)
    requires AllAtLeast(s, k, b)
    ensures AllAtLeast(KeepRating(s, rating), k, b)
  {
    if s != [] {
      KeepBound(s[1..], rating, k, b);
      var t := KeepRating(s[1..], rating);
      assert forall j :: 1 <= j < |t| + 1 ==> ([s[0]] + t)[j] == t[j - 1];
    }
  }

  lemma {:induction false} KeepSorted(s: seq<Review>, rating: Js.ParsedInt, k: SortKey)
    requires Sorted(s, k)
    ensures Sorted(KeepRating(s, rating), k)
  {
    if s != [] {
      assert s == [s[0]] + s[1..];
      SortedCons(s[0], s[1..], k);
      KeepSorted(s[1..], rating, k);
      KeepBound(s[1..], rating, k, KeyOf(k, s[0]));
      SortedCons(s[0], KeepRating(s[1..], rating), k);
    }
  }

  /** A review whose key is at most every key of `t` goes in front. */
  lemma InsertFront(x: Review, t: seq<Review>, k: SortKey)
    requires AllAtLeast(t, k, KeyOf(k, x))
    ensures Insert(x, t, k) == [x] + t
  {
    if t != [] {
      assert KeyOf(k, x) <= KeyOf(k, t[0]);
    }
  }

  /** In a sorted list every key is at least the first one. */
  lemma SortedHeadBound(s: seq<Review>, k: SortKey, b: int)
    requires Sorted(s, k) && s != [] && b <= KeyOf(k, s[0])
    ensures AllAtLeast(s, k, b)
  {
    forall j | 0 <= j < |s| ensures b <= KeyOf(k, s[j]) {
      if j > 0 {
        assert KeyOf(k, s[0]) <= KeyOf(k, s[j]);
      }
    }
  }

  /** Filtering after inserting a review that goes in front. */
  lemma KeepInsertAtFront(x: Review, s: seq<Review>, rating: Js.ParsedInt, k: SortKey)
    requires Sorted(s, k) && (s == [] || KeyOf(k, x) <= KeyOf(k, s[0]))
    ensures KeepRating(Insert(x, s, k), rating)
            == if Matches(rating, x.rating) then Insert(x, KeepRating(s, rating), k) else KeepRating(s, rating)
  {
    assert Insert(x, s, k) == [x] + s;
    assert ([x] + s)[1..] == s;
    if s != [] {
      SortedHeadBound(s, k, KeyOf(k, x));
    }
    KeepBound(s, rating, k, KeyOf(k, x));
    InsertFront(x, KeepRating(s, rating), k);
  }

  /** Filtering after inserting a review behind the head, given the same
      fact for the tail. */
  lemma KeepInsertBehind(x: Review, s: seq<Review>, rating: Js.ParsedInt, k: SortKey)
    requires s != [] && KeyOf(k, s[0]) < KeyOf(k, x)
    requires KeepRating(Insert(x, s[1..], k), rating)
             == if Matches(rating, x.rating) then Insert(x, KeepRating(s[1..], rating), k) else KeepRating(s[1..], rating)
    ensures KeepRating(Insert(x, s, k), rating)
            == if Matches(rating, x.rating) then Insert(x, KeepRating(s, rating), k) else KeepRating(s, rating)
  {
    var t := Insert(x, s[1..], k);
    assert Insert(x, s, k) == [s[0]] + t;
    assert ([s[0]] + t)[1..] == t;
    var w := KeepRating(s[1..], rating);
    if Matches(rating, s[0].rating) {
      assert KeepRating(s, rating) == [s[0]] + w;
      assert ([s[0]] + w)[1..] == w;
      assert ([s[0]] + w)[0] == s[0];
    }
  }

  /** Filtering commutes with inserting into a sorted list. */
  lemma {:induction false} KeepInsert(x: Review, s: seq<Review>, rating: Js.ParsedInt, k: SortKey)
    requires Sorted(s, k)
    ensures KeepRating(Insert(x, s, k), rating)
            == if Matches(rating, x.rating) then Insert(x, KeepRating(s, rating), k) else KeepRating(s, rating)
    decreases |s|
  {
    if s == [] || KeyOf(k, x) <= KeyOf(k, s[0]) {
      KeepInsertAtFront(x, s, rating, k);
    } else {
      assert s == [s[0]] + s[1..];
      SortedCons(s[0], s[1..], k);
      KeepInsert(x, s[1..], rating, k);
      KeepInsertBehind(x, s, rating, k);
    }
  }

  /** Filtering and sorting commute: the page's filter-then-sort shows the
      same list as sorting everything and then filtering. */
  lemma {:induction false} FilterSortCommute(s: seq<Review>, rating: Js.ParsedInt, k: SortKey)
    ensures SortBy(KeepRating(s, rating), k) == KeepRating(SortBy(s, k), rating)
  {
    if s != [] {
      FilterSortCommute(s[1..], rating, k);
      KeepInsert(s[0], SortBy(s[1..], k), rating, k);
    }
  }

  /** `handleFilterRatingChange`: `'all'` clears the filter, any other value
      is read with `parseInt(value, 10)`. */
  function FilterValue(value: string): Option<Js.ParsedInt> {
    if value == "all" then None else Some(Js.ParseInt(value))
  }

  /** Each option of the rating select sets the filter to the rating it
      shows. */
  lemma FilterSelectRoundTrip(n: nat)
    requires 1 <= n <= 5
    ensures FilterValue("all") == None
    ensures FilterValue(Js.Decimal(n)) == Some(Js.Int(n))
  {
    Js.ParseIntDecimal(n);
  }

  /** The state of one mounted BookPage's review section. */
  class BookPageState {
    var reviews: seq<Review>
    var loadingReviews: bool
    var reviewError: Option<string>
    var sortOption: string
    var filterRating: Option<Js.ParsedInt>

    constructor ()
      ensures reviews == [] && !loadingReviews && reviewError == None
      ensures sortOption == "newest" && filterRating == None
    {
      reviews := [];
      loadingReviews := false;
      reviewError := None;
      sortOption := "newest";
      filterRating := None;
    }

    /** `fetchReviews` once its reply is in. */
    method FetchReviews(reply: Response<seq<Review>>)
      modifies this`reviews, this`reviewError, this`loadingReviews
      ensures !loadingReviews
      ensures match ClassifyListFetch(reply)
              case Loaded(items) => reviews == items && reviewError == None
              case NoneFound => reviews == [] && reviewError == None
              case LoadFailed => reviews == old(reviews) && reviewError == Some(ReviewsFetchError)
    {
      loadingReviews := true;
      match reply {
        case Ok(data) =>
          reviews := data;
          reviewError := None;
        case Failed(status) =>
          if status == NotFound {
            reviews := [];
            reviewError := None;
          } else {
            reviewError := Some(ReviewsFetchError);
          }
        case Thrown(_) =>
          reviewError := Some(ReviewsFetchError);
      }
      loadingReviews := false;
    }

    /** `handleReviewCreated`: the new review goes first. */
    method HandleReviewCreated(newReview: Review)
      modifies this`reviews
      ensures reviews == [newReview] + old(reviews)
    {
      reviews := [newReview] + reviews;
    }

    method HandleFilterRatingChange(value: string)
      modifies this`filterRating
      ensures filterRating == FilterValue(value)
    {
      filterRating := if value == "all" then None else Some(Js.ParseInt(value));
    }

    method HandleSortChange(option: string)
      modifies this`sortOption
      ensures sortOption == option
    {
      sortOption := option;
    }

    /** The list a render shows, with `sortReviews` as written: "Högst
        betyg" shows the (filtered) reviews in their stored order. With no
        filter, `filterReviewsByRating` hands back the state array itself
        and `sort` reorders it in place, so the stored reviews take the
        shown order too. */
    method VisibleReviewsAsWritten() returns (shown: seq<Review>)
      modifies this`reviews
      ensures shown == SortReviewsAsWritten(FilterReviewsByRating(old(reviews), filterRating), sortOption)
      ensures reviews == if filterRating.None? then shown else old(reviews)
      ensures sortOption == "highestRating" ==> shown == FilterReviewsByRating(old(reviews), filterRating) && reviews == old(reviews)
      ensures multiset(reviews) == multiset(old(reviews))
    {
      var filtered := FilterReviewsByRating(reviews, filterRating);
      shown := SortReviewsAsWritten(filtered, sortOption);
      if filterRating.None? {
        reviews := shown;
      }
    }

    /** The same render with the case label corrected: every option of
        the select orders the shown list. */
    method VisibleReviews() returns (shown: seq<Review>)
      modifies this`reviews
      ensures shown == SortReviews(FilterReviewsByRating(old(reviews), filterRating), sortOption)
      ensures reviews == if filterRating.None? then shown else old(reviews)
      ensures multiset(reviews) == multiset(old(reviews))
    {
      var filtered := FilterReviewsByRating(reviews, filterRating);
      shown := SortReviews(filtered, sortOption);
      if filterRating.None? {
        reviews := shown;
      }
    }
  }
}
