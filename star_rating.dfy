/**
 * The five-star picker (src/components/StarRating.tsx). It keeps no rating
 * of its own: it draws the `rating` its parent passes and reports clicks
 * back through `onRatingChange`.
 */
module StarRating {

  const StarCount := 5

  /** One drawn star: its number (the React key) and whether it is filled
      in the highlight colour. */
  datatype Star = Star(index: int, highlighted: bool)

  /** `renderStars`: the `for` loop over i = 1..5 pushing one star each. */
  method RenderStars(rating: int) returns (stars: seq<Star>)
    ensures |stars| == StarCount
    ensures forall k :: 0 <= k < |stars| ==> stars[k].index == k + 1
    ensures forall k :: 0 <= k < |stars| ==> (stars[k].highlighted <==> k + 1 <= rating)
  {
    stars := [];
    var i := 1;
    while i <= StarCount
      invariant 1 <= i <= StarCount + 1
      invariant |stars| == i - 1
      invariant forall k :: 0 <= k < |stars| ==> stars[k].index == k + 1
      invariant forall k :: 0 <= k < |stars| ==> (stars[k].highlighted <==> k + 1 <= rating)
    {
      stars := stars + [Star(i, i <= rating)];
      i := i + 1;
    }
  }

  /** `handleClick(i)`: the value reported to the parent for a click on
      the star numbered `index`. */
  function RatingOfClick(star: Star): int {
    star.index
  }

  /** Every star that can be clicked reports its own number, so a rating
      set by clicking is one of 1..5; clicking star k highlights exactly
      the stars 1..k on the next draw. */
  method ClickedRating(rating: int, k: int) returns (reported: int, next: seq<Star>)
    requires 0 <= k < StarCount
    ensures reported == k + 1 && 1 <= reported <= StarCount
    ensures |next| == StarCount
    ensures forall j :: 0 <= j < StarCount ==> (next[j].highlighted <==> j <= k)
  {
    var stars := RenderStars(rating);
    reported := RatingOfClick(stars[k]);
    next := RenderStars(reported);
  }
}
