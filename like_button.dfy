/**
 * The heart button beside a book (src/components/LikeButton.tsx): the
 * book's like count, whether the signed-in user likes it, and the request a
 * click sends to like or unlike it.
 */
module LikeButton {
  import opened Types

  const LikesFetchError := "Fel vid inläsning av gilla-markeringar"

  /** An entry of the user's liked books as the check reads it. */
  datatype LikedEntry = LikedEntry(bookId: string)

  /** `data.some((likedBook) => likedBook.book_id === bookId)`. */
  function AnyLiked(entries: seq<LikedEntry>, bookId: string): (b: bool)
    ensures b <==> exists i :: 0 <= i < |entries| && entries[i].bookId == bookId
  {
    if entries == [] then false
    else if entries[0].bookId == bookId then true
    else
      var rest := AnyLiked(entries[1..], bookId);
      assert forall i :: 1 <= i < |entries| ==> entries[i] == entries[1..][i - 1];
      rest
  }

  /** The JSON body of a like: `{ book_id, title, thumbnail }`. */
  datatype LikeBody = LikeBody(bookId: string, title: string, thumbnail: string)

  /** The request a click sends, relative to the service's base URL. */
  datatype LikeRequest = LikeRequest(verb: HttpMethod, path: string, body: Option<LikeBody>)

  /** A liked book is unliked with `DELETE /likedbooks/{bookId}` and no
      body; any other book is liked with `POST /likedbooks` carrying it. */
  function RequestFor(liked: bool, bookId: string, title: string, thumbnail: string): (r: LikeRequest)
    ensures liked <==> r.verb == Delete
    ensures !liked <==> r.verb == Post
    ensures r.body.Some? <==> r.verb == Post
    ensures r.body.Some? ==> r.body.value == LikeBody(bookId, title, thumbnail)
    ensures r.path == if liked then "/likedbooks/" + bookId else "/likedbooks"
  {
    var verb := if liked then Delete else Post;
    var endpoint := if liked then "/" + bookId else "";
    LikeRequest(verb, "/likedbooks" + endpoint, if verb == Post then Some(LikeBody(bookId, title, thumbnail)) else None)
  }

  /** The like state after a 2xx reply to a click: the flag flips and the
      count follows it. */
  datatype LikeState = LikeState(liked: bool, likeCount: int)

  function Toggled(s: LikeState): (t: LikeState)
    ensures t.liked != s.liked
    ensures t.likeCount - s.likeCount == if s.liked then -1 else 1
  {
    LikeState(!s.liked, s.likeCount + (if s.liked then -1 else 1))
  }

  /** Two successful clicks in a row bring the button back to where it was. */
  lemma ToggleTwice(s: LikeState)
    ensures Toggled(Toggled(s)) == s
  {
  }

  /** With a count that matches the server's (the user's own like counted
      when `liked`), a successful click keeps it matching. */
  lemma ToggleKeepsCount(s: LikeState, others: nat)
    requires s.likeCount == others + (if s.liked then 1 else 0)
    ensures Toggled(s).likeCount == others + (if Toggled(s).liked then 1 else 0)
    ensures Toggled(s).likeCount >= 0
  {
  }

  /** What the component draws, in the order it decides. */
  datatype View =
    | Spinner
    | ErrorIcon
    | ReadonlyCount(count: int)
    | ToggleButton(filled: bool, count: int)
    | StaticCount(count: int)

  /** Loading wins over an error, an error over `readonly`, and only a
      signed-in user on a writable button gets something to click. */
  function Render(loading: bool, error: string, readonly: bool, user: Option<User>, s: LikeState): (v: View)
    ensures loading <==> v == Spinner
    ensures v == ErrorIcon <==> !loading && error != ""
    ensures v.ReadonlyCount? <==> !loading && error == "" && readonly
    ensures v.ToggleButton? <==> !loading && error == "" && !readonly && user.Some?
    ensures v.ToggleButton? ==> v == ToggleButton(s.liked, s.likeCount)
    ensures !v.Spinner? && !v.ErrorIcon? && !v.ToggleButton? ==> v.count == s.likeCount
  {
    if loading then Spinner
    else if error != "" then ErrorIcon
    else if readonly then ReadonlyCount(s.likeCount)
    else if user.Some? then ToggleButton(s.liked, s.likeCount)
    else StaticCount(s.likeCount)
  }

  /** The JSON body of `GET /book/{bookId}/likes`: `likes_count` may be
      missing or null. */
  datatype LikesReply = LikesReply(likesCount: Option<int>)

  /** One mounted LikeButton for a book. */
  class LikeButtonState {
    const bookId: string
    const title: string
    const thumbnail: string
    const readonly: bool
    var likeCount: int
    var liked: bool
    var loading: bool
    var error: string

    function Like(): LikeState
      reads this
    {
      LikeState(liked, likeCount)
    }

    constructor (id: string, bookTitle: string, bookThumbnail: string, isReadonly: bool)
      ensures bookId == id && title == bookTitle && thumbnail == bookThumbnail && readonly == isReadonly
      ensures likeCount == 0 && !liked && loading && error == ""
    {
      bookId := id;
      title := bookTitle;
      thumbnail := bookThumbnail;
      readonly := isReadonly;
      likeCount := 0;
      liked := false;
      loading := true;
      error := "";
    }

    /** `toggleLike`: nothing happens for a visitor. For a signed-in user
        the request fits the current flag; a 2xx reply toggles the state,
        any other ending leaves it, and loading is over afterwards. */
    method ToggleLike(user: Option<User>, reply: Response<()>) returns (sent: Option<LikeRequest>)
      modifies this`liked, this`likeCount, this`loading
      ensures user.None? ==> sent == None && Like() == old(Like()) && loading == old(loading)
      ensures user.Some? ==> sent == Some(RequestFor(old(liked), bookId, title, thumbnail)) && !loading
      ensures user.Some? && reply.Ok? ==> Like() == Toggled(old(Like()))
      ensures user.Some? && !reply.Ok? ==> Like() == old(Like())
    {
      sent := None;
      if user.Some? {
        loading := true;
        sent := Some(RequestFor(liked, bookId, title, thumbnail));
        if reply.Ok? {
          var wasLiked := liked;
          liked := !wasLiked;
          likeCount := likeCount + (if wasLiked then -1 else 1);
        }
        loading := false;
      }
    }

    /** `checkIfLiked`: only for a signed-in user, and only a readable list
        sets the flag. A non-2xx reply's body is not a list, so `some`
        throws and the flag stays. */
    method CheckIfLiked(user: Option<User>, reply: Response<seq<LikedEntry>>)
      modifies this`liked
      ensures user.Some? && reply.Ok? ==> (liked <==> exists i :: 0 <= i < |reply.body| && reply.body[i].bookId == bookId)
      ensures user.None? || !reply.Ok? ==> liked == old(liked)
    {
      if user.Some? && reply.Ok? {
        liked := AnyLiked(reply.body, bookId);
      }
    }

    /** `fetchLikes`: a 2xx reply sets the count to `likes_count || 0` and
        clears the error; a non-2xx reply sets the error and zeroes the
        count; a request that throws only zeroes the count. */
    method FetchLikes(reply: Response<LikesReply>)
      modifies this`likeCount, this`error, this`loading
      ensures !loading
      ensures reply.Ok? ==> likeCount == reply.body.likesCount.GetOr(0) && error == ""
      ensures reply.Failed? ==> likeCount == 0 && error == LikesFetchError
      ensures reply.Thrown? ==> likeCount == 0 && error == old(error)
    {
      match reply {
        case Ok(data) =>
          likeCount := data.likesCount.GetOr(0);
          error := "";
        case Failed(_) =>
          error := LikesFetchError;
          likeCount := 0;
        case Thrown(_) =>
          likeCount := 0;
      }
      loading := false;
    }
  }
}
