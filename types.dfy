/**
 * The record shapes the client exchanges with the review service and the
 * public book-search service, and the shape of a network reply.
 */
module Types {

  datatype Option<+T> = None | Some(value: T) {
    function GetOr(default: T): T {
      match this
      case Some(v) => v
      case None => default
    }
  }

  /** The entry of a string-keyed record or store, as an option. */
  function Lookup(m: map<string, string>, key: string): Option<string> {
    if key in m then Some(m[key]) else None
  }

  /** A value of a JSON field whose type the server does not pin down
      (`is_admin` is declared boolean but compared with the numbers 0 and 1). */
  datatype JsScalar = JsNumber(n: int) | JsBoolean(b: bool) | JsString(s: string) | JsNull

  /** The signed-in user (src/types/auth.types.ts). `avatar_file` and
      `avatar_url` may be null on the wire (ProfilePage's UserProfile). */
  datatype User = User(
    id: string,
    name: string,
    email: string,
    isAdmin: JsScalar,
    bio: string,
    currentRead: string,
    avatarFile: Option<string>,
    avatarUrl: Option<string>,
    createdAt: string,
    updatedAt: string)

  datatype LoginCredentials = LoginCredentials(email: string, password: string)

  datatype RegistrationInfo = RegistrationInfo(name: string, email: string, password: string)

  /** What /login and /register answer with. */
  datatype AuthResponse = AuthResponse(user: User, token: string)

  /** A review (src/types/review.types.ts). The two timestamps are the
      milliseconds `new Date(...).getTime()` yields for them. */
  datatype Review = Review(
    id: string,
    userId: string,
    userName: string,
    bookId: string,
    bookTitle: string,
    rating: int,
    comment: string,
    createdAt: int,
    updatedAt: int)

  /** A search hit of the book-search service (src/types/book.types.ts). */
  datatype ImageLinks = ImageLinks(smallThumbnail: string, thumbnail: string)

  datatype VolumeInfo = VolumeInfo(
    title: string,
    authors: seq<string>,
    publisher: string,
    publishedDate: string,
    description: string,
    pageCount: int,
    printType: string,
    categories: seq<string>,
    imageLinks: ImageLinks,
    language: string)

  datatype Book = Book(id: string, volumeInfo: VolumeInfo)

  /** An entry of a user's liked books, with the three fields the pages read. */
  datatype LikedBook = LikedBook(bookId: string, title: string, thumbnail: string)

  /** How one `fetch` ends: a 2xx reply whose JSON body parsed, a reply
      whose status is not 2xx, or a rejected promise (network failure or a
      body that does not parse) carrying the text `String(error)` yields. */
  datatype Response<+T> = Ok(body: T) | Failed(status: int) | Thrown(text: string)

  datatype HttpMethod = Get | Post | Put | Delete

  const NotFound := 404

  /** True when `fetch` landed on a status other than 2xx and 404, or threw. */
  predicate IsFetchError<T>(reply: Response<T>) {
    reply.Thrown? || (reply.Failed? && reply.status != NotFound)
  }

  /** How the review-list loaders (`fetchReviews` on the home, book and
      profile pages) read a reply: a 2xx reply is the list, a 404 means "no
      reviews yet", and anything else is an error. */
  datatype ListFetch<T> = Loaded(items: seq<T>) | NoneFound | LoadFailed

  function ClassifyListFetch<T>(reply: Response<seq<T>>): (r: ListFetch<T>)
    ensures r.Loaded? <==> reply.Ok?
    ensures r.Loaded? ==> r.items == reply.body
    ensures r.NoneFound? <==> reply == Failed(NotFound)
    ensures r.LoadFailed? <==> IsFetchError(reply)
  {
    match reply
    case Ok(items) => Loaded(items)
    case Failed(status) => if status == NotFound then NoneFound else LoadFailed
    case Thrown(_) => LoadFailed
  }

  /** `a` is `b` with some elements deleted: what `Array.prototype.filter`
      returns is always one. */
  predicate Subsequence<T(==)>(a: seq<T>, b: seq<T>)
    decreases |b|
  {
    if a == [] then true
    else if b == [] then false
    else if a[0] == b[0] then Subsequence(a[1..], b[1..])
    else Subsequence(a, b[1..])
  }

  lemma {:induction false} SubsequenceRefl<T>(s: seq<T>)
    ensures Subsequence(s, s)
  {
    if s != [] {
      SubsequenceRefl(s[1..]);
    }
  }
}
