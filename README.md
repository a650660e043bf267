# Bokhörnan client rules, modelled in Dafny

This project models the deterministic rules and state transitions of the
Bokhörnan React client. That client is a web front end where readers search
the Google Books catalogue, like books, and write, edit and delete reviews
through the book-review service. The modelled parts are:

- the offset pagination of the search results and the pager under them;
- how a book page's reviews are filtered by rating and sorted, and how a new
  review is prepended;
- removing a review from the profile page;
- the review carousel's cursor on the home page;
- the session held by the authentication context, which is the signed-in
  `user` plus the `bookToken` entry of the browser's key/value storage, and
  the admin route guard over it;
- the like button;
- the Yup validation schemas and error records of the review form, the
  review edit page, the sign-up page and the profile edit page, including
  the avatar checks;
- the star rating;
- the blank-search check and the list loaders of the home and books pages.

Modules follow the source files, one module per file:
`SearchPage`, `Pagination`, `BookPage`, `Carousel`, `AuthContext`,
`ProtectedAdminRoute`, `ProfilePage`, `LikeButton`, `ReviewForm`,
`ReviewPage`, `RegisterPage`, `EditProfilePage`, `StarRating`, `HomePage`
and `BooksPage`. Three modules are shared:

- `Types` holds the records of `src/types`, `Option`, and the network reply
  `Response<T>` (`Ok(body)`, `Failed(status)` or `Thrown(text)`).
- `Js` writes out the JavaScript semantics the code relies on. These are
  truncating `%`, truthiness, `a || b`, `String.prototype.trim`, `parseInt`
  in base 10, and `String(new Error(m))`.
- `Yup` models a failed `validate(…, { abortEarly: false })` as the list of
  failing tests in declaration order. It also holds the `forEach` loop that
  copies them into an error record, where the last message for a path wins.

A page or component whose handlers update state is a class. Each handler is
one method and one atomic step. Network replies are parameters, and a
navigation is a returned path. Each method's `ensures` ties the new state to
pure functions. The properties of those functions are proved as lemmas.

Four behaviours of the code a reader might not expect:

- A `logout` reply that is not 2xx throws before anything is cleared.
- `checkToken` clears the session only when its request throws. A 401 keeps
  both the token and the user.
- The admin guard redirects to `/login` whenever `user` is null. That
  includes the moment before a stored token has been checked.
- `updateUser` replaces the user wholesale; it does not merge.

## Model

| member | source | states |
|---|---|---|
| Pagination.Range | src/components/Pagination.tsx:15-16 | `from` is `startIndex + 1`; `to` is at most `totalItems` and at most one page past `startIndex`, and is one of the two; `from <= to` whenever the offset lies inside the list |
| SearchPage.StepKeepsBoundary | src/pages/SearchPage.tsx:43-52 | a "next" or "previous" step keeps a non-negative offset that is a multiple of the page size |
| SearchPage.RunKeepsBoundary | src/pages/SearchPage.tsx:14-16 | any sequence of steps from a page boundary stays on a page boundary |
| SearchPage.RunStaysInside | src/pages/SearchPage.tsx:43-52 | with a fixed total, an offset inside the list stays inside it after any sequence of steps |
| SearchPage.ReachableOffsets | src/pages/SearchPage.tsx:14-16 | from offset 0 with a non-empty list, every reachable offset is a page start below the total, and the pager's range is non-empty |
| SearchPage.FortySevenHits | src/pages/SearchPage.tsx:43-47 | with 47 hits, four "next" clicks reach 40 and a fifth changes nothing |
| SearchPage.NextPreviousInverse | src/pages/SearchPage.tsx:43-52 | a "next" that moved is undone by "previous", and a "previous" that moved is undone by "next" |
| SearchPage.NextButtonMatchesHandler | src/components/Pagination.tsx:27 | the next button is enabled exactly when `handleNextPage` would move the offset |
| SearchPage.PreviousButtonMatchesHandler | src/components/Pagination.tsx:20 | on a page boundary, the previous button is disabled exactly when `handlePreviousPage` would do nothing |
| SearchPage.SearchPageState.constructor | src/pages/SearchPage.tsx:9-16 | a new page starts at offset 0 with no hits, a total of 0 and no error |
| SearchPage.SearchPageState.HandleNextPage | src/pages/SearchPage.tsx:43-47 | adds one page size when that stays below the total, otherwise leaves the offset; keeps the page-boundary invariant |
| SearchPage.SearchPageState.HandlePreviousPage | src/pages/SearchPage.tsx:49-52 | subtracts one page size when that stays non-negative, otherwise leaves the offset; keeps the invariant |
| SearchPage.SearchPageState.ShouldFetch | src/pages/SearchPage.tsx:54-57 | the effect fetches exactly when the route's search term is truthy |
| SearchPage.SearchPageState.ApplySearchReply | src/pages/SearchPage.tsx:19-41 | a 2xx reply sets the hits to `items` or `[]`, sets the total to `totalItems` or 0 and clears the error; any other ending sets the error and keeps the hits and the total |
| SearchPage.SearchPageState.ChangeSearchTerm | src/pages/SearchPage.tsx:54-57 | a new search term does not reset the offset |
| BookPage.SortedCons | src/pages/BookPage.tsx:77-89 | a list with a head is ordered exactly when its head comes before every later key and its tail is ordered |
| BookPage.Insert | src/pages/BookPage.tsx:77-89 | inserting a review adds exactly that review to the multiset |
| BookPage.InsertSorted | src/pages/BookPage.tsx:77-89 | inserting into an ordered list keeps it ordered |
| BookPage.SortBy | src/pages/BookPage.tsx:80-86 | the result is ordered by the key and is a permutation of the input |
| BookPage.InsertWithKey | src/pages/BookPage.tsx:80-86 | on any list, the inserted review goes in front of the reviews sharing its key, whose order is kept, and the other key groups are untouched |
| BookPage.SortStable | src/pages/BookPage.tsx:80-86 | sorting keeps the input order of reviews with equal keys, as section 23.1.3.30 of ECMA-262 (2023) requires of `Array.prototype.sort` |
| BookPage.KeepRating | src/pages/BookPage.tsx:94 | `filter` keeps only reviews with the chosen rating, as a subsequence of the input |
| BookPage.KeepRatingCounts | src/pages/BookPage.tsx:94 | a matching review is kept as often as it occurs, and any other review is dropped |
| BookPage.FilterReviewsByRating | src/pages/BookPage.tsx:92-95 | `null` returns the list unchanged; a rating keeps each review with that rating as often as it occurs and no other, in order; a `NaN` rating keeps nothing |
| BookPage.SortCase | src/pages/BookPage.tsx:77-89 | a key is chosen exactly for the four values the sort select offers |
| BookPage.SortReviewsAsWritten | src/pages/BookPage.tsx:77-89 | as written: always a permutation; newest, oldest and lowest rating order the list; "highestRating", matching no label, returns it unchanged |
| BookPage.SortReviews | src/pages/BookPage.tsx:77-89 | always a permutation; newest has non-increasing `created_at`, oldest non-decreasing, highest rating non-increasing ratings, lowest rating non-decreasing; any other option returns the list unchanged |
| BookPage.HighestRatingIgnoredAsWritten | src/pages/BookPage.tsx:83 | as written, choosing "Högst betyg" returns the list unchanged; a rating-1 review stays ahead of a rating-5 review |
| BookPage.LabelsAgreeElsewhere | src/pages/BookPage.tsx:79-87 | for every other option the written and the corrected `switch` agree |
| BookPage.KeepBound | src/pages/BookPage.tsx:94 | filtering keeps a lower bound on the keys |
| BookPage.KeepSorted | src/pages/BookPage.tsx:94 | filtering an ordered list leaves it ordered |
| BookPage.InsertFront | src/pages/BookPage.tsx:77-89 | a review whose key precedes all others is inserted at the front |
| BookPage.SortedHeadBound | src/pages/BookPage.tsx:77-89 | every key of an ordered list is bounded by the bound on its head |
| BookPage.KeepInsert | src/pages/BookPage.tsx:115-116 | filtering after an insertion is the insertion (when it matches) into the filtered list |
| BookPage.KeepInsertAtFront | src/pages/BookPage.tsx:115-116 | the insertion-filter equation when the new review goes before the whole sorted list |
| BookPage.KeepInsertBehind | src/pages/BookPage.tsx:115-116 | the insertion-filter equation carries over from the tail when the new review goes behind the head |
| BookPage.FilterSortCommute | src/pages/BookPage.tsx:115-116 | filter-then-sort equals sort-then-filter, so the pipeline's order does not matter for what is shown |
| BookPage.FilterSelectRoundTrip | src/pages/BookPage.tsx:105 | the filter select maps `all` to `null` and each of the values 1..5 to that integer |
| BookPage.BookPageState.constructor | src/pages/BookPage.tsx:18-22 | a new page has no reviews, sorts by newest and has no rating filter |
| BookPage.BookPageState.FetchReviews | src/pages/BookPage.tsx:49-74 | 2xx replaces the list and clears the error, 404 empties it with no error, and anything else sets the error and keeps the list |
| BookPage.BookPageState.HandleReviewCreated | src/pages/BookPage.tsx:98-101 | the new review is prepended: the list becomes `[newReview] + old` |
| BookPage.BookPageState.HandleFilterRatingChange | src/pages/BookPage.tsx:104-107 | the rating filter becomes the parsed select value |
| BookPage.BookPageState.HandleSortChange | src/pages/BookPage.tsx:212 | the sort option becomes the selected value |
| BookPage.BookPageState.VisibleReviewsAsWritten | src/pages/BookPage.tsx:115-116 | the shown list is the filtered list put through `sortReviews` as written, so "highestRating" shows it in stored order and leaves the state alone; with no filter, the in-place sort also reorders the `reviews` state, which always stays a permutation of itself |
| BookPage.BookPageState.VisibleReviews | src/pages/BookPage.tsx:115-116 | the same render with the case label corrected: the shown list is the filtered list in the selected order |
| Carousel.StepValues | src/components/Carousel.tsx:13-19 | `nextSlide` moves to the next index or wraps to 0; `prevSlide` moves back or wraps to `n - 1`; both stay in `[0, n)` |
| Carousel.NextPreviousInverse | src/components/Carousel.tsx:14-18 | `prevSlide` after `nextSlide` is the identity, and so is the reverse |
| Carousel.ModSucc | src/components/Carousel.tsx:14 | one more step on a reduced index equals one step on the unreduced index |
| Carousel.AdvanceIsShift | src/components/Carousel.tsx:14 | k `nextSlide` steps from i land on `(i + k) % n` |
| Carousel.FullCycle | src/components/Carousel.tsx:14 | n `nextSlide` steps return to the starting index |
| Carousel.CarouselState.constructor | src/components/Carousel.tsx:11 | the cursor starts at 0 over a non-empty list of slides |
| Carousel.CarouselState.NextSlide | src/components/Carousel.tsx:13-15 | the index becomes `(i + 1) % n` and stays in range |
| Carousel.CarouselState.PrevSlide | src/components/Carousel.tsx:17-19 | the index becomes `(i - 1 + n) % n` and stays in range |
| AuthContext.SignIn | src/context/AuthContext.tsx:16-35 | a 2xx reply stores the token and sets the user; a non-2xx reply rejects with `Error: <message>` and changes nothing; a thrown request rejects with its error and changes nothing |
| AuthContext.Apply | src/context/AuthContext.tsx:16-109 | no operation touches any storage entry other than `bookToken` |
| AuthContext.OnlyTokenChanges | src/context/AuthContext.tsx:30 | any sequence of operations leaves every other storage entry as it was |
| AuthContext.FailedRepliesChangeNothing | src/context/AuthContext.tsx:26 | a failed login or register and a non-2xx logout leave the session unchanged; all of them except a token check reject |
| AuthContext.LogoutSignsOut | src/context/AuthContext.tsx:50-51 | a 2xx logout removes the token and nulls the user |
| AuthContext.CheckTokenEffects | src/context/AuthContext.tsx:58-82 | no token changes nothing; 2xx sets the user; only a thrown request removes the token and the user; the check never rejects |
| AuthContext.ReloadAfterLogin | src/context/AuthContext.tsx:30 | after a reload, a 2xx token check signs the user back in exactly when the stored token is non-empty |
| AuthContext.ApplyKeepsConsistent | src/context/AuthContext.tsx:16-109 | a signed-in user always has a token entry, except after `updateUser` with nobody signed in |
| AuthContext.UpdateUserWithoutSession | src/context/AuthContext.tsx:107-109 | `updateUser` with nobody signed in creates a user without a token |
| AuthContext.RunKeepsConsistent | src/context/AuthContext.tsx:16-109 | sequences whose `updateUser` calls happen while signed in keep the session consistent |
| AuthContext.UpdateUserReplaces | src/context/AuthContext.tsx:107-109 | `updateUser` replaces the user wholesale and leaves the storage alone |
| AuthContext.AuthProvider.constructor | src/context/AuthContext.tsx:12-13 | a new provider has no user over the given storage |
| AuthContext.AuthProvider.Login | src/context/AuthContext.tsx:16-35 | the new session and the outcome are those of `Apply` for a login |
| AuthContext.AuthProvider.Logout | src/context/AuthContext.tsx:38-55 | the new session and the outcome are those of `Apply` for a logout |
| AuthContext.AuthProvider.CheckToken | src/context/AuthContext.tsx:58-82 | the new session is that of `Apply` for a token check, which always resolves |
| AuthContext.AuthProvider.Register | src/context/AuthContext.tsx:85-104 | the new session and the outcome are those of `Apply` for a registration |
| AuthContext.AuthProvider.UpdateUser | src/context/AuthContext.tsx:107-109 | the new session is that of `Apply` for `updateUser` |
| ProtectedAdminRoute.Guard | src/components/ProtectedAdminRoute.tsx:15-24 | the children render exactly when a user is present whose `is_admin` is not the number 0; no user redirects to `/login`; `is_admin === 0` redirects to the current path |
| ProtectedAdminRoute.AdminsGetThrough | src/components/ProtectedAdminRoute.tsx:15 | every user `checkIfAdmin` accepts gets through, and so do users with `is_admin` true, 2 or "1", whom it does not accept |
| ProtectedAdminRoute.PendingSessionRedirects | src/components/ProtectedAdminRoute.tsx:11-17 | before the stored token is checked, the guard redirects to `/login` whatever the storage holds |
| ProfilePage.FindReview | src/pages/ProfilePage.tsx:120 | `find` returns nothing exactly when no review has the id; otherwise it returns a review of the list with that id |
| ProfilePage.RemoveReview | src/pages/ProfilePage.tsx:145 | no review with the id is left, and the result is a subsequence of the list |
| ProfilePage.RemoveReviewCounts | src/pages/ProfilePage.tsx:145 | reviews with the id are removed and every other review is kept as often as it occurred |
| ProfilePage.RemoveAbsent | src/pages/ProfilePage.tsx:145 | removing an id no review has leaves the list unchanged |
| ProfilePage.ProfilePageState.constructor | src/pages/ProfilePage.tsx:28-40 | a new page is loading, with no profile, reviews, liked books, errors or open modal |
| ProfilePage.ProfilePageState.FetchProfile | src/pages/ProfilePage.tsx:44-67 | one's own profile uses the session user with no request; any other profile is requested, and only a 2xx reply sets it |
| ProfilePage.ProfilePageState.FetchLikedBooks | src/pages/ProfilePage.tsx:70-88 | 2xx replaces the liked books and keeps an earlier error; anything else sets the error and keeps the list |
| ProfilePage.ProfilePageState.FetchReviews | src/pages/ProfilePage.tsx:91-116 | 2xx replaces the list and keeps an earlier error, 404 empties it with no error, and anything else sets the error |
| ProfilePage.ProfilePageState.HandleDeleteRequest | src/pages/ProfilePage.tsx:119-125 | the first review with the id is picked and the modal opens; with no match nothing changes |
| ProfilePage.ProfilePageState.HandleCloseModal | src/pages/ProfilePage.tsx:127-129 | the modal closes |
| ProfilePage.ProfilePageState.HandleDelete | src/pages/ProfilePage.tsx:131-154 | nothing happens with no review picked; 2xx removes the reviews with its id, closes the modal and clears the error; non-2xx sets the error and keeps the list and the modal; `deleting` ends false |
| ProfilePage.DeleteFlow | src/pages/ProfilePage.tsx:119-154 | picking a listed review and deleting it successfully removes exactly the reviews with its id and keeps the rest in order |
| LikeButton.AnyLiked | src/components/LikeButton.tsx:35 | `some` is true exactly when an entry has the book's id |
| LikeButton.RequestFor | src/components/LikeButton.tsx:47-62 | a liked book is unliked with `DELETE /likedbooks/{id}` and no body; otherwise `POST /likedbooks` carries id, title and thumbnail |
| LikeButton.Toggled | src/components/LikeButton.tsx:65-68 | the flag flips and the count moves by −1 when it was liked and by +1 otherwise |
| LikeButton.ToggleTwice | src/components/LikeButton.tsx:65-68 | two successful clicks restore the state |
| LikeButton.ToggleKeepsCount | src/components/LikeButton.tsx:65-68 | a count that agrees with the server keeps agreeing and never goes negative |
| LikeButton.Render | src/components/LikeButton.tsx:112-140 | a spinner while loading, then the error icon, then the read-only count, then the toggle button for a signed-in user, else a static count |
| LikeButton.LikeButtonState.constructor | src/components/LikeButton.tsx:16-19 | a new button shows a count of 0, not liked, loading, with no error |
| LikeButton.LikeButtonState.ToggleLike | src/components/LikeButton.tsx:43-75 | a visitor changes nothing; a signed-in user sends the request for the current flag; 2xx toggles, anything else keeps the state; loading ends false |
| LikeButton.LikeButtonState.CheckIfLiked | src/components/LikeButton.tsx:24-41 | for a signed-in user, a readable list sets `liked` exactly when it holds the book; otherwise the flag is kept |
| LikeButton.LikeButtonState.FetchLikes | src/components/LikeButton.tsx:77-98 | 2xx sets the count to `likes_count \|\| 0` and clears the error; non-2xx zeroes the count and sets the error; a thrown request only zeroes the count |
| Yup.LastMessage | src/components/ReviewForm.tsx:90-95 | nothing is recorded for a path no failing test names; otherwise the recorded message is one of that path's failing tests |
| Yup.LastMessageSnoc | src/components/ReviewForm.tsx:90-94 | one more failure at the end is the path's message when it names the path, and changes nothing for other paths |
| Yup.CollectMessages | src/components/ReviewForm.tsx:90-95 | the `forEach` loop leaves, for every path, the message of its last failing test |
| Yup.LastMessageAppend | src/pages/RegisterPage.tsx:55-58 | the later failures of a path override the earlier ones |
| Yup.OneField | src/pages/RegisterPage.tsx:55-58 | a field's own failures give its last message and nothing under another path |
| Yup.ThreeFields | src/pages/RegisterPage.tsx:25-29 | the message of a path over three fields is that of the last field with one |
| Yup.SeparateFields | src/pages/EditProfilePage.tsx:164-169 | three fields with distinct paths each get their own last message, and other paths get nothing |
| ReviewForm.RatingErrors | src/components/ReviewForm.tsx:36 | a rating passes exactly when it lies in 1..5; a failing rating's last message is the 1..5 message |
| ReviewForm.CommentErrors | src/components/ReviewForm.tsx:37 | a comment passes exactly when it is non-empty and at most 255 characters |
| ReviewForm.BookIdErrors | src/components/ReviewForm.tsx:38 | the book id passes exactly when it is non-empty |
| ReviewForm.ValidateAccepts | src/components/ReviewForm.tsx:35-39 | the schema reports nothing exactly when all three rules hold |
| ReviewForm.FieldsOfCollected | src/components/ReviewForm.tsx:89-94 | reading `rating`, `comment` and `book_id` from the collected messages gives each path's last failure message |
| ReviewForm.ReportedErrors | src/components/ReviewForm.tsx:89-95 | every failing field is reported at once: the rating shows the 1..5 message exactly when outside 1..5, the comment the required message when empty and the too-long one above 255 characters, the book id its message when empty; passing fields stay null |
| ReviewForm.NothingReportedIffAcceptable | src/components/ReviewForm.tsx:62 | the error record is empty exactly when the form is valid |
| ReviewForm.StarRatingsPass | src/components/StarRating.tsx:19-21 | every rating a star click reports passes the rating rule |
| ReviewForm.ResetFormRejected | src/components/ReviewForm.tsx:27-29 | the initial and reset form, with rating 0, is refused: the rating reports the 1..5 message once, then the missing comment, then a missing book id |
| ReviewForm.ReviewFormState.constructor | src/components/ReviewForm.tsx:27-29 | the form starts at rating 0, an empty comment and the book's id, with no errors |
| ReviewForm.ReviewFormState.HandleRatingChange | src/components/ReviewForm.tsx:42-45 | stores the rating and clears only the rating error |
| ReviewForm.ReviewFormState.HandleCommentChange | src/components/ReviewForm.tsx:48-55 | stores the comment and clears its error only when one is shown |
| ReviewForm.ReviewFormState.ShowValidationErrors | src/components/ReviewForm.tsx:89-95 | a failed validation replaces the errors with the reported record of the current form |
| ReviewForm.ReviewFormState.HandleSubmit | src/components/ReviewForm.tsx:58-104 | posts exactly a valid form; 2xx hands the stored review on and resets the form; non-2xx sets the book-id error to the server message or the default; an invalid form gets the reported errors |
| ReviewPage.SameRulesAsCreation | src/pages/ReviewPage.tsx:57-60 | the edit schema accepts exactly what the creation schema accepts for the same rating and comment |
| ReviewPage.Reported | src/pages/ReviewPage.tsx:108-113 | a failed validation shows the rating and comment messages and leaves `message` null |
| ReviewPage.ReviewPageState.constructor | src/pages/ReviewPage.tsx:21-27 | the form starts at rating 0 and an empty comment, with no errors and no success |
| ReviewPage.ReviewPageState.GetReview | src/pages/ReviewPage.tsx:31-54 | 2xx copies the stored rating and comment into the form and clears every error; anything else sets `message` and keeps the rest |
| ReviewPage.ReviewPageState.HandleRatingChange | src/pages/ReviewPage.tsx:63-66 | stores the rating and clears only the rating error |
| ReviewPage.ReviewPageState.HandleCommentChange | src/pages/ReviewPage.tsx:69-76 | stores the comment and clears its error only when one is shown |
| ReviewPage.ReviewPageState.HandleSubmit | src/pages/ReviewPage.tsx:79-121 | `success` is reset and becomes true only for a valid form and a 2xx PUT, whose body holds only rating and comment; an invalid form gets the reported errors |
| ReviewPage.LoadThenSave | src/pages/ReviewPage.tsx:31-103 | loading a valid review and saving it unedited sends back its stored rating and comment and succeeds |
| RegisterPage.NameErrors | src/pages/RegisterPage.tsx:26 | a name passes exactly when it has at least 2 characters |
| RegisterPage.EmailErrors | src/pages/RegisterPage.tsx:27 | an address passes exactly when it is non-empty and passes the e-mail check |
| RegisterPage.PasswordErrors | src/pages/RegisterPage.tsx:28 | a password passes exactly when it has 8 to 50 characters |
| RegisterPage.ValidateAccepts | src/pages/RegisterPage.tsx:25-29 | the schema reports nothing exactly when all three rules hold |
| RegisterPage.ShownMessages | src/pages/RegisterPage.tsx:55-58 | the name shows the too-short message exactly when shorter than 2; the address the required message when empty, the format message when malformed; the password the too-short or too-long message; otherwise nothing |
| RegisterPage.OnlyDeclaredPaths | src/pages/RegisterPage.tsx:55-58 | no message lands under an undeclared path |
| RegisterPage.ShortPasswordRejected | src/pages/RegisterPage.tsx:28 | "short1" with a valid name and address is refused with the password message alone |
| RegisterPage.RegisterSuccessShowsErrorAsWritten | src/pages/RegisterPage.tsx:46-49 | as written, a 2xx registration from the signed-out page signs the user in but shows an API error and does not navigate; as intended, it goes to the new profile |
| RegisterPage.RegisterOutcomes | src/pages/RegisterPage.tsx:45-51 | as intended: 2xx goes to the new user's profile with no error; otherwise `message` is the API-error prefix followed by the rejection's text |
| RegisterPage.RejectionsAgree | src/pages/RegisterPage.tsx:48-49 | both versions show the same error when `register` rejects |
| RegisterPage.RegisterPageState.constructor | src/pages/RegisterPage.tsx:18-20 | an empty form with no errors |
| RegisterPage.RegisterPageState.HandleSubmitAsWritten | src/pages/RegisterPage.tsx:38-65 | errors are cleared first; an invalid form calls nothing and gets the field messages; a valid one calls `register`, then navigates with the render's stale user or shows the error |
| RegisterPage.RegisterPageState.HandleSubmit | src/pages/RegisterPage.tsx:38-65 | as above, but a 2xx registration navigates to the new user's profile with no error |
| EditProfilePage.NameErrors | src/pages/EditProfilePage.tsx:47 | a name passes exactly when it is non-empty and at most 255 characters |
| EditProfilePage.MaxLengthErrors | src/pages/EditProfilePage.tsx:48-49 | "currently reading" and bio pass exactly when at most 255 characters, empty included |
| EditProfilePage.ValidateAccepts | src/pages/EditProfilePage.tsx:46-50 | the schema reports nothing exactly when the name is 1..255 characters and the other two at most 255 |
| EditProfilePage.FieldsOfCollected | src/pages/EditProfilePage.tsx:164-169 | reading `name`, `current_read` and `bio` from the collected messages gives each path's last failure message or "" |
| EditProfilePage.ReportedFields | src/pages/EditProfilePage.tsx:164-170 | a failed validation sets the name's required or too-long message and the other two fields' too-long messages, "" for a passing field, and leaves avatar and main empty |
| EditProfilePage.CurrentReadErrorHiddenAsWritten | src/pages/EditProfilePage.tsx:231-233 | as written, a 256-character "currently reading" with a valid name is reported, but its hint shows nothing |
| EditProfilePage.HintsFollowTheirFields | src/pages/EditProfilePage.tsx:216-249 | as intended, each text input's hint is non-empty exactly when that input breaks its rule |
| EditProfilePage.CheckAvatar | src/pages/EditProfilePage.tsx:57-67 | a file over 2·1024·1024 bytes is too large; otherwise a type outside jpeg/jpg/png/gif is refused; otherwise it is accepted |
| EditProfilePage.SizeCheckedFirst | src/pages/EditProfilePage.tsx:58-64 | an oversized file gets the size verdict whatever its type, and the limit itself is allowed |
| EditProfilePage.SavedAvatarUrl | src/pages/EditProfilePage.tsx:149 | the saved avatar URL is the preview if truthy, else the user's URL if truthy, else "" |
| EditProfilePage.SavedUser | src/pages/EditProfilePage.tsx:151-158 | the saved user takes the form's name, current read and bio and the saved avatar URL, and keeps every other field |
| EditProfilePage.PreviewOf | src/pages/EditProfilePage.tsx:188 | the preview is the user's avatar URL when truthy, else null |
| EditProfilePage.SaveThenResync | src/pages/EditProfilePage.tsx:151-190 | re-syncing from the saved user gives back the saved form with no file, and keeps a truthy preview |
| EditProfilePage.EditProfileState.constructor | src/pages/EditProfilePage.tsx:26-43 | the form and preview start from the session user, or empty, with no errors |
| EditProfilePage.EditProfileState.HandleAvatarChange | src/pages/EditProfilePage.tsx:53-78 | no file changes nothing; a refused file sets only the avatar error; an accepted one clears it and goes into the form |
| EditProfilePage.EditProfileState.HandleDeleteAvatar | src/pages/EditProfilePage.tsx:81-119 | 2xx drops the preview and the session's avatar URL, clears all errors and closes the dialog; otherwise the pre-click errors get the main message; `isDeleting` ends false |
| EditProfilePage.EditProfileState.ShowValidationErrors | src/pages/EditProfilePage.tsx:161-170 | a failed validation replaces every error entry with the reported record of the current form |
| EditProfilePage.EditProfileState.HandleSave | src/pages/EditProfilePage.tsx:122-178 | an invalid form sends nothing and gets the field messages; a valid one is sent; 2xx updates the session user and navigates to the profile; otherwise the main error is set |
| EditProfilePage.EditProfileState.Resync | src/pages/EditProfilePage.tsx:180-190 | a present user refills the form, drops the file and resets the preview; no user changes nothing |
| StarRating.RenderStars | src/components/StarRating.tsx:17-25 | exactly five stars numbered 1..5, star i highlighted exactly when i is at most the rating |
| StarRating.ClickedRating | src/components/StarRating.tsx:12-15 | clicking star k reports k, always in 1..5, and once the parent stores it the stars up to k are lit |
| HomePage.SubmitSearch | src/pages/HomePage.tsx:25-36 | a term that trims to nothing is refused with the blank-term message; any other term goes to `/search/` followed by the term |
| HomePage.SubmitSearchRoundTrip | src/pages/HomePage.tsx:29-35 | refused exactly when every character is white space; the path of an accepted term is `/search/` followed by the term as typed, untrimmed |
| HomePage.Section | src/pages/HomePage.tsx:97-113 | the carousel is mounted exactly for a non-empty list, with one slide per review; the empty note shows only when not loading |
| HomePage.HomePageState.constructor | src/pages/HomePage.tsx:10-15 | empty term, no error, no reviews |
| HomePage.HomePageState.HandleSearchChange | src/pages/HomePage.tsx:19-22 | stores the term and clears the error |
| HomePage.HomePageState.HandleSubmit | src/pages/HomePage.tsx:25-36 | a blank term sets the error and does not navigate; any other term navigates and keeps the error |
| HomePage.HomePageState.FetchReviews | src/pages/HomePage.tsx:39-64 | 2xx replaces the list and clears the error, 404 empties it with no error, and anything else sets the error and keeps the list |
| HomePage.HomePageState.MountCarousel | src/pages/HomePage.tsx:97-99 | a carousel is created only for a non-empty list, with its cursor in range |
| BooksPage.RankFrom | src/pages/BooksPage.tsx:105-108 | one read-only card per book, in order, ranked from the given start |
| BooksPage.RankedCards | src/pages/BooksPage.tsx:105-117 | the k-th book's badge is k + 1 |
| BooksPage.RanksIncrease | src/pages/BooksPage.tsx:108 | badges increase along the list and lie in 1..n |
| BooksPage.BooksPageState.constructor | src/pages/BooksPage.tsx:10-15 | empty term, no error, no liked books |
| BooksPage.BooksPageState.HandleSearchChange | src/pages/BooksPage.tsx:19-22 | stores the term and clears the error |
| BooksPage.BooksPageState.HandleSubmit | src/pages/BooksPage.tsx:25-37 | the home page's decision: a blank term sets the error, any other term navigates |
| BooksPage.BooksPageState.FetchLikedBooks | src/pages/BooksPage.tsx:40-58 | 2xx replaces the list; anything else sets the error and keeps the list |
| Types.ClassifyListFetch | src/pages/HomePage.tsx:48-60 | a 2xx reply is the list, a 404 means "none yet", and any other status or a thrown request is an error |
| Js.Rem | src/components/Carousel.tsx:18 | JavaScript's `%`: the remainder takes the sign of the dividend |
| Js.OrElse | src/components/ReviewForm.tsx:84 | `a \|\| b` on a nullable string: `a` when truthy, else `b` |
| Js.TrimStart | src/pages/HomePage.tsx:29 | drops exactly the leading white space |
| Js.TrimEnd | src/pages/HomePage.tsx:29 | drops exactly the trailing white space |
| Js.BlankIffAllWhitespace | src/pages/HomePage.tsx:29 | `!term.trim()` holds exactly when every character is white space |
| Js.ParseIntDecimal | src/pages/BookPage.tsx:105 | `parseInt` in base 10 reads back any decimal numeral |
| Js.ErrorText | src/context/AuthContext.tsx:26 | `String(new Error(m))` ends with `m`, and is `"Error"` alone exactly when `m` is empty |

## Left out

- Network, storage and routing: every `fetch` is replaced by a reply parameter; URLs and headers are not modelled beyond the like button's request; `localStorage` is a map; `navigate` returns a path.
- Rendering: JSX, Tailwind classes, hooks scheduling and effect timing are left out. The modelled render decisions are the like button's, the home page's carousel/empty-note choice, the books page's rank badges, and the edit page's field hints.
- Async interleavings: each handler is one atomic step; replies landing out of order, and concurrent effects, are not modelled.
- Date parsing: `created_at` is an integer timestamp instead of a string that `new Date` parses.
- Floating point: the carousel's `translateX` percentage is left out; ratings are integers, so a fractional rating (which the `integer()` test would refuse) is not modelled.
- The e-mail format test of the sign-up schema is a parameter `isEmail`, since Yup's regular expression is not part of this model.
- Yup's own behaviour is taken as: all tests of a present value run, in declaration order, except that a later test with the same exclusive name replaces an earlier one (so `min(1, …)` replaces `positive()`, both named "min"), and `email()` passes the empty string. An empty name or password therefore reports the "too short" message last.
- HomePage.SubmitSearchRoundTrip: the router's URL handling is not modelled, so the lemma states the path the page navigates to, not the term `useParams` hands the results page; a term with '/', '?', '#' or '%' may not come back intact.
- LikeButton.LikeButtonState.CheckIfLiked: the source never checks `response.ok`; the model assumes the body of a non-2xx reply is not an array of liked books, so such a reply keeps the flag as the thrown `some` call would.
- String lengths count Dafny characters, not UTF-16 code units.
- `FileReader` preview loading after an accepted avatar is left out; the preview changes only on delete and re-sync.
- EditProfilePage.EditProfileState.HandleAvatarChange: the file is a record of size and MIME type, not a `File`.
- The multipart body of the profile save and the avatar upload are not modelled; only the session update and navigation are.
- SearchPage: the hits themselves are opaque `Book` records; the page's year slicing is display only.
- MainNav (menu toggles and DOM listeners), LoginPage (a thin wrapper over `login`), routing.tsx (router configuration) and the presentational components (Header, Layout, AboutPage, ProfileCard, ReviewCard, BookPageReview, LikedBookCard, SearchForm, ReviewRow) are not part of this model.
- The `ProtectedRoute` imported by routing.tsx is not part of this model.
- The `LikedBook` record is imported by the pages but not declared in the shipped types file; its fields are taken from their use (`book_id`, `title`, `thumbnail`).

## Findings

| source | as written | input that shows it | evidently intended | confidence | as-written member | corrected member |
|---|---|---|---|---|---|---|
| src/pages/BookPage.tsx:83 | the sort `switch` has the label `'higestRating'`, while the select sends `'highestRating'` (line 216) | sort option "Högst betyg" on reviews rated 1 then 5: the list stays in that order | the highest-rated reviews come first | high, not executed | BookPage.HighestRatingIgnoredAsWritten | BookPage.SortReviews |
| src/pages/RegisterPage.tsx:47 | after `register` resolves, the handler reads `user!.id` from its own render, where `user` is still null | any valid sign-up the server accepts: `TypeError` is caught and shown as an API error, with no navigation from the submit | navigate to the new user's profile | high, not executed | RegisterPage.RegisterSuccessShowsErrorAsWritten | RegisterPage.RegisterOutcomes |
| src/pages/EditProfilePage.tsx:232 | the hint under "Läser just nu" shows `errors.name` | a valid name with a 256-character "currently reading": the schema fails, but no hint explains why | show `errors.current_read` | high, not executed | EditProfilePage.CurrentReadErrorHiddenAsWritten | EditProfilePage.HintsFollowTheirFields |
