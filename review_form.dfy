/**
 * The "Har du läst boken?" form on a book's page
 * (src/components/ReviewForm.tsx): a star rating, a comment and the hidden
 * book id, checked by a Yup schema before the review is posted.
 *
 * Ratings are whole numbers here: the form starts at 0 and StarRating only
 * ever reports 1..5, so the schema's `integer()` test always passes.
 */
module ReviewForm {
  import opened Types
  import Js
  import Yup
  import StarRating

  const RatingMessage := "Vänligen ange ett betyg mellan 1 och 5 stärnor"
  const CommentRequired := "Kommentar får ej vara tomt"
  const CommentTooLong := "Kommentar får ej vara längre än 255 tecken"
  const BookIdRequired := "Bok-id måste anges"
  const CreateFailed := "Fel vid skapande av recension"

  const MaxCommentLength := 255

  /** The failing tests of `rating: number().integer().positive().min(1).max(5).required()`.
      `positive()` is Yup's exclusive test named "min" (a bound of 0,
      exclusive), and the later `min(1, …)` carries the same exclusive name,
      so it replaces it: only the lower bound 1 and the upper bound 5 are
      left, both with the 1..5 message. */
  function RatingErrors(rating: int): (e: seq<Yup.ValidationError>)
    ensures e == [] <==> 1 <= rating <= 5
    ensures e != [] ==> e == [Yup.ValidationError("rating", RatingMessage)]
    ensures forall i :: 0 <= i < |e| ==> e[i].path == "rating"
    ensures Yup.Last(e) == if 1 <= rating <= 5 then None else Some(RatingMessage)
  {
    (if rating < 1 then [Yup.ValidationError("rating", RatingMessage)] else [])
    + (if rating > 5 then [Yup.ValidationError("rating", RatingMessage)] else [])
  }

  /** The failing tests of `comment: string().required().max(255)`: an
      empty comment is missing, a comment of white space is not. */
  function CommentErrors(comment: string): (e: seq<Yup.ValidationError>)
    ensures e == [] <==> 0 < |comment| <= MaxCommentLength
    ensures forall i :: 0 <= i < |e| ==> e[i].path == "comment"
    ensures |e| <= 1
    ensures Yup.Last(e) == if comment == "" then Some(CommentRequired)
                           else if |comment| > MaxCommentLength then Some(CommentTooLong)
                           else None
  {
    (if comment == "" then [Yup.ValidationError("comment", CommentRequired)] else [])
    + (if |comment| > MaxCommentLength then [Yup.ValidationError("comment", CommentTooLong)] else [])
  }

  /** The failing test of `book_id: string().required()`. */
  function BookIdErrors(bookId: string): (e: seq<Yup.ValidationError>)
    ensures e == [] <==> bookId != ""
    ensures forall i :: 0 <= i < |e| ==> e[i] == Yup.ValidationError("book_id", BookIdRequired)
    ensures Yup.Last(e) == if bookId == "" then Some(BookIdRequired) else None
  {
    if bookId == "" then [Yup.ValidationError("book_id", BookIdRequired)] else []
  }

  datatype FormData = FormData(rating: int, comment: string, bookId: string)

  /** `validationSchema.validate(formData, { abortEarly: false })`: every
      failing test of every field. */
  function Validate(f: FormData): seq<Yup.ValidationError> {
    RatingErrors(f.rating) + CommentErrors(f.comment) + BookIdErrors(f.bookId)
  }

  /** A review the schema lets through. */
  predicate Acceptable(f: FormData) {
    1 <= f.rating <= 5 && 0 < |f.comment| <= MaxCommentLength && f.bookId != ""
  }

  lemma ValidateAccepts(f: FormData)
    ensures Validate(f) == [] <==> Acceptable(f)
  {
  }

  /** The `ErrorsData` record: one nullable message per field. */
  datatype Errors = Errors(rating: Option<string>, comment: Option<string>, bookId: Option<string>)

  const NoErrors := Errors(None, None, None)

  /** What the `forEach` over `inner` leaves in a fresh record. */
  function ErrorFields(messages: map<string, string>): Errors {
    Errors(Lookup(messages, "rating"), Lookup(messages, "comment"), Lookup(messages, "book_id"))
  }

  /** Reading the three fields back from the collected messages gives,
      per field, the last message of the failures. */
  lemma FieldsOfCollected(messages: map<string, string>, failures: seq<Yup.ValidationError>)
    requires forall path :: Lookup(messages, path) == Yup.LastMessage(failures, path)
    ensures ErrorFields(messages) == Errors(Yup.LastMessage(failures, "rating"),
                                            Yup.LastMessage(failures, "comment"),
                                            Yup.LastMessage(failures, "book_id"))
  {
    assert Lookup(messages, "rating") == Yup.LastMessage(failures, "rating");
    assert Lookup(messages, "comment") == Yup.LastMessage(failures, "comment");
    assert Lookup(messages, "book_id") == Yup.LastMessage(failures, "book_id");
  }

  /** The record a failed validation of `f` shows: per field, the message
      of its last failing test. */
  function Reported(f: FormData): Errors {
    var failures := Validate(f);
    Errors(Yup.LastMessage(failures, "rating"), Yup.LastMessage(failures, "comment"),
           Yup.LastMessage(failures, "book_id"))
  }

  /** All failing fields are reported at once, each with the message of
      its last failing test, and a field that passes is null. */
  lemma ReportedErrors(f: FormData)
    ensures Reported(f) == Errors(
              if 1 <= f.rating <= 5 then None else Some(RatingMessage),
              if f.comment == "" then Some(CommentRequired)
              else if |f.comment| > MaxCommentLength then Some(CommentTooLong)
              else None,
              if f.bookId == "" then Some(BookIdRequired) else None)
  {
    var r, c, b := RatingErrors(f.rating), CommentErrors(f.comment), BookIdErrors(f.bookId);
    Yup.SeparateFields(r, c, b, "rating", "comment", "book_id", "message");
  }

  /** The record is empty exactly when the schema lets the form through. */
  lemma NothingReportedIffAcceptable(f: FormData)
    ensures Reported(f) == NoErrors <==> Acceptable(f)
  {
    ReportedErrors(f);
  }

  /** Every rating StarRating can report passes the rating rule. */
  lemma StarRatingsPass(k: int)
    requires 0 <= k < StarRating.StarCount
    ensures RatingErrors(k + 1) == []
  {
  }

  /** The form after a created review cannot be sent again as it is: the
      star rating has to be picked anew, and the rating field reports the
      1..5 message alone. */
  lemma ResetFormRejected(bookId: string)
    ensures !Acceptable(FormData(0, "", bookId))
    ensures Validate(FormData(0, "", bookId)) ==
              [Yup.ValidationError("rating", RatingMessage), Yup.ValidationError("comment", CommentRequired)]
              + BookIdErrors(bookId)
  {
  }

  /** How the POST of a valid review ends: a 2xx reply with the stored
      review, a non-2xx reply whose JSON body may carry a `message`, or a
      request or body that throws. */
  datatype CreateReply = Created(review: Review) | Refused(message: Option<string>) | CreateThrown

  /** One mounted form for a book. */
  class ReviewFormState {
    const bookId: string
    var formData: FormData
    var errors: Errors
    var isSubmitting: bool

    constructor (id: string)
      ensures bookId == id && formData == FormData(0, "", id) && errors == NoErrors && !isSubmitting
    {
      bookId := id;
      formData := FormData(0, "", id);
      errors := NoErrors;
      isSubmitting := false;
    }

    /** `handleRatingChange`: stores the rating and clears only its error. */
    method HandleRatingChange(newRating: int)
      modifies this`formData, this`errors
      ensures formData == old(formData).(rating := newRating)
      ensures errors == old(errors).(rating := None)
    {
      formData := formData.(rating := newRating);
      errors := errors.(rating := None);
    }

    /** `handleCommentChange`: stores the comment and clears the comment's
        error if one is shown. */
    method HandleCommentChange(newComment: string)
      modifies this`formData, this`errors
      ensures formData == old(formData).(comment := newComment)
      ensures errors == if Js.Truthy(old(errors.comment)) then old(errors).(comment := None) else old(errors)
    {
      formData := formData.(comment := newComment);
      if Js.Truthy(errors.comment) {
        errors := errors.(comment := None);
      }
    }

    /** The `catch` of a failed validation: a fresh record filled by the
        `forEach` over the failing tests. */
    method ShowValidationErrors()
      modifies this`errors
      ensures errors == Reported(formData)
    {
      var failures := Validate(formData);
      var messages := Yup.CollectMessages(failures);
      FieldsOfCollected(messages, failures);
      errors := ErrorFields(messages);
    }

    /** `handleSubmit`. The review is posted only when the schema lets it
        through, with the form as its body. A failing schema replaces the
        errors with the reported ones. A 2xx reply hands the stored review
        to `onReviewCreated` and resets the form; a non-2xx reply shows the
        server's message, or a default, as the book-id error. */
    method HandleSubmit(reply: CreateReply) returns (posted: Option<FormData>, created: Option<Review>)
      modifies this`formData, this`errors, this`isSubmitting
      ensures !isSubmitting
      ensures posted.Some? <==> Acceptable(old(formData))
      ensures posted.Some? ==> posted.value == old(formData)
      ensures created.Some? <==> posted.Some? && reply.Created?
      ensures created.Some? ==> created.value == reply.review && formData == FormData(0, "", bookId)
      ensures created.None? ==> formData == old(formData)
      ensures posted.None? ==> errors == Reported(old(formData))
      ensures posted.Some? && reply.Refused? ==>
                errors == old(errors).(bookId := Js.OrElse(reply.message, Some(CreateFailed)))
      ensures posted.Some? && !reply.Refused? ==> errors == old(errors)
    {
      isSubmitting := true;
      posted, created := None, None;
      ValidateAccepts(formData);
      if !Acceptable(formData) {
        ShowValidationErrors();
      } else {
        posted := Some(formData);
        match reply {
          case Created(review) =>
            created := Some(review);
            formData := FormData(0, "", bookId);
          case Refused(message) =>
            errors := errors.(bookId := Js.OrElse(message, Some(CreateFailed)));
          case CreateThrown =>
        }
      }
      isSubmitting := false;
    }
  }
}
