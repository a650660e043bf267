/**
 * Editing one's own review (src/pages/ReviewPage.tsx): the review is
 * loaded into a form of rating and comment, checked by the same rating and
 * comment rules as the creation form, and sent back with PUT.
 */
module ReviewPage {
  import opened Types
  import Js
  import Yup
  import ReviewForm

  const LoadError := "Något gick fel vid inläsning av recension"

  datatype FormData = FormData(rating: int, comment: string)

  /** The schema `{ rating, comment }`, whose two fields are declared as in
      the creation form. */
  function Validate(f: FormData): seq<Yup.ValidationError> {
    ReviewForm.RatingErrors(f.rating) + ReviewForm.CommentErrors(f.comment)
  }

  predicate Acceptable(f: FormData) {
    1 <= f.rating <= 5 && 0 < |f.comment| <= ReviewForm.MaxCommentLength
  }

  /** The edit page accepts exactly the ratings and comments the creation
      form accepts for a review of some book. */
  lemma SameRulesAsCreation(f: FormData, bookId: string)
    requires bookId != ""
    ensures Validate(f) == [] <==> Acceptable(f)
    ensures Acceptable(f) <==> ReviewForm.Acceptable(ReviewForm.FormData(f.rating, f.comment, bookId))
  {
  }

  /** The `ErrorsData` record: field messages plus a page-level `message`. */
  datatype Errors = Errors(rating: Option<string>, comment: Option<string>, message: Option<string>)

  const NoErrors := Errors(None, None, None)

  /** What a failed validation shows: the messages of the two fields, each
      the last of its failing tests, and no page-level message. */
  function Reported(f: FormData): (e: Errors)
    ensures e.message == None
    ensures e.rating == if 1 <= f.rating <= 5 then None else Some(ReviewForm.RatingMessage)
    ensures e.comment == if f.comment == "" then Some(ReviewForm.CommentRequired)
                         else if |f.comment| > ReviewForm.MaxCommentLength then Some(ReviewForm.CommentTooLong)
                         else None
  {
    var r, c := ReviewForm.RatingErrors(f.rating), ReviewForm.CommentErrors(f.comment);
    Yup.LastMessageAppend(r, c, "rating");
    Yup.LastMessageAppend(r, c, "comment");
    Yup.OneField(r, "rating", "comment");
    Yup.OneField(c, "comment", "rating");
    Errors(Yup.LastMessage(Validate(f), "rating"), Yup.LastMessage(Validate(f), "comment"), None)
  }

  /** The PUT body: only the rating and the comment. */
  datatype ReviewUpdate = ReviewUpdate(rating: int, comment: string)

  /** One mounted edit page for the route's `reviewId`. */
  class ReviewPageState {
    const reviewId: string
    var formData: FormData
    var review: Option<Review>
    var loading: bool
    var errors: Errors
    var isSubmitting: bool
    var success: bool

    constructor (id: string)
      ensures reviewId == id && formData == FormData(0, "") && review == None
      ensures !loading && errors == NoErrors && !isSubmitting && !success
    {
      reviewId := id;
      formData := FormData(0, "");
      review := None;
      loading := false;
      errors := NoErrors;
      isSubmitting := false;
      success := false;
    }

    /** `getReview`: a 2xx reply fills the form with the stored rating and
        comment and clears every error; anything else sets the page-level
        message and keeps the field errors and the form. */
    method GetReview(reply: Response<Review>)
      modifies this`review, this`formData, this`errors, this`loading
      ensures !loading
      ensures reply.Ok? ==> review == Some(reply.body) && errors == NoErrors
                            && formData == FormData(reply.body.rating, reply.body.comment)
      ensures !reply.Ok? ==> review == old(review) && formData == old(formData)
                             && errors == old(errors).(message := Some(LoadError))
    {
      loading := true;
      if reply.Ok? {
        review := Some(reply.body);
        formData := FormData(reply.body.rating, reply.body.comment);
        errors := NoErrors;
      } else {
        errors := errors.(message := Some(LoadError));
      }
      loading := false;
    }

    /** `handleRatingChange`: stores the rating and clears only its error. */
    method HandleRatingChange(newRating: int)
      modifies this`formData, this`errors
      ensures formData == old(formData).(rating := newRating)
      ensures errors == old(errors).(rating := None)
    {
      formData := formData.(rating := newRating);
      errors := errors.(rating := None);
    }

    /** `handleCommentChange`: stores the comment and clears the comment's
        error if one is shown. */
    method HandleCommentChange(newComment: string)
      modifies this`formData, this`errors
      ensures formData == old(formData).(comment := newComment)
      ensures errors == if Js.Truthy(old(errors.comment)) then old(errors).(comment := None) else old(errors)
    {
      formData := formData.(comment := newComment);
      if Js.Truthy(errors.comment) {
        errors := errors.(comment := None);
      }
    }

    /** `handleSubmit`: `success` is reset first and is set again only by a
        2xx reply to a PUT of a valid form. A failing schema replaces the
        errors with the field messages and sends nothing; once the schema
        passes, the errors are left as they were whatever the reply. */
    method HandleSubmit(reply: Response<()>) returns (sent: Option<ReviewUpdate>)
      modifies this`errors, this`success, this`isSubmitting
      ensures !isSubmitting
      ensures sent.Some? <==> Acceptable(formData)
      ensures sent.Some? ==> sent.value == ReviewUpdate(formData.rating, formData.comment)
      ensures success <==> sent.Some? && reply.Ok?
      ensures sent.None? ==> errors == Reported(formData)
      ensures sent.Some? ==> errors == old(errors)
    {
      isSubmitting := true;
      success := false;
      sent := None;
      var failures := Validate(formData);
      if failures != [] {
        var messages := Yup.CollectMessages(failures);
        errors := Errors(Lookup(messages, "rating"), Lookup(messages, "comment"), None);
      } else {
        sent := Some(ReviewUpdate(formData.rating, formData.comment));
        if reply.Ok? {
          success := true;
        }
      }
      isSubmitting := false;
    }
  }

  /** Loading a review that meets the rules and saving it without edits
      sends back exactly its stored rating and comment. */
  method LoadThenSave(page: ReviewPageState, stored: Review) returns (sent: Option<ReviewUpdate>)
    requires 1 <= stored.rating <= 5 && 0 < |stored.comment| <= ReviewForm.MaxCommentLength
    modifies page
    ensures sent == Some(ReviewUpdate(stored.rating, stored.comment))
    ensures page.success && page.errors == NoErrors
  {
    page.GetReview(Ok(stored));
    sent := page.HandleSubmit(Ok(()));
  }
}
