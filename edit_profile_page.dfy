/**
 * Editing one's own profile (src/pages/EditProfilePage.tsx): name,
 * "currently reading" and bio checked by a Yup schema, an avatar file
 * checked for size and type, and the session's user updated to match once
 * the service has accepted a change.
 */
module EditProfilePage {
  import opened Types
  import Js
  import Yup
  import AuthContext

  const NameRequired := "Namn får ej vara tomt"
  const NameTooLong := "Namn får ej vara längre än 255 tecken"
  const CurrentReadTooLong := "Läser just nu får ej vara längre än 255 tecken"
  const BioTooLong := "Biografi får ej vara längre än 255 tecken"
  const FileTooLarge := "Filstorleken får inte överstiga 2MB"
  const FileWrongType := "Endast JPEG, JPG, PNG eller GIF tillåts"
  const DeleteAvatarFailed := "Något gick fel vid radering av profilbild"
  const SaveFailed := "Det gick inte att uppdatera din profil."

  const MaxFieldLength := 255
  /** 2 MB, in bytes. */
  const MaxAvatarBytes := 2 * 1024 * 1024
  const AllowedTypes: seq<string> := ["image/jpeg", "image/jpg", "image/png", "image/gif"]

  /** A picked file: its size in bytes and its MIME type. */
  datatype AvatarFile = AvatarFile(size: int, mimeType: string)

  datatype FormData = FormData(name: string, currentRead: string, bio: string, avatar: Option<AvatarFile>)

  /** The `ErrorsData` record: "" where there is nothing to show. */
  datatype Errors = Errors(name: string, currentRead: string, bio: string, avatar: string, main: string)

  const NoErrors := Errors("", "", "", "", "")

  /** `name: string().required().max(255)`. */
  function NameErrors(name: string): (e: seq<Yup.ValidationError>)
    ensures e == [] <==> 0 < |name| <= MaxFieldLength
    ensures forall i :: 0 <= i < |e| ==> e[i].path == "name"
    ensures Yup.Last(e) == if name == "" then Some(NameRequired)
                           else if |name| > MaxFieldLength then Some(NameTooLong) else None
  {
    (if name == "" then [Yup.ValidationError("name", NameRequired)] else [])
    + (if |name| > MaxFieldLength then [Yup.ValidationError("name", NameTooLong)] else [])
  }

  /** `current_read: string().max(255)` and `bio: string().max(255)`:
      both may be empty. */
  function MaxLengthErrors(value: string, path: string, message: string): (e: seq<Yup.ValidationError>)
    ensures e == [] <==> |value| <= MaxFieldLength
    ensures forall i :: 0 <= i < |e| ==> e[i] == Yup.ValidationError(path, message)
    ensures Yup.Last(e) == if |value| > MaxFieldLength then Some(message) else None
  {
    if |value| > MaxFieldLength then [Yup.ValidationError(path, message)] else []
  }

  function Validate(f: FormData): seq<Yup.ValidationError> {
    NameErrors(f.name) + MaxLengthErrors(f.currentRead, "current_read", CurrentReadTooLong)
    + MaxLengthErrors(f.bio, "bio", BioTooLong)
  }

  predicate Acceptable(f: FormData) {
    0 < |f.name| <= MaxFieldLength && |f.currentRead| <= MaxFieldLength && |f.bio| <= MaxFieldLength
  }

  lemma ValidateAccepts(f: FormData)
    ensures Validate(f) == [] <==> Acceptable(f)
  {
  }

  /** The `forEach` writing `newErrors[path] = message` into a record that
      starts with every entry "". */
  function ErrorFields(messages: map<string, string>): Errors {
    Errors(Lookup(messages, "name").GetOr(""), Lookup(messages, "current_read").GetOr(""),
           Lookup(messages, "bio").GetOr(""), "", "")
  }

  /** Reading the text fields back from the collected messages gives, per
      field, the last message of the failures or "". */
  lemma FieldsOfCollected(messages: map<string, string>, failures: seq<Yup.ValidationError>)
    requires forall path :: Lookup(messages, path) == Yup.LastMessage(failures, path)
    ensures ErrorFields(messages) == Errors(Yup.LastMessage(failures, "name").GetOr(""),
                                            Yup.LastMessage(failures, "current_read").GetOr(""),
                                            Yup.LastMessage(failures, "bio").GetOr(""), "", "")
  {
    assert Lookup(messages, "name") == Yup.LastMessage(failures, "name");
    assert Lookup(messages, "current_read") == Yup.LastMessage(failures, "current_read");
    assert Lookup(messages, "bio") == Yup.LastMessage(failures, "bio");
  }

  /** What a failed validation shows: per text field, the message of its
      last failing test or "", and nothing under `avatar` or `main`. */
  function Reported(f: FormData): Errors {
    var failures := Validate(f);
    Errors(Yup.LastMessage(failures, "name").GetOr(""), Yup.LastMessage(failures, "current_read").GetOr(""),
           Yup.LastMessage(failures, "bio").GetOr(""), "", "")
  }

  /** The record a failed validation shows: the name's required or
      too-long message, the other two fields' too-long messages, and empty
      avatar and main entries. */
  lemma ReportedFields(f: FormData)
    ensures Reported(f).name == if f.name == "" then NameRequired else if |f.name| > MaxFieldLength then NameTooLong else ""
    ensures Reported(f).currentRead == if |f.currentRead| > MaxFieldLength then CurrentReadTooLong else ""
    ensures Reported(f).bio == if |f.bio| > MaxFieldLength then BioTooLong else ""
    ensures Reported(f).avatar == "" && Reported(f).main == ""
  {
    var n := NameErrors(f.name);
    var c := MaxLengthErrors(f.currentRead, "current_read", CurrentReadTooLong);
    var b := MaxLengthErrors(f.bio, "bio", BioTooLong);
    Yup.SeparateFields(n, c, b, "name", "current_read", "bio", "avatar");
  }

  /** The hint under the "Läser just nu" input as written: it shows the
      name's message. */
  function CurrentReadHintAsWritten(e: Errors): string {
    e.name
  }

  /** A name that passes and a "currently reading" of 256 characters: the
      schema reports the long field, and its hint stays empty. */
  lemma CurrentReadErrorHiddenAsWritten()
    ensures var f := FormData("Ann", seq(256, _ => 'x'), "", None);
            Reported(f).currentRead == CurrentReadTooLong && CurrentReadHintAsWritten(Reported(f)) == ""
  {
    ReportedFields(FormData("Ann", seq(256, _ => 'x'), "", None));
  }

  /** The hint under the "Läser just nu" input: its own field's message. */
  function CurrentReadHint(e: Errors): string {
    e.currentRead
  }

  /** After a failed validation the hint under each text input is non-empty
      exactly when that input breaks its rule. */
  lemma HintsFollowTheirFields(f: FormData)
    ensures Reported(f).name != "" <==> !(0 < |f.name| <= MaxFieldLength)
    ensures CurrentReadHint(Reported(f)) != "" <==> |f.currentRead| > MaxFieldLength
    ensures Reported(f).bio != "" <==> |f.bio| > MaxFieldLength
  {
    ReportedFields(f);
  }

  /** The checks on a picked avatar, size first. */
  datatype AvatarVerdict = TooLarge | WrongType | Accepted

  function CheckAvatar(file: AvatarFile): (v: AvatarVerdict)
    ensures v == TooLarge <==> file.size > MaxAvatarBytes
    ensures v == WrongType <==> file.size <= MaxAvatarBytes && file.mimeType !in AllowedTypes
    ensures v == Accepted <==> file.size <= MaxAvatarBytes && file.mimeType in AllowedTypes
  {
    if file.size > MaxAvatarBytes then TooLarge
    else if file.mimeType !in AllowedTypes then WrongType
    else Accepted
  }

  /** A file over 2 MB is turned away for its size even when its type is
      not allowed either. */
  lemma SizeCheckedFirst(size: int, mimeType: string)
    requires size > MaxAvatarBytes
    ensures CheckAvatar(AvatarFile(size, mimeType)) == TooLarge
    ensures CheckAvatar(AvatarFile(MaxAvatarBytes, "image/webp")) == WrongType
    ensures CheckAvatar(AvatarFile(MaxAvatarBytes, "image/png")) == Accepted
  {
  }

  /** `avatarPreview || user?.avatar_url || ''`. */
  function SavedAvatarUrl(preview: Option<string>, user: User): (url: string)
    ensures Js.Truthy(preview) ==> url == preview.value
    ensures !Js.Truthy(preview) && Js.Truthy(user.avatarUrl) ==> url == user.avatarUrl.value
    ensures !Js.Truthy(preview) && !Js.Truthy(user.avatarUrl) ==> url == ""
  {
    Js.OrElse(Js.OrElse(preview, user.avatarUrl), Some("")).value
  }

  /** The user a successful save hands to `updateUser`: the form's three
      text fields and the avatar URL change, every other field is kept. */
  function SavedUser(user: User, f: FormData, preview: Option<string>): (u: User)
    ensures u.name == f.name && u.currentRead == f.currentRead && u.bio == f.bio
    ensures u.avatarUrl == Some(SavedAvatarUrl(preview, user))
    ensures u.(name := user.name, currentRead := user.currentRead, bio := user.bio, avatarUrl := user.avatarUrl) == user
  {
    user.(name := f.name, currentRead := f.currentRead, bio := f.bio, avatarUrl := Some(SavedAvatarUrl(preview, user)))
  }

  /** The form the re-sync effect builds from a user (`x || ''` on
      strings that are never null here is `x`). */
  function FormOf(user: User): FormData {
    FormData(user.name, user.currentRead, user.bio, None)
  }

  /** The preview the re-sync effect builds: `user.avatar_url || null`. */
  function PreviewOf(user: User): (p: Option<string>)
    ensures p.Some? <==> Js.Truthy(user.avatarUrl)
    ensures p.Some? ==> p == user.avatarUrl
  {
    if Js.Truthy(user.avatarUrl) then user.avatarUrl else None
  }

  /** A save followed by the re-sync on the updated user shows the form
      that was saved, with the picked file dropped, and keeps a preview
      that was set. */
  lemma SaveThenResync(user: User, f: FormData, preview: Option<string>)
    ensures FormOf(SavedUser(user, f, preview)) == f.(avatar := None)
    ensures Js.Truthy(preview) ==> PreviewOf(SavedUser(user, f, preview)) == preview
    ensures !Js.Truthy(preview) ==> PreviewOf(SavedUser(user, f, preview)) == PreviewOf(user)
  {
  }

  /** One mounted edit page. */
  class EditProfileState {
    var formData: FormData
    var errors: Errors
    var isSubmitting: bool
    var isDeleting: bool
    var showConfirmDelete: bool
    var avatarPreview: Option<string>

    /** The first render: the form from the session's user, or empty. */
    constructor (user: Option<User>)
      ensures user.Some? ==> formData == FormOf(user.value) && avatarPreview == PreviewOf(user.value)
      ensures user.None? ==> formData == FormData("", "", "", None) && avatarPreview == None
      ensures errors == NoErrors && !isSubmitting && !isDeleting && !showConfirmDelete
    {
      if user.Some? {
        formData := FormOf(user.value);
        avatarPreview := PreviewOf(user.value);
      } else {
        formData := FormData("", "", "", None);
        avatarPreview := None;
      }
      errors := NoErrors;
      isSubmitting := false;
      isDeleting := false;
      showConfirmDelete := false;
    }

    /** `handleAvatarChange`: no file changes nothing; a file that fails a
        check only sets the avatar error; an accepted file clears that error
        and goes into the form. */
    method HandleAvatarChange(file: Option<AvatarFile>)
      modifies this`errors, this`formData
      ensures file.None? ==> errors == old(errors) && formData == old(formData)
      ensures file.Some? && CheckAvatar(file.value) == TooLarge ==>
                errors == old(errors).(avatar := FileTooLarge) && formData == old(formData)
      ensures file.Some? && CheckAvatar(file.value) == WrongType ==>
                errors == old(errors).(avatar := FileWrongType) && formData == old(formData)
      ensures file.Some? && CheckAvatar(file.value) == Accepted ==>
                errors == old(errors).(avatar := "") && formData == old(formData).(avatar := file)
    {
      if file.None? {
        return;
      }
      var f := file.value;
      if f.size > MaxAvatarBytes {
        errors := errors.(avatar := FileTooLarge);
        return;
      }
      if f.mimeType !in AllowedTypes {
        errors := errors.(avatar := FileWrongType);
        return;
      }
      errors := errors.(avatar := "");
      formData := formData.(avatar := file);
    }

    /** `handleDeleteAvatar`: a 2xx reply drops the preview and the
        session's avatar URL, clears every error and closes the dialog.
        Any other ending shows the main error on top of the errors from
        before the click (the handler spreads the `errors` of its render). */
    method HandleDeleteAvatar(auth: AuthContext.AuthProvider, reply: Response<()>)
      modifies this`errors, this`avatarPreview, this`showConfirmDelete, this`isDeleting, auth
      ensures !isDeleting
      ensures reply.Ok? ==> avatarPreview == None && errors == NoErrors && !showConfirmDelete
      ensures reply.Ok? && old(auth.user).Some? ==>
                auth.State() == AuthContext.Apply(old(auth.State()),
                                  AuthContext.UpdateUser(old(auth.user).value.(avatarUrl := None))).session
      ensures reply.Ok? && old(auth.user).None? ==> auth.State() == old(auth.State())
      ensures !reply.Ok? ==> errors == old(errors).(main := DeleteAvatarFailed)
                             && avatarPreview == old(avatarPreview) && showConfirmDelete == old(showConfirmDelete)
                             && auth.State() == old(auth.State())
    {
      var before := errors;
      isDeleting := true;
      errors := NoErrors;
      if reply.Ok? {
        avatarPreview := None;
        errors := NoErrors;
        if auth.user.Some? {
          auth.UpdateUser(auth.user.value.(avatarUrl := None));
        }
        showConfirmDelete := false;
      } else {
        errors := before.(main := DeleteAvatarFailed);
      }
      isDeleting := false;
    }

    /** `handleSave`: a form the schema rejects gets the field messages and
        nothing is sent. A valid form is sent; a 2xx reply updates the
        session's user with it and navigates to the profile, any other
        ending sets the main error. */
    method HandleSave(auth: AuthContext.AuthProvider, reply: Response<()>) returns (sent: bool, navigateTo: Option<string>)
      modifies this`errors, this`isSubmitting, auth
      ensures !isSubmitting
      ensures sent <==> Acceptable(formData)
      ensures !sent ==> errors == Reported(formData) && navigateTo == None && auth.State() == old(auth.State())
      ensures sent && reply.Ok? && old(auth.user).Some? ==>
                var u := old(auth.user).value;
                auth.State() == AuthContext.Apply(old(auth.State()),
                                  AuthContext.UpdateUser(SavedUser(u, formData, avatarPreview))).session
                && navigateTo == Some("/profile/" + u.id) && errors == old(errors)
      ensures sent && reply.Ok? && old(auth.user).None? ==>
                auth.State() == old(auth.State()) && navigateTo == Some("/profile/undefined")
      ensures sent && !reply.Ok? ==>
                errors == old(errors).(main := SaveFailed) && navigateTo == None && auth.State() == old(auth.State())
    {
      isSubmitting := true;
      navigateTo := None;
      sent := Acceptable(formData);
      if !sent {
        ShowValidationErrors();
      } else if reply.Ok? {
        if auth.user.Some? {
          var u := auth.user.value;
          auth.UpdateUser(SavedUser(u, formData, avatarPreview));
          navigateTo := Some("/profile/" + u.id);
        } else {
          navigateTo := Some("/profile/undefined");
        }
      } else {
        errors := errors.(main := SaveFailed);
      }
      isSubmitting := false;
    }

    /** The `catch` of a failed validation: a fresh record filled by the
        `forEach` over the failing tests. */
    method ShowValidationErrors()
      modifies this`errors
      ensures errors == Reported(formData)
    {
      var failures := Validate(formData);
      var messages := Yup.CollectMessages(failures);
      FieldsOfCollected(messages, failures);
      errors := ErrorFields(messages);
    }

    /** The effect on `[user]`: a present user refills the form, drops the
        picked file and resets the preview; no user changes nothing. */
    method Resync(user: Option<User>)
      modifies this`formData, this`avatarPreview
      ensures user.Some? ==> formData == FormOf(user.value) && avatarPreview == PreviewOf(user.value)
      ensures user.None? ==> formData == old(formData) && avatarPreview == old(avatarPreview)
    {
      if user.Some? {
        formData := FormOf(user.value);
        avatarPreview := PreviewOf(user.value);
      }
    }
  }
}
