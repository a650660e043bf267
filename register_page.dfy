/**
 * The sign-up page (src/pages/RegisterPage.tsx): a name, an e-mail address
 * and a password, checked by a Yup schema, then handed to the session's
 * `register`.
 *
 * Yup's e-mail pattern is not written out: every operation that checks an
 * address takes the pattern as the parameter `isEmail`.
 */
module RegisterPage {
  import opened Types
  import Js
  import Yup
  import AuthContext

  const NameRequired := "Namn måste anges"
  const NameTooShort := "Namn måste innehålla minst 2 tecken"
  const EmailRequired := "Epost får inte vara tomt"
  const EmailInvalid := "Ange en giltig epost adress"
  const PasswordRequired := "Lösenord måste anges"
  const PasswordTooLong := "Lösenord får max innehålla 50 tecken"
  const PasswordTooShort := "Lösenord måste minst innehålla 8 tecken"
  const ApiErrorPrefix := "Något gick fel vid API-anropet: "
  /** `String(error)` for reading `id` of null, as V8 words it. */
  const NullIdError := "TypeError: Cannot read properties of null (reading 'id')"

  /** `name: string().required().min(2)`: an empty name fails both tests. */
  function NameErrors(name: string): (e: seq<Yup.ValidationError>)
    ensures e == [] <==> |name| >= 2
    ensures forall i :: 0 <= i < |e| ==> e[i].path == "name"
    ensures Yup.Last(e) == if |name| < 2 then Some(NameTooShort) else None
  {
    (if name == "" then [Yup.ValidationError("name", NameRequired)] else [])
    + (if |name| < 2 then [Yup.ValidationError("name", NameTooShort)] else [])
  }

  /** `email: string().required().email()`: the pattern test skips the
      empty string, which only `required` rejects. */
  function EmailErrors(email: string, isEmail: string -> bool): (e: seq<Yup.ValidationError>)
    ensures e == [] <==> email != "" && isEmail(email)
    ensures forall i :: 0 <= i < |e| ==> e[i].path == "email"
    ensures Yup.Last(e) == if email == "" then Some(EmailRequired)
                           else if !isEmail(email) then Some(EmailInvalid) else None
  {
    (if email == "" then [Yup.ValidationError("email", EmailRequired)] else [])
    + (if email != "" && !isEmail(email) then [Yup.ValidationError("email", EmailInvalid)] else [])
  }

  /** `password: string().required().max(50).min(8)`. */
  function PasswordErrors(password: string): (e: seq<Yup.ValidationError>)
    ensures e == [] <==> 8 <= |password| <= 50
    ensures forall i :: 0 <= i < |e| ==> e[i].path == "password"
    ensures Yup.Last(e) == if |password| < 8 then Some(PasswordTooShort)
                           else if |password| > 50 then Some(PasswordTooLong) else None
  {
    (if password == "" then [Yup.ValidationError("password", PasswordRequired)] else [])
    + (if |password| > 50 then [Yup.ValidationError("password", PasswordTooLong)] else [])
    + (if |password| < 8 then [Yup.ValidationError("password", PasswordTooShort)] else [])
  }

  function Validate(info: RegistrationInfo, isEmail: string -> bool): seq<Yup.ValidationError> {
    NameErrors(info.name) + EmailErrors(info.email, isEmail) + PasswordErrors(info.password)
  }

  predicate Acceptable(info: RegistrationInfo, isEmail: string -> bool) {
    |info.name| >= 2 && info.email != "" && isEmail(info.email) && 8 <= |info.password| <= 50
  }

  lemma ValidateAccepts(info: RegistrationInfo, isEmail: string -> bool)
    ensures Validate(info, isEmail) == [] <==> Acceptable(info, isEmail)
  {
  }

  /** The message each field shows after a failed validation: the last of
      its failing tests. An empty name or password therefore shows the
      "too short" message, never the "required" one. */
  lemma ShownMessages(info: RegistrationInfo, isEmail: string -> bool)
    ensures Yup.LastMessage(Validate(info, isEmail), "name") ==
              if |info.name| < 2 then Some(NameTooShort) else None
    ensures Yup.LastMessage(Validate(info, isEmail), "email") ==
              if info.email == "" then Some(EmailRequired)
              else if !isEmail(info.email) then Some(EmailInvalid) else None
    ensures Yup.LastMessage(Validate(info, isEmail), "password") ==
              if |info.password| < 8 then Some(PasswordTooShort)
              else if |info.password| > 50 then Some(PasswordTooLong) else None
  {
    var n, e, p := NameErrors(info.name), EmailErrors(info.email, isEmail), PasswordErrors(info.password);
    Yup.SeparateFields(n, e, p, "name", "email", "password", "message");
  }

  /** No message lands under a path the schema does not declare. */
  lemma OnlyDeclaredPaths(info: RegistrationInfo, isEmail: string -> bool, path: string)
    requires path != "name" && path != "email" && path != "password"
    ensures Yup.LastMessage(Validate(info, isEmail), path) == None
  {
    var n, e, p := NameErrors(info.name), EmailErrors(info.email, isEmail), PasswordErrors(info.password);
    Yup.SeparateFields(n, e, p, "name", "email", "password", path);
  }

  /** "short1" is turned away with a message under `password` alone, and
      without a request: a valid name and address make it the only error. */
  lemma ShortPasswordRejected(name: string, email: string, isEmail: string -> bool)
    requires |name| >= 2 && email != "" && isEmail(email)
    ensures !Acceptable(RegistrationInfo(name, email, "short1"), isEmail)
    ensures Yup.LastMessage(Validate(RegistrationInfo(name, email, "short1"), isEmail), "password") == Some(PasswordTooShort)
    ensures Yup.LastMessage(Validate(RegistrationInfo(name, email, "short1"), isEmail), "name") == None
    ensures Yup.LastMessage(Validate(RegistrationInfo(name, email, "short1"), isEmail), "email") == None
  {
    var info := RegistrationInfo(name, email, "short1");
    ShownMessages(info, isEmail);
  }

  /** What a submit that reached `register` leaves: the `errors` object
      and where it navigates. */
  datatype Submitted = Submitted(errors: map<string, string>, navigateTo: Option<string>)

  /** The page as written: after `register` resolves it navigates to
      `/profile/${user!.id}` with the `user` of the render that handled the
      submit, which is the user from before the registration. */
  function AfterRegisterAsWritten(renderUser: Option<User>, outcome: AuthContext.Outcome): Submitted {
    match outcome
    case Rejected(error) => Submitted(map["message" := ApiErrorPrefix + error], None)
    case Resolved =>
      if renderUser.None? then Submitted(map["message" := ApiErrorPrefix + NullIdError], None)
      else Submitted(map[], Some("/profile/" + renderUser.value.id))
  }

  /** The page as intended: a registration that resolves goes to the new
      user's profile with no error; one that rejects shows its error. */
  function AfterRegister(step: AuthContext.Step): Submitted {
    match step.outcome
    case Rejected(error) => Submitted(map["message" := ApiErrorPrefix + error], None)
    case Resolved =>
      if step.session.user.Some? then Submitted(map[], Some("/profile/" + step.session.user.value.id))
      else Submitted(map[], None)
  }

  /** The effect on `[user]`: a signed-in user is sent to their profile. */
  function RedirectSignedIn(user: Option<User>): Option<string> {
    if user.Some? then Some("/profile/" + user.value.id) else None
  }

  /** The sign-up form is only used signed out (a signed-in user is sent
      away by the effect), so `user` is null in the render that handles the
      submit. As written, a registration the server accepts then reads `id`
      of null: the page shows an API error although the account and the
      session exist, and only the effect on the new `user` moves on to the
      profile. As intended, the submit itself goes there with no error. */
  lemma RegisterSuccessShowsErrorAsWritten(store: map<string, string>, info: RegistrationInfo, data: AuthResponse)
    ensures var before := AuthContext.Session(None, store);
            var step := AuthContext.Apply(before, AuthContext.Register(info, Ok(data)));
            step.outcome.Resolved? && step.session.user == Some(data.user)
            && AfterRegisterAsWritten(before.user, step.outcome)
               == Submitted(map["message" := ApiErrorPrefix + NullIdError], None)
            && AfterRegister(step) == Submitted(map[], Some("/profile/" + data.user.id))
            && RedirectSignedIn(step.session.user) == AfterRegister(step).navigateTo
  {
  }

  /** As intended, from any session: a 2xx reply leads to the registered
      user's profile with no error, and any other reply shows the API error
      that names why `register` rejected, without navigating. */
  lemma RegisterOutcomes(s: AuthContext.Session, info: RegistrationInfo, reply: Response<AuthResponse>)
    ensures var r := AfterRegister(AuthContext.Apply(s, AuthContext.Register(info, reply)));
            (reply.Ok? ==> r == Submitted(map[], Some("/profile/" + reply.body.user.id)))
            && (reply.Failed? ==> r == Submitted(map["message" := ApiErrorPrefix + Js.ErrorText(AuthContext.RegisterFailed)], None))
            && (reply.Thrown? ==> r == Submitted(map["message" := ApiErrorPrefix + reply.text], None))
  {
  }

  /** Both versions agree whenever `register` rejects. */
  lemma RejectionsAgree(renderUser: Option<User>, step: AuthContext.Step)
    requires step.outcome.Rejected?
    ensures AfterRegisterAsWritten(renderUser, step.outcome) == AfterRegister(step)
  {
  }

  /** One mounted sign-up page. */
  class RegisterPageState {
    var formData: RegistrationInfo
    var errors: map<string, string>
    var isSubmitting: bool

    constructor ()
      ensures formData == RegistrationInfo("", "", "") && errors == map[] && !isSubmitting
    {
      formData := RegistrationInfo("", "", "");
      errors := map[];
      isSubmitting := false;
    }

    /** `handleSubmit` as written. The errors are cleared first; a form
        the schema rejects gets one message per failing field and
        `register` is not called; otherwise `register` runs on the form and
        the page reacts as `AfterRegisterAsWritten` says. */
    method HandleSubmitAsWritten(auth: AuthContext.AuthProvider, isEmail: string -> bool, reply: Response<AuthResponse>)
      returns (called: bool, navigateTo: Option<string>)
      modifies this`errors, this`isSubmitting, auth
      ensures !isSubmitting
      ensures called <==> Acceptable(formData, isEmail)
      ensures !called ==> navigateTo == None && auth.State() == old(auth.State())
                          && forall path :: Lookup(errors, path) == Yup.LastMessage(Validate(formData, isEmail), path)
      ensures called ==>
                var step := AuthContext.Apply(old(auth.State()), AuthContext.Register(formData, reply));
                auth.State() == step.session
                && Submitted(errors, navigateTo) == AfterRegisterAsWritten(old(auth.user), step.outcome)
    {
      var renderUser := auth.user;
      errors := map[];
      navigateTo := None;
      var failures := Validate(formData, isEmail);
      ValidateAccepts(formData, isEmail);
      called := failures == [];
      if !called {
        errors := Yup.CollectMessages(failures);
      } else {
        var outcome := auth.Register(formData, reply);
        match outcome {
          case Rejected(error) =>
            errors := map["message" := ApiErrorPrefix + error];
          case Resolved =>
            if renderUser.None? {
              errors := map["message" := ApiErrorPrefix + NullIdError];
            } else {
              navigateTo := Some("/profile/" + renderUser.value.id);
            }
        }
      }
      isSubmitting := false;
    }

    /** `handleSubmit` with the navigation taken from the session that
        `register` left behind. */
    method HandleSubmit(auth: AuthContext.AuthProvider, isEmail: string -> bool, reply: Response<AuthResponse>)
      returns (called: bool, navigateTo: Option<string>)
      modifies this`errors, this`isSubmitting, auth
      ensures !isSubmitting
      ensures called <==> Acceptable(formData, isEmail)
      ensures !called ==> navigateTo == None && auth.State() == old(auth.State())
                          && forall path :: Lookup(errors, path) == Yup.LastMessage(Validate(formData, isEmail), path)
      ensures called ==>
                var step := AuthContext.Apply(old(auth.State()), AuthContext.Register(formData, reply));
                auth.State() == step.session && Submitted(errors, navigateTo) == AfterRegister(step)
      ensures called && reply.Ok? ==> errors == map[] && navigateTo == Some("/profile/" + reply.body.user.id)
    {
      errors := map[];
      navigateTo := None;
      var failures := Validate(formData, isEmail);
      ValidateAccepts(formData, isEmail);
      called := failures == [];
      if !called {
        errors := Yup.CollectMessages(failures);
      } else {
        var outcome := auth.Register(formData, reply);
        match outcome {
          case Rejected(error) =>
            errors := map["message" := ApiErrorPrefix + error];
          case Resolved =>
            if auth.user.Some? {
              navigateTo := Some("/profile/" + auth.user.value.id);
            }
        }
      }
      isSubmitting := false;
    }
  }
}
