/**
 * The session (src/context/AuthContext.tsx): the provider's `user` state
 * together with the browser's key/value storage, in which the bearer token
 * lives under "bookToken". Each operation is one atomic step from a session
 * to a session, ending with the promise resolving or rejecting.
 */
module AuthContext {
  import opened Types
  import Js

  const TokenKey := "bookToken"
  const LoginFailed := "Inloggning misslyckades!"
  const RegisterFailed := "Registrering misslyckades!"
  const LogoutFailed := "Fel vid utlogging"

  /** The `user` state and the storage the token is kept in. */
  datatype Session = Session(user: Option<User>, store: map<string, string>)

  /** How the awaited operation ends for its caller: the promise resolves,
      or rejects with an error that `String(error)` prints as `error`. */
  datatype Outcome = Resolved | Rejected(error: string)

  datatype Step = Step(session: Session, outcome: Outcome)

  /** `localStorage.getItem("bookToken")`. */
  function Token(s: Session): Option<string> {
    Lookup(s.store, TokenKey)
  }

  /** Two stores that agree on every key except the token's. */
  ghost predicate SameOtherEntries(a: map<string, string>, b: map<string, string>) {
    forall k :: k != TokenKey ==> Lookup(a, k) == Lookup(b, k)
  }

  /** The provider's operations, each with the reply its request got. */
  datatype AuthOp =
    | Login(credentials: LoginCredentials, loginReply: Response<AuthResponse>)
    | Register(info: RegistrationInfo, registerReply: Response<AuthResponse>)
    | Logout(logoutReply: Response<()>)
    | CheckToken(checkReply: Response<User>)
    | UpdateUser(updated: User)

  /** `login` and `register`: a 2xx reply stores its token and then signs its
      user in; a non-2xx reply rejects with `failure` before anything is
      written; a rejected request or body is rethrown as it came. */
  function SignIn(s: Session, reply: Response<AuthResponse>, failure: string): (r: Step)
    ensures reply.Ok? ==> r.outcome == Resolved && r.session.user == Some(reply.body.user)
                          && Token(r.session) == Some(reply.body.token)
    ensures reply.Failed? ==> r == Step(s, Rejected(Js.ErrorText(failure)))
    ensures reply.Thrown? ==> r == Step(s, Rejected(reply.text))
  {
    match reply
    case Ok(data) => Step(Session(Some(data.user), s.store[TokenKey := data.token]), Resolved)
    case Failed(_) => Step(s, Rejected(Js.ErrorText(failure)))
    case Thrown(text) => Step(s, Rejected(text))
  }

  /** One operation. Whatever happens, no storage entry other than the
      token's is touched. */
  function Apply(s: Session, op: AuthOp): (r: Step)
    ensures SameOtherEntries(s.store, r.session.store)
  {
    match op
    case Login(_, reply) => SignIn(s, reply, LoginFailed)
    case Register(_, reply) => SignIn(s, reply, RegisterFailed)
    case Logout(reply) =>
      (match reply
       case Ok(_) => Step(Session(None, s.store - {TokenKey}), Resolved)
       case Failed(_) => Step(s, Rejected(Js.ErrorText(LogoutFailed)))
       case Thrown(text) => Step(s, Rejected(text)))
    case CheckToken(reply) =>
      if !Js.Truthy(Token(s)) then Step(s, Resolved)
      else
        (match reply
         case Ok(u) => Step(Session(Some(u), s.store), Resolved)
         case Failed(_) => Step(s, Resolved)
         case Thrown(_) => Step(Session(None, s.store - {TokenKey}), Resolved))
    case UpdateUser(u) => Step(Session(Some(u), s.store), Resolved)
  }

  /** The session after the operations `ops`, one after another. */
  function Run(s: Session, ops: seq<AuthOp>): Session
    decreases |ops|
  {
    if ops == [] then s else Run(Apply(s, ops[0]).session, ops[1..])
  }

  /** `checkIfAdmin`: `user?.is_admin === 1`, a strict comparison with the
      number 1. */
  predicate IsAdmin(user: Option<User>) {
    user.Some? && user.value.isAdmin == JsNumber(1)
  }

  /** However the operations go, the storage entries other than the token
      are those the session started with. */
  lemma {:induction false} OnlyTokenChanges(s: Session, ops: seq<AuthOp>)
    ensures SameOtherEntries(s.store, Run(s, ops).store)
    decreases |ops|
  {
    if ops != [] {
      var next := Apply(s, ops[0]).session;
      OnlyTokenChanges(next, ops[1..]);
      forall k | k != TokenKey
        ensures Lookup(s.store, k) == Lookup(Run(s, ops).store, k)
      {
        assert Lookup(s.store, k) == Lookup(next.store, k);
      }
    }
  }

  /** A failed reply to login, register or logout rejects and writes
      nothing; a non-2xx reply to the token check (an expired token's 401)
      writes nothing either and keeps the stale token. */
  lemma FailedRepliesChangeNothing(s: Session, op: AuthOp)
    requires (op.Login? && !op.loginReply.Ok?) || (op.Register? && !op.registerReply.Ok?)
             || (op.Logout? && !op.logoutReply.Ok?) || (op.CheckToken? && op.checkReply.Failed?)
    ensures Apply(s, op).session == s
    ensures !op.CheckToken? <==> Apply(s, op).outcome.Rejected?
  {
  }

  /** A 2xx logout clears both the token and the user. */
  lemma LogoutSignsOut(s: Session)
    ensures var r := Apply(s, Logout(Ok(())));
            r.session.user == None && Token(r.session) == None && r.outcome == Resolved
  {
  }

  /** Only a check whose request throws drops the session; with no token
      (or an empty one) the check does nothing at all. */
  lemma CheckTokenEffects(s: Session, reply: Response<User>)
    ensures !Js.Truthy(Token(s)) ==> Apply(s, CheckToken(reply)).session == s
    ensures Js.Truthy(Token(s)) && reply.Ok? ==>
              Apply(s, CheckToken(reply)).session == Session(Some(reply.body), s.store)
    ensures Js.Truthy(Token(s)) && reply.Thrown? ==>
              var after := Apply(s, CheckToken(reply)).session;
              after.user == None && Token(after) == None
    ensures Apply(s, CheckToken(reply)).outcome == Resolved
  {
  }

  /** A reload after a successful login: the new provider starts with no
      user and the same storage, and a 2xx token check signs the user back
      in exactly when the stored token is not the empty string. */
  lemma ReloadAfterLogin(s: Session, credentials: LoginCredentials, data: AuthResponse, user: User)
    ensures var stored := Apply(s, Login(credentials, Ok(data))).session.store;
            var reloaded := Apply(Session(None, stored), CheckToken(Ok(user))).session;
            (reloaded.user == Some(user) <==> data.token != "")
            && (reloaded.user == None <==> data.token == "")
  {
  }

  /** A session whose user is signed in has a token entry. */
  ghost predicate Consistent(s: Session) {
    s.user.Some? ==> TokenKey in s.store
  }

  /** Every operation keeps the session consistent, except `updateUser`
      called while nobody is signed in. */
  lemma ApplyKeepsConsistent(s: Session, op: AuthOp)
    requires Consistent(s)
    requires op.UpdateUser? ==> s.user.Some?
    ensures Consistent(Apply(s, op).session)
  {
  }

  /** `updateUser` on a signed-out session signs in a user with no token. */
  lemma UpdateUserWithoutSession(u: User)
    ensures Consistent(Session(None, map[]))
    ensures !Consistent(Apply(Session(None, map[]), UpdateUser(u)).session)
  {
  }

  /** `updateUser` is only ever called while a user is signed in. */
  ghost predicate UpdatesWhileSignedIn(s: Session, ops: seq<AuthOp>)
    decreases |ops|
  {
    ops == [] ||
    ((ops[0].UpdateUser? ==> s.user.Some?) && UpdatesWhileSignedIn(Apply(s, ops[0]).session, ops[1..]))
  }

  lemma {:induction false} RunKeepsConsistent(s: Session, ops: seq<AuthOp>)
    requires Consistent(s) && UpdatesWhileSignedIn(s, ops)
    ensures Consistent(Run(s, ops))
    decreases |ops|
  {
    if ops != [] {
      ApplyKeepsConsistent(s, ops[0]);
      RunKeepsConsistent(Apply(s, ops[0]).session, ops[1..]);
    }
  }

  /** `updateUser` replaces the user wholesale and leaves the storage. */
  lemma UpdateUserReplaces(s: Session, u: User)
    ensures Apply(s, UpdateUser(u)) == Step(Session(Some(u), s.store), Resolved)
  {
  }

  /** The AuthProvider component: its `user` state and the storage. */
  class AuthProvider {
    var user: Option<User>
    var storage: map<string, string>

    function State(): Session
      reads this
    {
      Session(user, storage)
    }

    /** A freshly mounted provider: no user yet, whatever storage the
        browser has. */
    constructor (storage0: map<string, string>)
      ensures State() == Session(None, storage0)
    {
      user := None;
      storage := storage0;
    }

    method Login(credentials: LoginCredentials, reply: Response<AuthResponse>) returns (outcome: Outcome)
      modifies this
      ensures Step(State(), outcome) == Apply(old(State()), AuthOp.Login(credentials, reply))
    {
      match reply {
        case Ok(data) =>
          storage := storage[TokenKey := data.token];
          user := Some(data.user);
          outcome := Resolved;
        case Failed(_) =>
          outcome := Rejected(Js.ErrorText(LoginFailed));
        case Thrown(text) =>
          outcome := Rejected(text);
      }
    }

    method Logout(reply: Response<()>) returns (outcome: Outcome)
      modifies this
      ensures Step(State(), outcome) == Apply(old(State()), AuthOp.Logout(reply))
    {
      match reply {
        case Ok(_) =>
          storage := storage - {TokenKey};
          user := None;
          outcome := Resolved;
        case Failed(_) =>
          outcome := Rejected(Js.ErrorText(LogoutFailed));
        case Thrown(text) =>
          outcome := Rejected(text);
      }
    }

    method CheckToken(reply: Response<User>)
      modifies this
      ensures Step(State(), Resolved) == Apply(old(State()), AuthOp.CheckToken(reply))
    {
      var token := Lookup(storage, TokenKey);
      if !Js.Truthy(token) {
        return;
      }
      match reply {
        case Ok(data) =>
          user := Some(data);
        case Failed(_) =>
        case Thrown(_) =>
          storage := storage - {TokenKey};
          user := None;
      }
    }

    method Register(info: RegistrationInfo, reply: Response<AuthResponse>) returns (outcome: Outcome)
      modifies this
      ensures Step(State(), outcome) == Apply(old(State()), AuthOp.Register(info, reply))
    {
      match reply {
        case Ok(data) =>
          storage := storage[TokenKey := data.token];
          user := Some(data.user);
          outcome := Resolved;
        case Failed(_) =>
          outcome := Rejected(Js.ErrorText(RegisterFailed));
        case Thrown(text) =>
          outcome := Rejected(text);
      }
    }

    method UpdateUser(updated: User)
      modifies this
      ensures State() == Apply(old(State()), AuthOp.UpdateUser(updated)).session
    {
      user := Some(updated);
    }
  }
}
