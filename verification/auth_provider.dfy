/** The authentication provider: a mock user directory plus at most one
    stored session, and the operations the admin framework calls on them.

    Every operation is a pure function. Those that change something return
    the pair (response, next state); those that only read the session
    return the response alone, so "the state does not change" holds by
    construction. */
module AuthProvider {
  import opened Wrappers

  /** A session record as stored under the `auth` key. */
  datatype User = User(email: string, roles: Option<seq<string>>)

  /** The mock directory of registered emails and the stored session. */
  datatype State = State(users: seq<string>, session: Option<User>)

  /** The `{ name, message }` error object the provider returns. */
  datatype AuthError = AuthError(name: string, message: string)

  /** Response of `login`, `logout`, `register` and the password stubs.
      An absent `redirectTo` or `error` field is `None`. */
  datatype ActionResult = ActionResult(success: bool, redirectTo: Option<string>, error: Option<AuthError>)

  /** Response of `check`; an absent `logout` field is `false`. */
  datatype CheckResult = CheckResult(authenticated: bool, logout: bool, redirectTo: Option<string>, error: Option<AuthError>)

  /** The error the framework hands to `onError`; only its status is inspected. */
  datatype HttpError = HttpError(status: Option<int>, message: string)

  /** Response of `onError`; the empty object `{}` has every field absent. */
  datatype ErrorVerdict = ErrorVerdict(logout: bool, redirectTo: Option<string>, error: Option<HttpError>)

  /** Response of `getIdentity` when a session is stored. */
  datatype Identity = Identity(email: string, roles: Option<seq<string>>, name: string, avatar: string)

  /** The directory every page load starts from. */
  const MockUsers: seq<string> := ["apip@mail.com", "rania@mail.com"]

  const HomeRoute: string := "/"
  const LoginRoute: string := "/login"

  /** Status codes that force a logout: 401 Unauthorized and 403 Forbidden
      (sections 15.5.2 and 15.5.4 of RFC 9110). */
  const StatusUnauthorized: int := 401
  const StatusForbidden: int := 403

  const IdentityName: string := "John Doe"
  const IdentityAvatar: string := "https://i.pravatar.cc/300"

  const LoginFailure: AuthError := AuthError("Invalid email or password", "Login Error")
  const CheckFailure: AuthError := AuthError("Unauthorized", "Check failed")
  const RegisterFailure: AuthError := AuthError("Register Error", "User already exists")

  /** The state after a page load: the fixed directory, and whatever
      session the browser's storage still holds. */
  function Boot(stored: Option<User>): (s: State)
    ensures s.session == stored
    ensures "apip@mail.com" in s.users && "rania@mail.com" in s.users
    ensures |s.users| == 2
    ensures NoDuplicates(s.users)
  {
    State(MockUsers, stored)
  }

  /** No email occurs twice in the directory. */
  predicate NoDuplicates(xs: seq<string>) {
    forall i, j :: 0 <= i < j < |xs| ==> xs[i] != xs[j]
  }

  /** `login`: a known email stores its directory record as the session;
      any other email fails without touching anything. The password is
      never looked at. */
  function Login(s: State, email: string, password: string): (r: (ActionResult, State))
    ensures r.0.success <==> email in s.users
    ensures r.1.users == s.users
    ensures email in s.users ==>
              && r.0.redirectTo == Some(HomeRoute)
              && r.0.error.None?
              && r.1.session == Some(User(email, None))
    ensures email !in s.users ==>
              && r.0.redirectTo.None?
              && r.0.error == Some(LoginFailure)
              && r.1 == s
  {
    if email in s.users then
      // the directory record is `{ email }`: it carries no roles
      (ActionResult(true, Some(HomeRoute), None), s.(session := Some(User(email, None))))
    else
      (ActionResult(false, None, Some(LoginFailure)), s)
  }

  /** `check`: authenticated exactly when a session is stored; otherwise
      the framework is told to log out and go to the login page. */
  function Check(s: State): (r: CheckResult)
    ensures r.authenticated <==> s.session.Some?
    ensures r.authenticated ==> !r.logout && r.redirectTo.None? && r.error.None?
    ensures !r.authenticated ==>
              && r.logout
              && r.redirectTo == Some(LoginRoute)
              && r.error == Some(CheckFailure)
  {
    if s.session.Some? then
      CheckResult(true, false, None, None)
    else
      CheckResult(false, true, Some(LoginRoute), Some(CheckFailure))
  }

  /** `logout`: always succeeds, forgets the session, keeps the directory. */
  function Logout(s: State): (r: (ActionResult, State))
    ensures r.0.success && r.0.redirectTo == Some(LoginRoute) && r.0.error.None?
    ensures r.1.users == s.users
    ensures r.1.session.None?
  {
    (ActionResult(true, Some(LoginRoute), None), s.(session := None))
  }

  /** `onError`: an authorization failure (401 or 403) forces a logout and
      passes the error on; every other error yields the empty response. */
  function OnError(e: HttpError): (r: ErrorVerdict)
    ensures r.logout <==> e.status == Some(StatusUnauthorized) || e.status == Some(StatusForbidden)
    ensures r.logout ==> r.redirectTo == Some(LoginRoute) && r.error == Some(e)
    ensures !r.logout ==> r.redirectTo.None? && r.error.None?
  {
    if e.status == Some(StatusUnauthorized) || e.status == Some(StatusForbidden) then
      ErrorVerdict(true, Some(LoginRoute), Some(e))
    else
      ErrorVerdict(false, None, None)
  }

  /** `getPermissions`: `null` (outer `None`) without a session, otherwise
      the stored `roles` field, which may itself be absent (inner `None`). */
  function GetPermissions(s: State): (r: Option<Option<seq<string>>>)
    ensures r.None? <==> s.session.None?
    ensures s.session.Some? ==> r == Some(s.session.value.roles)
  {
    match s.session
    case None => None
    case Some(u) => Some(u.roles)
  }

  /** `getIdentity`: `null` without a session, otherwise the stored email and
      roles together with a fixed display name and avatar. */
  function GetIdentity(s: State): (r: Option<Identity>)
    ensures r.None? <==> s.session.None?
    ensures s.session.Some? ==>
              && r.value.email == s.session.value.email
              && r.value.roles == s.session.value.roles
              && r.value.name == IdentityName
              && r.value.avatar == IdentityAvatar
  {
    match s.session
    case None => None
    case Some(u) => Some(Identity(u.email, u.roles, IdentityName, IdentityAvatar))
  }

  /** `register`: an email already in the directory is refused and nothing
      changes; a new one is appended at the end. Registering never logs in. */
  function Register(s: State, email: string, password: string): (r: (ActionResult, State))
    ensures r.0.success <==> email !in s.users
    ensures r.1.session == s.session
    ensures email in s.users ==>
              && r.0.redirectTo.None?
              && r.0.error == Some(RegisterFailure)
              && r.1.users == s.users
    ensures email !in s.users ==>
              && r.0.redirectTo == Some(LoginRoute)
              && r.0.error.None?
              && r.1.users == s.users + [email]
  {
    if email in s.users then
      (ActionResult(false, None, Some(RegisterFailure)), s)
    else
      (ActionResult(true, Some(LoginRoute), None), s.(users := s.users + [email]))
  }

  /** `forgotPassword`: a stub that returns before its failure branch, so it
      always succeeds and redirects to the login page. */
  function ForgotPassword(email: string): (r: ActionResult)
    ensures r.success && r.redirectTo == Some(LoginRoute) && r.error.None?
  {
    ActionResult(true, Some(LoginRoute), None)
  }

  /** `updatePassword`: the same always-successful stub. */
  function UpdatePassword(password: string): (r: ActionResult)
    ensures r.success && r.redirectTo == Some(LoginRoute) && r.error.None?
  {
    ActionResult(true, Some(LoginRoute), None)
  }

  /** One call the framework may make on the provider. */
  datatype Call =
    | LoginCall(email: string, password: string)
    | CheckCall
    | LogoutCall
    | OnErrorCall(error: HttpError)
    | PermissionsCall
    | IdentityCall
    | RegisterCall(email: string, password: string)
    | ForgotPasswordCall(email: string)
    | UpdatePasswordCall(password: string)

  /** The state after one call. */
  function Step(s: State, c: Call): State {
    match c
    case LoginCall(email, password) => Login(s, email, password).1
    case LogoutCall => Logout(s).1
    case RegisterCall(email, password) => Register(s, email, password).1
    case _ => s
  }

  /** The state after a sequence of calls, made one after the other. */
  function Run(s: State, calls: seq<Call>): State
    decreases |calls|
  {
    if |calls| == 0 then s else Run(Step(s, calls[0]), calls[1..])
  }

  /** Within one page load: the directory has no duplicate emails and a
      stored session belongs to a directory email. */
  predicate WellFormed(s: State) {
    && NoDuplicates(s.users)
    && (s.session.Some? ==> s.session.value.email in s.users)
  }

  /** `onError` looks only at the status: two errors with the same status
      get the same decision, and the error is passed on unchanged. */
  lemma OnErrorStatusOnly(e1: HttpError, e2: HttpError)
    requires e1.status == e2.status
    ensures OnError(e1).logout == OnError(e2).logout
    ensures OnError(e1).redirectTo == OnError(e2).redirectTo
    ensures OnError(e1).error.Some? ==> OnError(e1).error.value == e1
  {
  }

  /** The password plays no part in `login`. */
  lemma LoginIgnoresPassword(s: State, email: string, p: string, q: string)
    ensures Login(s, email, p) == Login(s, email, q)
  {
  }

  /** A successful login is seen by the next `check`; a failed one leaves
      `check` answering as before. */
  lemma LoginThenCheck(s: State, email: string, password: string)
    ensures var (res, t) := Login(s, email, password);
            (res.success ==> Check(t).authenticated) && (!res.success ==> Check(t) == Check(s))
  {
  }

  /** After `logout` the next `check` is unauthenticated and neither
      permissions nor an identity are available. */
  lemma LogoutThenCheck(s: State)
    ensures var t := Logout(s).1;
            && !Check(t).authenticated
            && Check(t).redirectTo == Some(LoginRoute)
            && GetPermissions(t).None?
            && GetIdentity(t).None?
  {
  }

  /** Identity and permissions agree: both present or both `null`, and the
      identity's roles are the permissions. */
  lemma IdentityMatchesPermissions(s: State)
    ensures GetIdentity(s).Some? <==> GetPermissions(s).Some?
    ensures GetIdentity(s).Some? ==> GetIdentity(s).value.roles == GetPermissions(s).value
  {
  }

  /** Whatever `register` answers, the email can log in afterwards; the
      session is untouched until it does. */
  lemma RegisterThenLogin(s: State, email: string, p: string, q: string)
    ensures var t := Register(s, email, p).1;
            && Check(t) == Check(s)
            && Login(t, email, q).0.success
  {
  }

  /** Registering is idempotent on the directory: a second registration of
      the same email is refused and changes nothing. */
  lemma RegisterTwice(s: State, email: string, p: string, q: string)
    ensures var t := Register(s, email, p).1;
            && !Register(t, email, q).0.success
            && Register(t, email, q).1 == t
  {
  }

  /** `register` grows the directory by exactly one entry on success and
      by none on failure. */
  lemma RegisterSize(s: State, email: string, password: string)
    ensures var (res, t) := Register(s, email, password);
            |t.users| == |s.users| + (if res.success then 1 else 0)
  {
  }

  /** Every single call keeps the state well formed. */
  lemma StepWellFormed(s: State, c: Call)
    requires WellFormed(s)
    ensures WellFormed(Step(s, c))
  {
  }

  /** Any sequence of calls keeps the state well formed. */
  lemma {:induction false} RunWellFormed(s: State, calls: seq<Call>)
    requires WellFormed(s)
    ensures WellFormed(Run(s, calls))
    decreases |calls|
  {
    if |calls| > 0 {
      StepWellFormed(s, calls[0]);
      RunWellFormed(Step(s, calls[0]), calls[1..]);
    }
  }

  /** No call ever removes or reorders a directory entry: the directory
      before a run is a prefix of the directory after it. */
  lemma {:induction false} RunGrowsDirectory(s: State, calls: seq<Call>)
    ensures s.users <= Run(s, calls).users
    decreases |calls|
  {
    if |calls| > 0 {
      RunGrowsDirectory(Step(s, calls[0]), calls[1..]);
    }
  }

  /** An unauthenticated state stays unauthenticated until a successful
      login: a run with no login call never creates a session. */
  lemma {:induction false} NoLoginNoSession(s: State, calls: seq<Call>)
    requires s.session.None?
    requires forall i :: 0 <= i < |calls| ==> !calls[i].LoginCall?
    ensures Run(s, calls).session.None?
    decreases |calls|
  {
    if |calls| > 0 {
      NoLoginNoSession(Step(s, calls[0]), calls[1..]);
    }
  }
}
