/**
 * The session controller: a three-state machine over
 * `Loading | Authenticated | Unauthenticated` holding the current user and
 * backed by the token store. The remote API is an opaque boundary: each
 * remote call is represented by its outcome, passed in as a parameter, and
 * each storage call by whether it throws.
 *
 * The transitions are first given as pure functions of (current session,
 * outcomes); the `AuthProvider` class below updates its fields step by step
 * and is proved to follow them.
 */
module Auth {
  import opened Common
  import opened TokenStore

  datatype AuthStatus = Loading | Authenticated | Unauthenticated

  /** The user record the API returns. */
  datatype User = User(id: string, username: string, email: string, displayName: string)

  /** Everything the controller owns: the user, the status, and the storage under the token store. */
  datatype Session = Session(user: Option<User>, status: AuthStatus, items: map<string, string>)

  /**
   * Outcome of `GET /auth/me`: a 2xx response with its body's `user` (which
   * may be missing), a non-2xx response, or an exception (network failure or
   * an unparsable body).
   */
  datatype MeReply = MeOk(user: Option<User>) | MeRejected | MeThrew

  /**
   * Outcome of `POST /auth/login` or `POST /auth/register`: a parsed response
   * (its `ok` flag and the body's optional `token`, `user` and `message`), or
   * an exception (network failure or an unparsable body).
   */
  datatype Reply =
    | Replied(ok: bool, token: Option<string>, user: Option<User>, message: Option<string>)
    | Threw

  datatype AttemptKind = LoginAttempt | RegisterAttempt

  /** The toast shown to the user. */
  datatype Notice = SuccessToast(text: string) | ErrorToast(text: string)

  /** The new session, the boolean returned to the caller, and the toast. */
  datatype AttemptResult = AttemptResult(session: Session, succeeded: bool, notice: Notice)

  function SuccessText(kind: AttemptKind): string
  {
    match kind
    case LoginAttempt => "Logged in successfully"
    case RegisterAttempt => "Account created successfully"
  }

  /** Fallback when a rejecting response carries no message. */
  function FailureText(kind: AttemptKind): string
  {
    match kind
    case LoginAttempt => "Login failed"
    case RegisterAttempt => "Registration failed"
  }

  /** Message when the request throws. */
  function RetryText(kind: AttemptKind): string
  {
    match kind
    case LoginAttempt => "Login failed. Please try again."
    case RegisterAttempt => "Registration failed. Please try again."
  }

  /** The toast and the route of `logout`. */
  const LogoutText: string := "Logged out successfully"
  const LoginRoute: string := "/login"

  /** The state on mount: no user, status loading, whatever the storage holds. */
  function Initial(items: map<string, string>): Session
  {
    Session(None, Loading, items)
  }

  /** Startup validation (`loadUser`). */
  function LoadUserStep(s: Session, readFails: bool, me: MeReply, removeFails: bool): Session
  {
    var token := ReadResult(s.items, readFails);
    if !Truthy(token) then
      s.(status := Unauthenticated)
    else
      match me
      case MeOk(u) => s.(user := u, status := Authenticated)
      case MeRejected => s.(items := RemoveResult(s.items, removeFails), status := Unauthenticated)
      case MeThrew => s.(status := Unauthenticated)
  }

  /** A response the controller accepts: 2xx with a truthy token. */
  predicate Accepted(reply: Reply)
  {
    reply.Replied? && reply.ok && Truthy(reply.token)
  }

  /** `login` / `register`: status goes to loading, then the reply decides. */
  function AttemptStep(s: Session, kind: AttemptKind, reply: Reply, storeFails: bool): AttemptResult
  {
    var pending := s.(status := Loading);
    match reply
    case Threw =>
      AttemptResult(pending.(status := Unauthenticated), false, ErrorToast(RetryText(kind)))
    case Replied(ok, token, user, message) =>
      if ok && Truthy(token) then
        AttemptResult(Session(user, Authenticated, StoreResult(pending.items, token.value, storeFails)),
                      true, SuccessToast(SuccessText(kind)))
      else
        AttemptResult(pending.(status := Unauthenticated), false,
                      ErrorToast(if Truthy(message) then message.value else FailureText(kind)))
  }

  /** `logout`: purge the token, drop the user, become unauthenticated. */
  function LogoutStep(s: Session, removeFails: bool): Session
  {
    Session(None, Unauthenticated, RemoveResult(s.items, removeFails))
  }

  // ---------------------------------------------------------------------
  // Properties of the transitions
  // ---------------------------------------------------------------------

  /** The controller starts loading, with no user. */
  lemma InitialIsLoading(items: map<string, string>)
    ensures Initial(items).status == Loading && Initial(items).user == None
    ensures Initial(items).items == items
  {
  }

  /**
   * With no readable truthy token, startup ends unauthenticated and the
   * outcome of `/auth/me` plays no part: the call is never made.
   */
  lemma LoadUserWithoutToken(s: Session, readFails: bool, me1: MeReply, me2: MeReply, removeFails: bool)
    requires !Truthy(ReadResult(s.items, readFails))
    ensures LoadUserStep(s, readFails, me1, removeFails) == LoadUserStep(s, readFails, me2, removeFails)
    ensures LoadUserStep(s, readFails, me1, removeFails) == s.(status := Unauthenticated)
  {
  }

  /** A token the API accepts yields the returned user and status authenticated. */
  lemma LoadUserAccepted(s: Session, u: Option<User>, removeFails: bool)
    requires Truthy(Read(s.items))
    ensures LoadUserStep(s, false, MeOk(u), removeFails) == Session(u, Authenticated, s.items)
  {
  }

  /** A token the API rejects is purged (when storage works) and status becomes unauthenticated. */
  lemma LoadUserRejected(s: Session, removeFails: bool)
    requires Truthy(Read(s.items))
    ensures LoadUserStep(s, false, MeRejected, removeFails).status == Unauthenticated
    ensures LoadUserStep(s, false, MeRejected, removeFails).user == s.user
    ensures !removeFails ==> Read(LoadUserStep(s, false, MeRejected, removeFails).items) == None
  {
  }

  /** A validation call that throws leaves status unauthenticated but keeps the stored token. */
  lemma LoadUserThrewKeepsToken(s: Session, removeFails: bool)
    requires Truthy(Read(s.items))
    ensures LoadUserStep(s, false, MeThrew, removeFails) == s.(status := Unauthenticated)
  {
  }

  /**
   * Startup always settles, and it only ends authenticated with a truthy
   * token still stored.
   */
  lemma LoadUserSettles(s: Session, readFails: bool, me: MeReply, removeFails: bool)
    ensures LoadUserStep(s, readFails, me, removeFails).status != Loading
    ensures LoadUserStep(s, readFails, me, removeFails).status == Authenticated ==>
              Truthy(Read(LoadUserStep(s, readFails, me, removeFails).items))
  {
  }

  /** An attempt succeeds exactly when the reply is 2xx with a truthy token, and always settles. */
  lemma AttemptSucceedsIff(s: Session, kind: AttemptKind, reply: Reply, storeFails: bool)
    ensures AttemptStep(s, kind, reply, storeFails).succeeded <==> Accepted(reply)
    ensures AttemptStep(s, kind, reply, storeFails).session.status ==
              if Accepted(reply) then Authenticated else Unauthenticated
  {
  }

  /** A successful attempt stores the token (when storage works) and sets the user. */
  lemma AttemptSuccess(s: Session, kind: AttemptKind, reply: Reply, storeFails: bool)
    requires Accepted(reply)
    ensures AttemptStep(s, kind, reply, storeFails).session.user == reply.user
    ensures AttemptStep(s, kind, reply, storeFails).session.items == StoreResult(s.items, reply.token.value, storeFails)
    ensures !storeFails ==> Read(AttemptStep(s, kind, reply, storeFails).session.items) == reply.token
    ensures AttemptStep(s, kind, reply, storeFails).notice == SuccessToast(SuccessText(kind))
  {
  }

  /**
   * A failed attempt touches neither the storage nor the user; its message is
   * the server's when present, else the fallback, and the retry text when
   * the request threw.
   */
  lemma AttemptFailure(s: Session, kind: AttemptKind, reply: Reply, storeFails: bool)
    requires !Accepted(reply)
    ensures AttemptStep(s, kind, reply, storeFails).session == s.(status := Unauthenticated)
    ensures reply.Threw? ==> AttemptStep(s, kind, reply, storeFails).notice == ErrorToast(RetryText(kind))
    ensures reply.Replied? && Truthy(reply.message) ==>
              AttemptStep(s, kind, reply, storeFails).notice == ErrorToast(reply.message.value)
    ensures reply.Replied? && !Truthy(reply.message) ==>
              AttemptStep(s, kind, reply, storeFails).notice == ErrorToast(FailureText(kind))
  {
  }

  /** A login rejected with message "Invalid credentials" surfaces exactly that message and stores nothing. */
  lemma InvalidCredentialsMessage(s: Session)
    requires Read(s.items) == None
    ensures var r := AttemptStep(s, LoginAttempt, Replied(false, None, None, Some("Invalid credentials")), false);
            !r.succeeded && r.session.status == Unauthenticated && Read(r.session.items) == None &&
            r.notice == ErrorToast("Invalid credentials")
  {
  }

  /**
   * A failed re-login from an authenticated session ends unauthenticated
   * while the user record (and the stored token) stay in place: the
   * controller does not keep "no user while unauthenticated".
   */
  lemma FailedReloginKeepsUser(u: User, items: map<string, string>, kind: AttemptKind)
    ensures var r := AttemptStep(Session(Some(u), Authenticated, items), kind, Replied(false, None, None, None), false);
            r.session.status == Unauthenticated && r.session.user == Some(u) && r.session.items == items
  {
  }

  /** Logout ends unauthenticated without a user, and without a token when storage works. */
  lemma LogoutEnds(s: Session, removeFails: bool)
    ensures LogoutStep(s, removeFails).status == Unauthenticated
    ensures LogoutStep(s, removeFails).user == None
    ensures !removeFails ==> Read(LogoutStep(s, removeFails).items) == None
  {
  }

  /** Logging out twice is logging out once (with storage working if either call had it working). */
  lemma LogoutIdempotent(s: Session, f1: bool, f2: bool)
    ensures LogoutStep(LogoutStep(s, f1), f2) == LogoutStep(s, f1 && f2)
    ensures LogoutStep(LogoutStep(s, false), false) == LogoutStep(s, false)
  {
  }

  // ---------------------------------------------------------------------
  // The provider, updating its fields in place
  // ---------------------------------------------------------------------

  class AuthProvider {
    var user: Option<User>
    var status: AuthStatus
    const storage: TokenStorage

    /** The abstract session this provider and its storage represent. */
    function Snapshot(): Session
      reads this, storage
    {
      Session(user, status, storage.items)
    }

    constructor (storage: TokenStorage)
      ensures this.storage == storage
      ensures Snapshot() == Initial(storage.items)
    {
      user := None;
      status := Loading;
      this.storage := storage;
    }

    /** Startup validation of the stored token. */
    method LoadUser(readFails: bool, me: MeReply, removeFails: bool)
      modifies this, storage
      ensures Snapshot() == LoadUserStep(old(Snapshot()), readFails, me, removeFails)
    {
      var token := storage.GetToken(readFails);
      if !Truthy(token) {
        status := Unauthenticated;
        return;
      }
      match me {
        case MeOk(u) =>
          user := u;
          status := Authenticated;
        case MeRejected =>
          storage.RemoveToken(removeFails);
          status := Unauthenticated;
        case MeThrew =>
          status := Unauthenticated;
      }
    }

    /** The common body of `login` and `register`. */
    method Attempt(kind: AttemptKind, reply: Reply, storeFails: bool) returns (succeeded: bool, notice: Notice)
      modifies this, storage
      ensures AttemptResult(Snapshot(), succeeded, notice) == AttemptStep(old(Snapshot()), kind, reply, storeFails)
    {
      status := Loading;
      match reply {
        case Threw =>
          status := Unauthenticated;
          succeeded, notice := false, ErrorToast(RetryText(kind));
        case Replied(ok, token, u, message) =>
          if ok && Truthy(token) {
            storage.SetToken(token.value, storeFails);
            user := u;
            status := Authenticated;
            succeeded, notice := true, SuccessToast(SuccessText(kind));
          } else {
            status := Unauthenticated;
            succeeded := false;
            notice := ErrorToast(if Truthy(message) then message.value else FailureText(kind));
          }
      }
    }

    /**
     * `login(email, password)`: the credentials form the request body of
     * `POST /auth/login`, whose outcome is `reply`.
     */
    method Login(email: string, password: string, reply: Reply, storeFails: bool)
      returns (succeeded: bool, notice: Notice)
      modifies this, storage
      ensures AttemptResult(Snapshot(), succeeded, notice) == AttemptStep(old(Snapshot()), LoginAttempt, reply, storeFails)
    {
      succeeded, notice := Attempt(LoginAttempt, reply, storeFails);
    }

    /**
     * `register(username, email, password, displayName)`: the arguments form
     * the request body of `POST /auth/register`, whose outcome is `reply`.
     */
    method Register(username: string, email: string, password: string, displayName: string, reply: Reply, storeFails: bool)
      returns (succeeded: bool, notice: Notice)
      modifies this, storage
      ensures AttemptResult(Snapshot(), succeeded, notice) == AttemptStep(old(Snapshot()), RegisterAttempt, reply, storeFails)
    {
      succeeded, notice := Attempt(RegisterAttempt, reply, storeFails);
    }

    /** End the session; returns the toast shown and the route navigated to. */
    method Logout(removeFails: bool) returns (notice: Notice, route: string)
      modifies this, storage
      ensures Snapshot() == LogoutStep(old(Snapshot()), removeFails)
      ensures notice == SuccessToast(LogoutText) && route == LoginRoute
    {
      storage.RemoveToken(removeFails);
      user := None;
      status := Unauthenticated;
      route := LoginRoute;
      notice := SuccessToast(LogoutText);
    }

    /** The stored token for outbound requests; changes nothing. */
    method GetToken(readFails: bool) returns (t: Option<string>)
      ensures t == ReadResult(storage.items, readFails)
    {
      t := storage.GetToken(readFails);
    }
  }
}
