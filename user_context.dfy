/** The session store of the client (the user context provider): the
    in-memory `user` record, the `'user'` snapshot in session storage, the
    `'token'` slot in local storage and the browser's current path.

    The network is not modelled: the reply to a registration or login
    request is a parameter of type `Outcome`, and every request the store
    posts is appended to `requests`, so that "no request was sent" can be
    stated.  Session storage holds the record itself (its JSON encoding is
    not modelled). */
module Session {
  import opened Common

  /** The `user` record: `email` is `None` where the record has no `email`
      key at all, as in the record `logout` installs. */
  datatype User = User(id: string, name: string, email: Option<string>, role: string, auth: bool)

  /** The identity the server returns, or that a caller hands to `login`. */
  datatype Identity = Identity(id: string, name: string, email: string, role: string)

  /** The reply to a registration or login request: the returned user and
      token, or a failure carrying `response.data.message` when the server
      sent one and the client-side `error.message`. */
  datatype Outcome =
    | Ok(identity: Identity, token: string)
    | Err(serverMessage: Option<string>, errorMessage: string)

  /** The `{success, message}` object `register` and `loginWithCredentials` return. */
  datatype AuthResult = AuthResult(success: bool, message: string)

  /** A request body posted to the authentication API. */
  datatype Request =
    | RegisterPost(name: Input, email: Input, password: Input)
    | LoginPost(email: Input, password: Input)

  /** The whole state the store owns.  `seenAuth` is the value of
      `user.auth` the redirect effect last ran for (`None` before its first
      run after a page load). */
  datatype Store = Store(
    user: User,
    sessionUser: Option<User>,
    token: Option<string>,
    path: string,
    seenAuth: Option<bool>,
    requests: seq<Request>)

  /** The user a fresh page shows when session storage holds no snapshot. */
  const Empty := User("", "", Some(""), "", false)

  /** The record `logout` installs: it has no `email` key. */
  const Reset := User("", "", None, "", false)

  /** The paths an unauthenticated user may stay on. */
  const AllowedPaths := ["/login", "/register"]

  const LoginPath := "/login"

  predicate Anonymous(u: User) {
    && !u.auth
    && u.id == "" && u.name == "" && u.role == ""
    && (u.email == None || u.email == Some(""))
  }

  /** The identity a user record carries, when it carries all four fields. */
  function IdentityOf(u: User): Option<Identity> {
    match u.email
    case Some(e) => Some(Identity(u.id, u.name, e, u.role))
    case None => None
  }

  /** The store's invariant: a snapshot in session storage is the in-memory
      user; without one the user is anonymous; and once the redirect effect
      has run for an unauthenticated user, the path is a public one. */
  predicate Consistent(s: Store) {
    && (match s.sessionUser
        case Some(u) => u == s.user
        case None => Anonymous(s.user))
    && (s.seenAuth == Some(false) ==> s.path in AllowedPaths)
  }

  /** The initial `user` state: the snapshot if there is one, else `Empty`. */
  function Hydrated(stored: Option<User>): User {
    match stored
    case Some(u) => u
    case None => Empty
  }

  /** The store right after a page load. */
  function Hydrate(stored: Option<User>, token: Option<string>, path: string): (s: Store)
    ensures Consistent(s)
    ensures s.sessionUser == stored && s.token == token && s.path == path
    ensures s.seenAuth == None && s.requests == []
    ensures stored.Some? ==> s.user == stored.value
    ensures stored.None? ==> Anonymous(s.user) && s.user.email == Some("")
  {
    Store(Hydrated(stored), stored, token, path, None, [])
  }

  /** `setUserState(userData)`: the authenticated user built from the
      identity, installed in memory and in session storage. */
  function WithIdentity(s: Store, d: Identity): (r: Store)
    ensures Consistent(s) ==> Consistent(r)
    ensures r.user.auth && IdentityOf(r.user) == Some(d)
    ensures r.sessionUser == Some(r.user)
    ensures r.(user := s.user, sessionUser := s.sessionUser) == s
  {
    var u := User(d.id, d.name, Some(d.email), d.role, true);
    s.(user := u, sessionUser := Some(u))
  }

  /** The store after a registration or login request `req` whose reply is `o`. */
  function Settled(s: Store, req: Request, o: Outcome): (r: Store)
    ensures Consistent(s) ==> Consistent(r)
    ensures r.requests == s.requests + [req]
    ensures r.path == s.path && r.seenAuth == s.seenAuth
    ensures o.Err? ==> r.user == s.user && r.sessionUser == s.sessionUser && r.token == s.token
    ensures o.Ok? ==> r.user.auth && IdentityOf(r.user) == Some(o.identity)
    ensures o.Ok? ==> r.sessionUser == Some(r.user) && r.token == Some(o.token)
  {
    var sent := s.(requests := s.requests + [req]);
    match o
    case Ok(d, t) => WithIdentity(sent.(token := Some(t)), d)
    case Err(_, _) => sent
  }

  /** The result object: success with the fixed message, or failure with the
      server's message, falling back to `fallback`.  The client-side
      `error.message` never reaches the result. */
  function Reply(o: Outcome, okMessage: string, fallback: string): (r: AuthResult)
    ensures r.success <==> o.Ok?
    ensures o.Ok? ==> r.message == okMessage
    ensures o.Err? && o.serverMessage.Some? && o.serverMessage.value != "" ==> r.message == o.serverMessage.value
    ensures o.Err? && (o.serverMessage.None? || o.serverMessage == Some("")) ==> r.message == fallback
  {
    match o
    case Ok(_, _) => AuthResult(true, okMessage)
    case Err(server, _) => AuthResult(false, Or(server, fallback))
  }

  /** The result `register` returns. */
  function RegisterReply(o: Outcome): (r: AuthResult)
    ensures r.success <==> o.Ok?
    ensures o.Ok? ==> r.message == "Registration successful"
    ensures o.Err? && o.serverMessage.Some? && o.serverMessage.value != "" ==> r.message == o.serverMessage.value
    ensures o.Err? && (o.serverMessage.None? || o.serverMessage == Some("")) ==> r.message == "Registration failed"
  {
    Reply(o, "Registration successful", "Registration failed")
  }

  /** The result `loginWithCredentials` returns. */
  function LoginReply(o: Outcome): (r: AuthResult)
    ensures r.success <==> o.Ok?
    ensures o.Ok? ==> r.message == "Login successful"
    ensures o.Err? && o.serverMessage.Some? && o.serverMessage.value != "" ==> r.message == o.serverMessage.value
    ensures o.Err? && (o.serverMessage.None? || o.serverMessage == Some("")) ==> r.message == "Login failed"
  {
    Reply(o, "Login successful", "Login failed")
  }

  /** `logout()`: the reset record, both storage slots removed, and the
      browser sent to the login page. */
  function LoggedOut(s: Store): (r: Store)
    ensures Consistent(r)
    ensures !r.user.auth && r.user.id == "" && r.user.name == "" && r.user.role == ""
    ensures r.user.email == None
    ensures r.sessionUser == None && r.token == None && r.path == LoginPath
    ensures r.seenAuth == s.seenAuth && r.requests == s.requests
  {
    s.(user := Reset, sessionUser := None, token := None, path := LoginPath)
  }

  /** The redirect the effect performs: an unauthenticated user on any path
      other than `/login` or `/register` is sent to `/login`. */
  function Redirected(auth: bool, path: string): (r: string)
    ensures auth ==> r == path
    ensures !auth ==> r in AllowedPaths
    ensures !auth && path !in AllowedPaths ==> r == LoginPath
    ensures r == path <==> auth || path in AllowedPaths
  {
    if !auth && path !in AllowedPaths then LoginPath else path
  }

  /** The effect keyed on `user.auth`: it runs only when `user.auth` differs
      from the value it last ran for. */
  function Effects(s: Store): (r: Store)
    ensures Consistent(s) ==> Consistent(r)
    ensures Consistent(s) && !r.user.auth ==> r.path in AllowedPaths
    ensures r.seenAuth == Some(s.user.auth)
    ensures r.(path := s.path, seenAuth := s.seenAuth) == s
    ensures s.seenAuth == Some(s.user.auth) ==> r == s
    ensures s.seenAuth != Some(s.user.auth) ==> r.path == Redirected(s.user.auth, s.path)
  {
    if s.seenAuth == Some(s.user.auth) then s
    else s.(seenAuth := Some(s.user.auth), path := Redirected(s.user.auth, s.path))
  }

  /** One thing that can happen to the store after a page load. */
  datatype Step =
    | Install(identity: Identity)
    | Attempt(request: Request, outcome: Outcome)
    | SignOut
    | Effect

  function Apply(s: Store, step: Step): Store {
    match step
    case Install(d) => WithIdentity(s, d)
    case Attempt(req, o) => Settled(s, req, o)
    case SignOut => LoggedOut(s)
    case Effect => Effects(s)
  }

  /** The store after a sequence of steps, applied in order. */
  function Run(s: Store, steps: seq<Step>): Store {
    if steps == [] then s else Apply(Run(s, steps[..|steps| - 1]), steps[|steps| - 1])
  }

  /** The number of requests a sequence of steps sends. */
  function Attempts(steps: seq<Step>): nat {
    if steps == [] then 0
    else Attempts(steps[..|steps| - 1]) + (if steps[|steps| - 1].Attempt? then 1 else 0)
  }

  /** The invariant of a store whose snapshot the provider wrote itself: it
      is consistent, and a snapshot in session storage is always of an
      authenticated user, since `setUserState` only writes those and
      `logout` removes the slot. */
  predicate Sound(s: Store) {
    && Consistent(s)
    && (s.sessionUser.Some? ==> s.sessionUser.value.auth)
  }

  /** In a sound store, a user who is not signed in has an empty id, name,
      role and email. */
  lemma SoundSignedOutIsAnonymous(s: Store)
    requires Sound(s)
    ensures !s.user.auth ==> Anonymous(s.user) && s.sessionUser.None?
  {
  }

  /** A page load gives a sound store exactly when there is no snapshot or
      the snapshot is of an authenticated user. */
  lemma HydrateSound(stored: Option<User>, token: Option<string>, path: string)
    ensures Sound(Hydrate(stored, token, path)) <==> stored.None? || stored.value.auth
  {
  }

  /** Every sequence of operations keeps a sound store sound. */
  lemma {:induction false} RunKeepsSound(s: Store, steps: seq<Step>)
    requires Sound(s)
    ensures Sound(Run(s, steps))
  {
    if steps != [] {
      RunKeepsSound(s, steps[..|steps| - 1]);
    }
  }

  /** Over the whole life of a page, every sequence of operations keeps the
      store consistent, only registration and login attempts send requests,
      and once the last step is the redirect effect an anonymous user is on
      `/login` or `/register`. */
  lemma {:induction false} RunKeepsConsistent(s: Store, steps: seq<Step>)
    requires Consistent(s)
    ensures Consistent(Run(s, steps))
    ensures |Run(s, steps).requests| == |s.requests| + Attempts(steps)
    ensures |steps| > 0 && steps[|steps| - 1] == Effect && !Run(s, steps).user.auth ==>
      Run(s, steps).path in AllowedPaths
  {
    if steps != [] {
      RunKeepsConsistent(s, steps[..|steps| - 1]);
    }
  }

  /** The provider's state as it lives in the browser. */
  class SessionStore {
    var user: User
    var sessionUser: Option<User>
    var token: Option<string>
    var path: string
    var seenAuth: Option<bool>
    var requests: seq<Request>

    function State(): Store
      reads this
    {
      Store(user, sessionUser, token, path, seenAuth, requests)
    }

    predicate Valid()
      reads this
    {
      Consistent(State())
    }

    /** Page load: `user` is hydrated from the session-storage snapshot. */
    constructor (stored: Option<User>, storedToken: Option<string>, currentPath: string)
      ensures Valid()
      ensures State() == Hydrate(stored, storedToken, currentPath)
    {
      user := if stored.Some? then stored.value else Empty;
      sessionUser := stored;
      token := storedToken;
      path := currentPath;
      seenAuth := None;
      requests := [];
    }

    method SetUserState(d: Identity)
      requires Valid()
      modifies this
      ensures Valid()
      ensures State() == WithIdentity(old(State()), d)
    {
      var newUser := User(d.id, d.name, Some(d.email), d.role, true);
      user := newUser;
      sessionUser := Some(newUser);
    }

    method Register(name: Input, email: Input, password: Input, outcome: Outcome) returns (r: AuthResult)
      requires Valid()
      modifies this
      ensures Valid()
      ensures State() == Settled(old(State()), RegisterPost(name, email, password), outcome)
      ensures r == RegisterReply(outcome)
    {
      requests := requests + [RegisterPost(name, email, password)];
      match outcome
      case Ok(d, t) =>
        token := Some(t);
        SetUserState(d);
        r := AuthResult(true, "Registration successful");
      case Err(server, _) =>
        r := AuthResult(false, Or(server, "Registration failed"));
    }

    /** `login(userData)`: installs a caller-supplied identity; sends no
        request and leaves the token alone. */
    method Login(d: Identity)
      requires Valid()
      modifies this
      ensures Valid()
      ensures State() == WithIdentity(old(State()), d)
      ensures token == old(token) && requests == old(requests)
    {
      SetUserState(d);
    }

    method LoginWithCredentials(email: Input, password: Input, outcome: Outcome) returns (r: AuthResult)
      requires Valid()
      modifies this
      ensures Valid()
      ensures State() == Settled(old(State()), LoginPost(email, password), outcome)
      ensures r == LoginReply(outcome)
    {
      requests := requests + [LoginPost(email, password)];
      match outcome
      case Ok(d, t) =>
        token := Some(t);
        SetUserState(d);
        r := AuthResult(true, "Login successful");
      case Err(server, _) =>
        r := AuthResult(false, Or(server, "Login failed"));
    }

    method Logout()
      requires Valid()
      modifies this
      ensures Valid()
      ensures State() == LoggedOut(old(State()))
    {
      user := Reset;
      sessionUser := None;
      token := None;
      path := LoginPath;
    }

    /** The redirect effect, run after a render: it fires when `user.auth`
        changed since its last run (and once after a page load). */
    method RunEffects()
      requires Valid()
      modifies this
      ensures Valid()
      ensures State() == Effects(old(State()))
      ensures !user.auth ==> path in AllowedPaths
    {
      if seenAuth != Some(user.auth) {
        seenAuth := Some(user.auth);
        if !user.auth && path !in AllowedPaths {
          path := LoginPath;
        }
      }
    }
  }

  /** `logout` applied twice leaves the store as applying it once does. */
  lemma LogoutIdempotent(s: Store)
    ensures LoggedOut(LoggedOut(s)) == LoggedOut(s)
  {
  }

  /** Running the redirect effect again, with nothing changed, does nothing. */
  lemma EffectsIdempotent(s: Store)
    ensures Effects(Effects(s)) == Effects(s)
  {
  }

  /** A page reload hydrates the same session: an authenticated user comes
      back unchanged, and an unauthenticated one comes back unauthenticated
      with the same (empty) identity fields. */
  lemma ReloadRestoresSession(s: Store)
    requires Consistent(s)
    ensures s.user.auth ==> Hydrated(s.sessionUser) == s.user
    ensures Hydrated(s.sessionUser).auth == s.user.auth
    ensures !s.user.auth ==> Anonymous(Hydrated(s.sessionUser)) || Hydrated(s.sessionUser) == s.user
  {
  }

  /** A failed registration or login changes nothing but the request log,
      whatever the client-side error text was, and its message never
      depends on that text. */
  lemma FailureChangesOnlyTheLog(s: Store, req: Request, server: Option<string>, e1: string, e2: string)
    ensures Settled(s, req, Err(server, e1)) == s.(requests := s.requests + [req])
    ensures LoginReply(Err(server, e1)) == LoginReply(Err(server, e2))
    ensures RegisterReply(Err(server, e1)) == RegisterReply(Err(server, e2))
    ensures !RegisterReply(Err(server, e1)).success && RegisterReply(Err(server, e1)).message != ""
    ensures !LoginReply(Err(server, e1)).success && LoginReply(Err(server, e1)).message != ""
  {
  }

  /** A successful login from the anonymous state authenticates the user
      with the returned email and persists both the snapshot and the token;
      the redirect effect then leaves the path alone. */
  lemma SuccessfulLoginFromAnonymous(s: Store, email: Input, password: Input, d: Identity, t: string)
    requires Consistent(s) && !s.user.auth
    ensures var r := Settled(s, LoginPost(email, password), Ok(d, t));
      && r.user.auth && r.user.email == Some(d.email)
      && r.sessionUser == Some(r.user) && r.token == Some(t)
      && Effects(r).path == s.path
      && LoginReply(Ok(d, t)) == AuthResult(true, "Login successful")
  {
  }
}
