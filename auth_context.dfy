/** The session store (`AuthProvider`): who is logged in, whether the start-up
    check is still running, and the token kept in local storage. Every request
    it makes goes through the response hook it registers on the shared HTTP
    client, so a 401 on any of them ends the session. */
module AuthContext {
  import opened Values
  import opened Records
  import opened Http

  const RegisterFallback := "Registration failed. Please try again."
  const LoginFallback := "Login failed. Please check your credentials."
  const UpdateFallback := "Failed to update profile. Please try again."
  const PasswordFallback := "Failed to change password. Please try again."

  const Undefined := "undefined"

  /** `response.data.data` of a successful register or login; either field
      may be missing from the object. */
  datatype AuthData = AuthData(token: Option<string>, user: Option<User>)

  /** What `register`, `login`, `logout`, `updateProfile` and `changePassword`
      return: `{ success: true, user }` or `{ success: false, error }`. */
  datatype Result = Succeeded(user: Option<User>) | Refused(error: string)

  /** The store's state; `storedToken` is local storage's 'token' entry,
      which the store reads from and writes to the shared `LocalStorage`. */
  datatype Session = Session(user: Option<User>, isAuthenticated: bool, loading: bool, storedToken: Option<string>)

  /** One thing that happens to the store, with the server's reply. */
  datatype Event =
    | CheckAuth(profile: Reply<Option<User>>)
    | Register(auth: Reply<Option<AuthData>>)
    | Login(auth: Reply<Option<AuthData>>)
    | Logout
    | UpdateProfile(updated: Reply<Option<User>>)
    | ChangePassword(changed: Reply<Json>)
    | ResponseError(failure: Failure)

  /** The store as it is mounted: no user, checking, token as persisted. */
  function Initial(stored: Option<string>): (s: Session)
    ensures s.loading && !s.isAuthenticated && s.user.None? && s.storedToken == stored
  {
    Session(None, false, true, stored)
  }

  /** Authenticated only with a user and a stored token entry. */
  predicate Consistent(s: Session) {
    s.isAuthenticated ==> s.user.Some? && s.storedToken.Some?
  }

  /** No user, no flag, no stored token; the loading flag is not touched. */
  function Cleared(s: Session): (r: Session)
    ensures r.user.None? && !r.isAuthenticated && r.storedToken.None?
    ensures r.loading == s.loading
    ensures Consistent(r)
  {
    s.(user := None, isAuthenticated := false, storedToken := None)
  }

  /** The response hook: a 401 clears the session, any other failure leaves it. */
  function Rejected(s: Session, f: Failure): (r: Session)
    ensures IsUnauthorized(f) ==> r == Cleared(s)
    ensures !IsUnauthorized(f) ==> r == s
    ensures Consistent(s) ==> Consistent(r)
  {
    if IsUnauthorized(f) then Cleared(s) else s
  }

  /** `checkAuth`: it always ends with `loading` false; with no token it asks
      nothing and ends logged out; only a profile with data logs in, and every
      other outcome drops the stored token. */
  function Checked(s: Session, profile: Reply<Option<User>>): (r: Session)
    ensures !r.loading
    ensures !Filled(s.storedToken) ==> r.user.None? && !r.isAuthenticated && r.storedToken == s.storedToken
    ensures Filled(s.storedToken) && profile.Ok? && profile.body.Some? ==>
              r.user == profile.body && r.isAuthenticated && r.storedToken == s.storedToken
    ensures Filled(s.storedToken) && !(profile.Ok? && profile.body.Some?) ==>
              r.user.None? && !r.isAuthenticated && r.storedToken.None?
    ensures Consistent(r)
  {
    if !Filled(s.storedToken) then s.(user := None, isAuthenticated := false, loading := false)
    else match profile
      case Ok(Some(u)) => s.(user := Some(u), isAuthenticated := true, loading := false)
      case Ok(None) => Cleared(s).(loading := false)
      case Err(f) => Cleared(Rejected(s, f)).(loading := false)
  }

  /** What `localStorage.setItem('token', token)` stores: the token, or the
      string "undefined" when the reply's data has no token. `None` stands
      for a missing field only: a token sent as `null`, which would be
      stored as "null" and sent as "Bearer null", is not represented. */
  function StoredForm(token: Option<string>): (t: string)
    ensures token.Some? ==> t == token.value
    ensures token.None? ==> t == Undefined
  {
    token.GetOr(Undefined)
  }

  /** `register` / `login`: a reply with data stores its token, takes its
      user and sets the flag, whether or not the data had both fields; a
      reply without data changes nothing; a failed request changes nothing
      unless the response hook saw a 401. */
  function SignedIn(s: Session, auth: Reply<Option<AuthData>>): (r: Session)
    ensures auth.Ok? && auth.body.Some? ==>
              r == s.(storedToken := Some(StoredForm(auth.body.value.token)), user := auth.body.value.user,
                      isAuthenticated := true)
    ensures auth.Ok? && auth.body.None? ==> r == s
    ensures auth.Err? && !IsUnauthorized(auth.failure) ==> r == s
    ensures auth.Err? && IsUnauthorized(auth.failure) ==> r == Cleared(s)
    ensures r.loading == s.loading
    ensures Consistent(s) && !(auth.Ok? && auth.body.Some? && auth.body.value.user.None?) ==> Consistent(r)
    ensures auth.Ok? && auth.body.Some? && auth.body.value.user.None? ==> !Consistent(r)
  {
    match auth
    case Ok(Some(d)) => s.(storedToken := Some(StoredForm(d.token)), user := d.user, isAuthenticated := true)
    case Ok(None) => s
    case Err(f) => Rejected(s, f)
  }

  /** `{ success: true, user }` when the reply carries data; otherwise the
      server's message or the operation's own fallback. */
  function SignInResult(auth: Reply<Option<AuthData>>, fallback: string): (r: Result)
    ensures r.Succeeded? <==> auth.Ok? && auth.body.Some?
    ensures r.Succeeded? ==> r.user == auth.body.value.user
    ensures auth.Err? ==> r == Refused(ServerMessageOr(auth.failure, fallback))
    ensures auth.Ok? && auth.body.None? ==> r == Refused(fallback)
  {
    match auth
    case Ok(Some(d)) => Succeeded(d.user)
    // destructuring a missing body throws a TypeError, which has no server response
    case Ok(None) => Refused(fallback)
    case Err(f) => Refused(ServerMessageOr(f, fallback))
  }

  /** `updateProfile`: the reply's data becomes the user, whatever it is. */
  function ProfileUpdated(s: Session, updated: Reply<Option<User>>): (r: Session)
    ensures updated.Ok? ==> r == s.(user := updated.body)
    ensures updated.Err? ==> r == Rejected(s, updated.failure)
    ensures Consistent(s) && !(updated.Ok? && updated.body.None?) ==> Consistent(r)
    ensures s.isAuthenticated && updated.Ok? && updated.body.None? ==> !Consistent(r)
  {
    match updated
    case Ok(b) => s.(user := b)
    case Err(f) => Rejected(s, f)
  }

  function Step(s: Session, e: Event): Session {
    match e
    case CheckAuth(p) => Checked(s, p)
    case Register(a) => SignedIn(s, a)
    case Login(a) => SignedIn(s, a)
    case Logout => Cleared(s)
    case UpdateProfile(u) => ProfileUpdated(s, u)
    case ChangePassword(c) => if c.Ok? then s else Rejected(s, c.failure)
    case ResponseError(f) => Rejected(s, f)
  }

  function Run(s: Session, es: seq<Event>): Session
    decreases |es|
  {
    if es == [] then s else Run(Step(s, es[0]), es[1..])
  }

  /** An `updateProfile` whose reply carries no data. */
  predicate EmptyProfileUpdate(e: Event) {
    e.UpdateProfile? && e.updated.Ok? && e.updated.body.None?
  }

  /** A `register` or `login` whose reply has data but no `user` in it. */
  predicate UserlessSignIn(e: Event) {
    (e.Register? && e.auth.Ok? && e.auth.body.Some? && e.auth.body.value.user.None?)
    || (e.Login? && e.auth.Ok? && e.auth.body.Some? && e.auth.body.value.user.None?)
  }

  /** Every event keeps the session consistent except a profile update
      whose reply is empty and a sign-in whose data has no user: each of
      those leaves `isAuthenticated` set with no user. */
  lemma {:induction false} RunKeepsConsistent(s: Session, es: seq<Event>)
    requires Consistent(s)
    requires forall i :: 0 <= i < |es| ==> !EmptyProfileUpdate(es[i]) && !UserlessSignIn(es[i])
    ensures Consistent(Run(s, es))
    decreases |es|
  {
    if es != [] {
      assert !EmptyProfileUpdate(es[0]) && !UserlessSignIn(es[0]);
      assert forall i :: 0 <= i < |es[1..]| ==> es[1..][i] == es[i + 1];
      RunKeepsConsistent(Step(s, es[0]), es[1..]);
    }
  }

  lemma {:induction false} RunAppend(s: Session, es: seq<Event>, e: Event)
    ensures Run(s, es + [e]) == Step(Run(s, es), e)
    decreases |es|
  {
    if es == [] {
      assert es + [e] == [e];
    } else {
      assert (es + [e])[1..] == es[1..] + [e];
      RunAppend(Step(s, es[0]), es[1..], e);
    }
  }

  /** Whatever happened before, a final logout leaves no user, no flag and
      no stored token. */
  lemma EndsLoggedOut(s: Session, es: seq<Event>)
    ensures Run(s, es + [Logout]).user.None?
    ensures !Run(s, es + [Logout]).isAuthenticated
    ensures Run(s, es + [Logout]).storedToken.None?
  {
    RunAppend(s, es, Logout);
  }

  /** Logging out twice is logging out once. */
  lemma LogoutIdempotent(s: Session)
    ensures Step(Step(s, Logout), Logout) == Step(s, Logout)
  {
  }

  class AuthProvider {
    var user: Option<User>
    var loading: bool
    var isAuthenticated: bool
    /** Local storage, shared with every other reader of the 'token' entry. */
    const storage: LocalStorage

    function Snapshot(): Session
      reads this, storage
    {
      Session(user, isAuthenticated, loading, storage.token)
    }

    constructor (storage: LocalStorage)
      ensures this.storage == storage
      ensures Snapshot() == Initial(storage.token)
    {
      user := None;
      loading := true;
      isAuthenticated := false;
      this.storage := storage;
    }

    /** The request hook: attach the stored token as a bearer credential. */
    method AttachToken(config: RequestConfig)
      modifies config
      ensures config.headers == WithBearer(old(config.headers), storage.token)
    {
      var token := storage.token;
      if Filled(token) {
        config.headers := config.headers[AuthorizationHeader := BearerPrefix + token.value];
      }
    }

    /** The response hook; the error is always passed on as it came. */
    method ResponseRejected(f: Failure) returns (rejected: Failure)
      modifies this, storage
      ensures Snapshot() == Step(old(Snapshot()), Event.ResponseError(f))
      ensures rejected == f
    {
      if IsUnauthorized(f) {
        storage.token := None;
        user := None;
        isAuthenticated := false;
      }
      rejected := f;
    }

    /** Returns whether the profile was requested. */
    method CheckAuth(profile: Reply<Option<User>>) returns (requested: bool)
      modifies this, storage
      ensures Snapshot() == Step(old(Snapshot()), Event.CheckAuth(profile))
      ensures requested == Filled(old(storage.token))
    {
      requested := Filled(storage.token);
      if !requested {
        user := None;
        isAuthenticated := false;
        loading := false;
        return;
      }
      match profile {
        case Ok(Some(u)) =>
          user := Some(u);
          isAuthenticated := true;
        case Ok(None) =>
          storage.token := None;
          user := None;
          isAuthenticated := false;
        case Err(f) =>
          var _ := ResponseRejected(f);
          storage.token := None;
          user := None;
          isAuthenticated := false;
      }
      loading := false;
    }

    method SignIn(auth: Reply<Option<AuthData>>, fallback: string) returns (r: Result)
      modifies this, storage
      ensures Snapshot() == SignedIn(old(Snapshot()), auth)
      ensures r == SignInResult(auth, fallback)
    {
      match auth
      case Ok(Some(d)) =>
        storage.token := Some(StoredForm(d.token));
        user := d.user;
        isAuthenticated := true;
        r := Succeeded(d.user);
      case Ok(None) =>
        r := Refused(fallback);
      case Err(f) =>
        var _ := ResponseRejected(f);
        r := Refused(ServerMessageOr(f, fallback));
    }

    method Register(auth: Reply<Option<AuthData>>) returns (r: Result)
      modifies this, storage
      ensures Snapshot() == Step(old(Snapshot()), Event.Register(auth))
      ensures r == SignInResult(auth, RegisterFallback)
    {
      r := SignIn(auth, RegisterFallback);
    }

    method Login(auth: Reply<Option<AuthData>>) returns (r: Result)
      modifies this, storage
      ensures Snapshot() == Step(old(Snapshot()), Event.Login(auth))
      ensures r == SignInResult(auth, LoginFallback)
    {
      r := SignIn(auth, LoginFallback);
    }

    method Logout() returns (r: Result)
      modifies this, storage
      ensures Snapshot() == Step(old(Snapshot()), Event.Logout)
      ensures r == Succeeded(None)
    {
      storage.token := None;
      user := None;
      isAuthenticated := false;
      r := Succeeded(None);
    }

    method UpdateProfile(updated: Reply<Option<User>>) returns (r: Result)
      modifies this, storage
      ensures Snapshot() == Step(old(Snapshot()), Event.UpdateProfile(updated))
      ensures updated.Ok? ==> r == Succeeded(updated.body)
      ensures updated.Err? ==> r == Refused(ServerMessageOr(updated.failure, UpdateFallback))
    {
      match updated
      case Ok(b) =>
        user := b;
        r := Succeeded(b);
      case Err(f) =>
        var _ := ResponseRejected(f);
        r := Refused(ServerMessageOr(f, UpdateFallback));
    }

    method ChangePassword(changed: Reply<Json>) returns (r: Result)
      modifies this, storage
      ensures Snapshot() == Step(old(Snapshot()), Event.ChangePassword(changed))
      ensures changed.Ok? ==> r == Succeeded(None)
      ensures changed.Err? ==> r == Refused(ServerMessageOr(changed.failure, PasswordFallback))
    {
      match changed
      case Ok(_) =>
        r := Succeeded(None);
      case Err(f) =>
        var _ := ResponseRejected(f);
        r := Refused(ServerMessageOr(f, PasswordFallback));
    }
  }
}
