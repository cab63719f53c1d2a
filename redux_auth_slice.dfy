/** The Redux `auth` slice: user, token and flag, with local storage's
    'token' entry written alongside. */
module ReduxAuthSlice {
  import opened Values
  import opened Records
  import opened Http

  /** The slice state; `storedToken` is local storage's 'token' entry, kept
      in the shared `LocalStorage`. */
  datatype AuthState = AuthState(user: Option<User>, token: Option<string>, isAuthenticated: bool, storedToken: Option<string>)

  datatype Action = SetUser(user: Option<User>) | SetToken(token: Option<string>) | Logout

  /** Built when the store loads: the token is whatever is stored, and the
      flag says whether that is a non-empty string. */
  function Initial(stored: Option<string>): (s: AuthState)
    ensures s.user.None? && s.token == stored && s.storedToken == stored
    ensures s.isAuthenticated <==> Filled(stored)
  {
    AuthState(None, stored, Filled(stored), stored)
  }

  function Reduce(s: AuthState, a: Action): (r: AuthState)
    ensures a.SetUser? ==> r.user == a.user && (r.isAuthenticated <==> a.user.Some?)
                           && r.token == s.token && r.storedToken == s.storedToken
    ensures a.SetToken? ==> r.token == a.token && (r.isAuthenticated <==> Filled(a.token))
                            && r.user == s.user
                            && r.storedToken == (if Filled(a.token) then a.token else None)
    ensures a.Logout? ==> r == AuthState(None, None, false, None)
  {
    match a
    case SetUser(u) => s.(user := u, isAuthenticated := u.Some?)
    case SetToken(t) =>
      s.(token := t, isAuthenticated := Filled(t), storedToken := if Filled(t) then t else None)
    case Logout => AuthState(None, None, false, None)
  }

  function Run(s: AuthState, actions: seq<Action>): AuthState
    decreases |actions|
  {
    if actions == [] then s else Run(Reduce(s, actions[0]), actions[1..])
  }

  /** Storage holds the slice's token when it is a non-empty string and
      nothing otherwise. */
  predicate Synced(s: AuthState) {
    s.storedToken == if Filled(s.token) then s.token else None
  }

  /** Every action keeps storage in step with the token, and `setToken` and
      `logout` bring it into step from any state. */
  lemma ReduceSyncs(s: AuthState, a: Action)
    ensures Synced(s) ==> Synced(Reduce(s, a))
    ensures !a.SetUser? ==> Synced(Reduce(s, a))
  {
  }

  /** The loaded state is in step unless the stored entry is the empty
      string, which `!!` reads as logged out but which stays in storage. */
  lemma InitialSynced(stored: Option<string>)
    ensures Synced(Initial(stored)) <==> stored != Some("")
  {
  }

  lemma {:induction false} RunSynced(s: AuthState, actions: seq<Action>)
    requires Synced(s)
    ensures Synced(Run(s, actions))
    decreases |actions|
  {
    if actions != [] {
      ReduceSyncs(s, actions[0]);
      RunSynced(Reduce(s, actions[0]), actions[1..]);
    }
  }

  /** Each reducer gives the same state when applied twice with the same
      payload; in particular `logout` is idempotent. */
  lemma ReduceIdempotent(s: AuthState, a: Action)
    ensures Reduce(Reduce(s, a), a) == Reduce(s, a)
  {
  }

  /** The slice held by the store, updated in place by its reducers. */
  class AuthSlice {
    var user: Option<User>
    var token: Option<string>
    var isAuthenticated: bool
    /** Local storage, shared with every other reader of the 'token' entry. */
    const storage: LocalStorage

    function State(): AuthState
      reads this, storage
    {
      AuthState(user, token, isAuthenticated, storage.token)
    }

    constructor (storage: LocalStorage)
      ensures this.storage == storage
      ensures State() == Initial(storage.token)
    {
      user := None;
      token := storage.token;
      isAuthenticated := Filled(storage.token);
      this.storage := storage;
    }

    method SetUser(payload: Option<User>)
      modifies this
      ensures State() == Reduce(old(State()), Action.SetUser(payload))
    {
      user := payload;
      isAuthenticated := payload.Some?;
    }

    method SetToken(payload: Option<string>)
      modifies this, storage
      ensures State() == Reduce(old(State()), Action.SetToken(payload))
    {
      token := payload;
      isAuthenticated := Filled(payload);
      if Filled(payload) {
        storage.token := payload;
      } else {
        storage.token := None;
      }
    }

    method Logout()
      modifies this, storage
      ensures State() == Reduce(old(State()), Action.Logout)
    {
      user := None;
      token := None;
      isAuthenticated := false;
      storage.token := None;
    }
  }
}
