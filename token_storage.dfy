/** The 'token' entry as both HTTP clients see it. The session store and the
    `api` client hold the same `LocalStorage`, so each request sees what the
    other last wrote or removed. */
module TokenStorage {
  import opened Values
  import opened Records
  import opened Http
  import AuthContext
  import Api

  /** A login through the session store reaches the `api` client: its next
      request carries the token the login reply brought. */
  method LoginReachesApi(token: string, user: User, headers: map<string, string>)
    returns (sent: map<string, string>)
    ensures sent == WithBearer(headers, Some(token))
  {
    var storage := new LocalStorage(None);
    var session := new AuthContext.AuthProvider(storage);
    var api := new Api.ApiClient(storage, "/");
    var _ := session.Login(Ok(Some(AuthContext.AuthData(Some(token), Some(user)))));
    var config := new RequestConfig(headers);
    api.InterceptRequest(config);
    sent := config.headers;
  }

  /** A 401 that only the `api` client sees removes the token from under a
      logged-in session store. The store keeps its user and its flag, so
      until the browser has loaded '/login' the session is authenticated
      with no stored token. */
  method ApiExpiryOutlivesSession(token: string, user: User)
    returns (s: AuthContext.Session, location: string)
    ensures s.isAuthenticated && s.user == Some(user) && s.storedToken.None?
    ensures !AuthContext.Consistent(s)
    ensures location == Api.LoginPath
  {
    var storage := new LocalStorage(None);
    var session := new AuthContext.AuthProvider(storage);
    var api := new Api.ApiClient(storage, "/");
    var _ := session.Login(Ok(Some(AuthContext.AuthData(Some(token), Some(user)))));
    var _ := api.InterceptError(Failure(Some(Unauthorized), None, None));
    s := session.Snapshot();
    location := api.location;
  }
}
