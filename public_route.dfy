/** `PublicRoute`: pages meant for visitors (login, register) send a signed-in
    user on to the upload page. */
module PublicRoute {
  import opened Values
  import opened Records
  import opened Render
  import AuthContext
  import Http

  const SignedInHome := "/features/upload"

  /** The guard's decision from the store's `loading`, `isAuthenticated` and
      `user`. */
  function Decide(loading: bool, isAuthenticated: bool, user: Option<User>): (r: Render)
    ensures loading ==> r == Placeholder(LoadingText)
    ensures !loading && isAuthenticated && user.Some? ==> r == Redirect(SignedInHome)
    ensures r == Children <==> !loading && !(isAuthenticated && user.Some?)
    ensures r.Redirect? ==> r.to == SignedInHome
  {
    if loading then Placeholder(LoadingText)
    else if isAuthenticated && user.Some? then Redirect(SignedInHome)
    else Children
  }

  function DecideFor(s: AuthContext.Session): Render {
    Decide(s.loading, s.isAuthenticated, s.user)
  }

  /** Once the start-up check is over, a successful login or registration
      takes the visitor away from the public page, unless the reply's data
      had no user: the flag is then set but the page stays. */
  lemma SignInLeavesPublicPage(s: AuthContext.Session, d: AuthContext.AuthData)
    requires !s.loading
    ensures DecideFor(AuthContext.Step(s, AuthContext.Login(Http.Ok(Some(d)))))
            == if d.user.Some? then Redirect(SignedInHome) else Children
    ensures DecideFor(AuthContext.Step(s, AuthContext.Register(Http.Ok(Some(d)))))
            == if d.user.Some? then Redirect(SignedInHome) else Children
  {
  }

  /** After a logout, or once a 401 has cleared the session, the public page
      shows its children again (when not loading). */
  lemma LoggedOutSeesPublicPage(s: AuthContext.Session, f: Http.Failure)
    requires !s.loading
    requires Http.IsUnauthorized(f)
    ensures DecideFor(AuthContext.Step(s, AuthContext.Logout)) == Children
    ensures DecideFor(AuthContext.Step(s, AuthContext.ResponseError(f))) == Children
  {
  }
}
