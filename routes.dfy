/** `AppRoutes`: the route table and its `PrivateRoute` guard. */
module AppRoutes {
  import opened Values
  import opened Records
  import opened Render
  import AuthContext
  import Http

  const LoginRoute := "/login"
  const HomeRoute := "/"

  /** `PrivateRoute` reads only `user` and `loading`. */
  function Guard(user: Option<User>, loading: bool): (r: Render)
    ensures loading ==> r == Placeholder(LoadingText)
    ensures !loading && user.None? ==> r == Redirect(LoginRoute)
    ensures r == Children <==> !loading && user.Some?
  {
    if loading then Placeholder(LoadingText)
    else if user.None? then Redirect(LoginRoute)
    else Children
  }

  datatype Page = Landing | LoginPage | RegisterPage | DashboardPage | AnalysisPage | ProfilePage

  /** What the router shows for a path: a page, the guard's placeholder, or a
      navigation to another path. */
  datatype Screen = Show(page: Page) | Wait(text: string) | NavigateTo(to: string)

  predicate Protected(p: Page) {
    p == DashboardPage || p == AnalysisPage || p == ProfilePage
  }

  /** The page a path names, if the table lists it. */
  function PageAt(path: string): (p: Option<Page>)
    ensures p.Some? <==> path in {"/", "/login", "/register", "/dashboard", "/analysis", "/profile"}
  {
    match path
    case "/" => Some(Landing)
    case "/login" => Some(LoginPage)
    case "/register" => Some(RegisterPage)
    case "/dashboard" => Some(DashboardPage)
    case "/analysis" => Some(AnalysisPage)
    case "/profile" => Some(ProfilePage)
    case _ => None
  }

  /** The table: listed public pages are shown, guarded pages pass through
      `PrivateRoute`, and every other path is sent to '/'. */
  function Resolve(path: string, user: Option<User>, loading: bool): Screen {
    match PageAt(path)
    case None => NavigateTo(HomeRoute)
    case Some(p) =>
      if !Protected(p) then Show(p)
      else match Guard(user, loading)
        case Placeholder(t) => Wait(t)
        case Redirect(to) => NavigateTo(to)
        case Children => Show(p)
  }

  /** A guarded page is shown only to a user once loading is over, and then
      it is always shown. */
  lemma ProtectedShownIff(path: string, user: Option<User>, loading: bool)
    requires PageAt(path).Some? && Protected(PageAt(path).value)
    ensures Resolve(path, user, loading) == Show(PageAt(path).value) <==> !loading && user.Some?
    ensures loading ==> Resolve(path, user, loading) == Wait(LoadingText)
    ensures !loading && user.None? ==> Resolve(path, user, loading) == NavigateTo(LoginRoute)
  {
  }

  /** Every path the table does not list goes to '/'. */
  lemma UnmatchedGoesHome(path: string, user: Option<User>, loading: bool)
    requires PageAt(path).None?
    ensures Resolve(path, user, loading) == NavigateTo(HomeRoute)
  {
  }

  /** There is no redirect loop: following one navigation always reaches a
      page that is shown outright. */
  lemma {:induction false} OneHopToPage(path: string, user: Option<User>, loading: bool)
    requires Resolve(path, user, loading).NavigateTo?
    ensures Resolve(Resolve(path, user, loading).to, user, loading).Show?
    ensures !Protected(Resolve(Resolve(path, user, loading).to, user, loading).page)
  {
    var to := Resolve(path, user, loading).to;
    if PageAt(path).None? {
      assert to == "/";
      assert PageAt(to) == Some(Landing);
    } else {
      assert to == "/login";
      assert PageAt(to) == Some(LoginPage);
    }
  }

  /** After a 401 (or a logout) with loading over, every guarded page sends
      the browser to the login page. */
  lemma UnauthorizedLosesProtectedPages(s: AuthContext.Session, f: Http.Failure, path: string)
    requires !s.loading && Http.IsUnauthorized(f)
    requires PageAt(path).Some? && Protected(PageAt(path).value)
    ensures var r := AuthContext.Step(s, AuthContext.ResponseError(f));
            Resolve(path, r.user, r.loading) == NavigateTo(LoginRoute)
    ensures var r := AuthContext.Step(s, AuthContext.Logout);
            Resolve(path, r.user, r.loading) == NavigateTo(LoginRoute)
  {
  }

  /** Once the start-up check has finished, no guarded page is left waiting. */
  lemma CheckedNeverWaits(s: AuthContext.Session, profile: Http.Reply<Option<User>>, path: string)
    ensures var r := AuthContext.Step(s, AuthContext.CheckAuth(profile));
            !Resolve(path, r.user, r.loading).Wait?
  {
  }
}
