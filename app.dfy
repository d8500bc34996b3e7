/** The view selection of src/App.tsx: `AppContent` picks one of four views from
    the session's `isLoading` flag and `user`. */
module App {
  import opened Wrappers
  import opened Types
  import opened AuthContext

  /** The four things `AppContent` can render. */
  datatype View = Spinner | LoginForm | HrDashboard | EmployeeDashboard

  /** Loading wins over everything; then no user means the login form; then
      the role decides. A role other than `Hr` takes the employee branch. */
  function Route(isLoading: bool, user: Option<User>): (v: View)
    ensures v == Spinner <==> isLoading
    ensures v == LoginForm <==> !isLoading && user.None?
    ensures v == HrDashboard <==> !isLoading && user.Some? && user.value.role == Hr
    ensures v == EmployeeDashboard <==> !isLoading && user.Some? && user.value.role != Hr
  {
    if isLoading then Spinner
    else if user.None? then LoginForm
    else if user.value.role == Hr then HrDashboard
    else EmployeeDashboard
  }

  /** `AppContent`: ask `useAuth` for the context, then route on it. Outside a
      provider the error of `useAuth` propagates. */
  function AppContent(context: Option<AuthProvider>): (r: Result<View, string>)
    reads if context.Some? then {context.value} else {}
    ensures r.Failure? <==> context.None?
    ensures r.Failure? ==> r.error == OutsideProviderError
    ensures context.Some? ==> r.value == Route(context.value.isLoading, context.value.user)
  {
    match UseAuth(context)
    case Failure(e) => Failure(e)
    case Success(provider) => Success(Route(provider.isLoading, provider.user))
  }

  /** After a login the dashboard matches the address the user signed in with. */
  lemma RouteAfterSignIn(s: Session, email: string, password: string, now: string)
    ensures var t := SignIn(s, email, password, now);
      Route(t.isLoading, t.user) == if email == HrEmail then HrDashboard else EmployeeDashboard
  {
    SignInStoresUser(s, email, password, now);
  }

  /** Logout lands on the login form unless a load is still showing. */
  lemma RouteAfterSignOut(s: Session)
    ensures var t := SignOut(s);
      Route(t.isLoading, t.user) == if s.isLoading then Spinner else LoginForm
  {
    SignOutIdempotent(s);
  }

  /** A first visit with nothing stored shows the login form once mounted. */
  method FirstVisit() returns (before: View, after: View)
    ensures before == Spinner && after == LoginForm
  {
    var storage := new LocalStorage(None);
    var provider := new AuthProvider(storage);
    before := Route(provider.isLoading, provider.user);
    provider.Initialize();
    after := Route(provider.isLoading, provider.user);
  }

  /** Log in on a first visit, then reload the page over the same storage:
      the reloaded provider holds the same user and routes to that user's
      dashboard. Log out and reload again: the login form. */
  method LoginReloadLogout(email: string, password: string, now: string)
    returns (loggedIn: View, reloaded: View, restored: Option<User>, afterLogout: View, reloadedAgain: View)
    ensures loggedIn == reloaded == if email == HrEmail then HrDashboard else EmployeeDashboard
    ensures restored == Some(MockUser(email, now))
    ensures afterLogout == reloadedAgain == LoginForm
  {
    var storage := new LocalStorage(None);
    var first := new AuthProvider(storage);
    first.Initialize();
    first.Login(email, password, now);
    loggedIn := Route(first.isLoading, first.user);

    var second := new AuthProvider(storage);
    second.Initialize();
    restored := second.user;
    reloaded := Route(second.isLoading, second.user);

    second.Logout();
    afterLogout := Route(second.isLoading, second.user);

    var third := new AuthProvider(storage);
    third.Initialize();
    reloadedAgain := Route(third.isLoading, third.user);
  }
}
