/** The sign-in page: where a signed-in user is sent, when the Sign In
    button can be pressed, and what pressing it does. */
module LoginPage {
  import opened Common
  import opened Records
  import opened Auth

  const AdminRoute: string := "/admin/dashboard"
  const ChefRoute: string := "/chef/dashboard"
  const DonorRoute: string := "/donateur/dashboard"
  const RootRoute: string := "/"

  /** `roleRoutes[user.role] || '/'`: the landing page of each known role,
      the root page for any other role. */
  function RoleRoute(role: string): (r: string)
    ensures role == "admin" ==> r == AdminRoute
    ensures role == "chef_projet" ==> r == ChefRoute
    ensures role == "donateur" ==> r == DonorRoute
    ensures r == RootRoute <==> role !in {"admin", "chef_projet", "donateur"}
  {
    if role == "admin" then AdminRoute
    else if role == "chef_projet" then ChefRoute
    else if role == "donateur" then DonorRoute
    else RootRoute
  }

  /** The destination the page navigates to, if any: only a signed-in store
      with a user set redirects, to that user's landing page. */
  function RedirectTarget(isAuthenticated: bool, user: Option<User>): (r: Option<string>)
    ensures r.Some? <==> isAuthenticated && user.Some?
    ensures r.Some? ==> r.value == RoleRoute(user.value.role)
  {
    if isAuthenticated && user.Some? then Some(RoleRoute(user.value.role)) else None
  }

  /** In a store that keeps its invariant, the page redirects exactly when
      the store says someone is signed in. */
  lemma ConsistentStoreRedirects(s: AuthState)
    requires Consistent(s)
    ensures RedirectTarget(s.isAuthenticated, s.user).Some? <==> s.isAuthenticated
  {
  }

  /** `disabled={isLoading || !email || !password}`, negated. */
  function CanSubmit(isLoading: bool, email: string, password: string): (r: bool)
    ensures r <==> !isLoading && |email| > 0 && |password| > 0
  {
    !(isLoading || email == "" || password == "")
  }

  /** A sign-in that succeeds sends the user to the landing page of their
      role, whatever the store held before. */
  lemma LoginThenRedirect(s: AuthState, users: seq<User>, email: string, password: string)
    requires Authenticate(users, email, password).LoggedIn?
    ensures var t := Settle(s, Authenticate(users, email, password));
            RedirectTarget(t.isAuthenticated, t.user) ==
            Some(RoleRoute(Authenticate(users, email, password).user.role))
  {
  }

  /** A sign-in that fails leaves the redirect decision as it was. */
  lemma FailedLoginKeepsRedirect(s: AuthState, users: seq<User>, email: string, password: string)
    requires !Authenticate(users, email, password).LoggedIn?
    ensures var t := Settle(s, Authenticate(users, email, password));
            RedirectTarget(t.isAuthenticated, t.user) == RedirectTarget(s.isAuthenticated, s.user)
  {
  }

  /** `handleSubmit`: the typed e-mail and password go to `login` unchanged. */
  method HandleSubmit(store: AuthStore, email: string, password: string)
    modifies store
    ensures store.State() == Settle(old(store.State()), Authenticate(store.users, email, password))
    ensures old(store.Valid()) ==> store.Valid()
  {
    store.Login(email, password);
  }
}
