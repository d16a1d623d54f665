/** The authentication guard in front of every admin page. */
module ProtectedRoute {
  import opened Nullable
  import opened AuthSlice
  import opened Router

  const LoginPath := "/login"

  /** JavaScript truthiness of a `string | null`: `null` and `""` are falsy. */
  predicate TokenTruthy(token: Option<string>) {
    token.Some? && token.value != ""
  }

  /** A session the guard lets through. */
  predicate FullyAuthenticated(s: AuthState) {
    s.isAuthenticated && TokenTruthy(s.accessToken) && s.user.Some?
  }

  /** A session that is not authenticated, has no token or an empty one, or
      has no user sends the visitor to the login page, remembering where
      they were; otherwise the nested routes render. */
  function Guard(s: AuthState, location: Location): (r: RouteOutcome)
    ensures r.PassThrough? <==> FullyAuthenticated(s)
    ensures r.Redirect? ==> r.to == LoginPath && r.fromLocation == Some(location) && r.replace
  {
    if !s.isAuthenticated || !TokenTruthy(s.accessToken) || s.user.None? then
      Redirect(LoginPath, Some(location), true)
    else
      PassThrough
  }

  /** Each of the three conditions on its own is enough to redirect. */
  lemma EachConditionRedirects(s: AuthState, location: Location)
    requires !s.isAuthenticated || s.accessToken == None || s.accessToken == Some("") || s.user == None
    ensures Guard(s, location) == Redirect(LoginPath, Some(location), true)
  {
  }

  /** After `logOut` (or before any sign-in) every page redirects to login. */
  lemma InitialStateRedirects(location: Location)
    ensures Guard(InitialState, location) == Redirect(LoginPath, Some(location), true)
  {
  }

  /** After `setCredentials(u, t)` the guard passes exactly when the user is
      present and the token non-empty: the `isAuthenticated` flag alone
      does not let a `null` user or an empty token through. */
  lemma CredentialedPassesIff(u: Option<AdminUser>, t: string, location: Location)
    ensures Guard(AuthState(u, Some(t), true), location).PassThrough? <==> u.Some? && t != ""
  {
  }
}
