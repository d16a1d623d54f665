/** The role guard in front of pages reserved to some admin roles. */
module RequireRole {
  import opened Nullable
  import opened AuthSlice
  import opened Router

  const RootPath := "/"

  /** The role is on the allow-list, compared by exact string equality. */
  predicate RoleAllowed(s: AuthState, allowedRoles: seq<string>) {
    s.user.Some? && s.user.value.adminRole in allowedRoles
  }

  /** A missing user, or a role not on the allow-list, redirects to the
      dashboard, replacing the history entry; otherwise the nested routes
      render. The `isAuthenticated` flag is not consulted. */
  function Guard(s: AuthState, allowedRoles: seq<string>): (r: RouteOutcome)
    ensures r.PassThrough? <==> RoleAllowed(s, allowedRoles)
    ensures r.Redirect? ==> r == Redirect(RootPath, None, true)
  {
    if s.user.None? || s.user.value.adminRole !in allowedRoles then
      Redirect(RootPath, None, true)
    else
      PassThrough
  }

  /** An empty allow-list lets nobody through. */
  lemma EmptyAllowListRedirects(s: AuthState)
    ensures Guard(s, []) == Redirect(RootPath, None, true)
  {
  }

  /** Adding roles to the allow-list never turns a pass into a redirect. */
  lemma Monotone(s: AuthState, allowed: seq<string>, wider: seq<string>)
    requires forall role :: role in allowed ==> role in wider
    ensures Guard(s, allowed).PassThrough? ==> Guard(s, wider).PassThrough?
  {
  }

  /** Membership is exact: a support admin does not pass a super-admin-only
      route, and a super admin does. */
  lemma SuperAdminOnly(s: AuthState)
    requires s.user.Some?
    ensures s.user.value.adminRole == "SUPPORT_ADMIN" ==> Guard(s, ["SUPER_ADMIN"]).Redirect?
    ensures s.user.value.adminRole == "SUPER_ADMIN" ==> Guard(s, ["SUPER_ADMIN"]).PassThrough?
  {
  }
}
