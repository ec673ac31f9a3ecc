/** src/components/RoleProtectedRoute.tsx with the route groups of
    src/App.tsx: a guarded page renders only for a signed-in user of an
    allowed role; everybody else is sent elsewhere. */
module RoleProtectedRoute {
  import opened Wrappers
  import opened Types

  /** `<>{children}</>` or `<Navigate to=... replace />`. */
  datatype RouteOutcome = RenderChildren | Redirect(to: string)

  /** The dashboard of a role. */
  function DashboardPath(role: UserRole): (p: string)
    ensures p == "/industry/dashboard" || p == "/user/dashboard"
  {
    if role == Industry then "/industry/dashboard" else "/user/dashboard"
  }

  /** The guard. Without a user (`!isAuthenticated || !user`, the same thing
      since `isAuthenticated` is `!!user`) it redirects to the login page;
      a user of an allowed role sees the page; any other user is sent to
      their own dashboard. */
  function Guard(user: Option<User>, allowedRoles: seq<UserRole>): (o: RouteOutcome)
    ensures user.None? ==> o == Redirect("/login")
    ensures user.Some? ==> (o == RenderChildren <==> user.value.role in allowedRoles)
    ensures user.Some? && user.value.role !in allowedRoles ==> o == Redirect(DashboardPath(user.value.role))
  {
    if user.None? then Redirect("/login")
    else if user.value.role !in allowedRoles then Redirect(DashboardPath(user.value.role))
    else RenderChildren
  }

  /** The `allowedRoles` of the route group a path belongs to; `None` for the
      public and unknown paths. */
  function RouteRoles(path: string): (r: Option<seq<UserRole>>)
    ensures r.Some? ==> r.value == [Industry] || r.value == [Resident]
  {
    if path in {"/industry/dashboard", "/industry/history", "/industry/prediction", "/industry/alerts"} then Some([Industry])
    else if path in {"/user/dashboard", "/user/map", "/user/alerts"} then Some([Resident])
    else None
  }

  /** A signed-in user is never sent to the login page, and where they are
      sent is a guarded page that renders for them: one redirect settles. */
  lemma RedirectSettles(u: User, allowedRoles: seq<UserRole>)
    ensures Guard(Some(u), allowedRoles).Redirect? ==>
      var to := Guard(Some(u), allowedRoles).to;
      to != "/login" && RouteRoles(to).Some? && Guard(Some(u), RouteRoles(to).value) == RenderChildren
  {
  }

  /** A guarded page renders for a user exactly when it belongs to the
      user's role's group, and each role's dashboard belongs to its group. */
  lemma RolesSeeOwnPages(u: User, path: string)
    requires RouteRoles(path).Some?
    ensures Guard(Some(u), RouteRoles(path).value) == RenderChildren <==> RouteRoles(path).value == [u.role]
    ensures RouteRoles(DashboardPath(u.role)) == Some([u.role])
  {
  }
}
