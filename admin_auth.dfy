/** The hooks administration pages use instead of, or besides, the admin guard: the derived
    flags, the redirect their effect performs, and the strict variant that reports loading
    until access is established. */
module AdminAuth {
  import opened Wrappers
  import opened AuthService
  import opened AuthStore
  import AdminRoute

  const LoginPath := "/login"
  const HomePath := "/inicio"

  /** What `useAdminAuth` returns. */
  datatype AdminAuthState = AdminAuthState(
    user: Option<User>,
    isAuthenticated: bool,
    isLoading: bool,
    isAdmin: bool,
    canAccess: bool)

  /** `user?.role === 'admin'` */
  predicate IsAdmin(user: Option<User>) {
    user.Some? && user.value.role == AdminRole
  }

  const AdminRole := AdminRoute.AdminRole

  /** `useAdminAuth()`: the store's fields plus the two derived flags. */
  function UseAdminAuth(user: Option<User>, isAuthenticated: bool, isLoading: bool): (r: AdminAuthState)
    ensures r.user == user && r.isAuthenticated == isAuthenticated && r.isLoading == isLoading
    ensures r.isAdmin <==> IsAdmin(user)
    ensures r.canAccess <==> isAuthenticated && IsAdmin(user)
  {
    AdminAuthState(user, isAuthenticated, isLoading, IsAdmin(user), isAuthenticated && IsAdmin(user))
  }

  /** The effect of `useAdminAuth`: at most one navigation. A settled anonymous visitor goes
      to the login page and nothing else happens in that pass; a settled, authenticated,
      loaded non-administrator goes home; anyone else stays. */
  function Redirect(user: Option<User>, isAuthenticated: bool, isLoading: bool): (r: Option<string>)
    ensures !isLoading && !isAuthenticated ==> r == Some(LoginPath)
    ensures !isLoading && isAuthenticated && AdminRoute.NonAdmin(user) ==> r == Some(HomePath)
    ensures r.None? <==> isLoading || (isAuthenticated && !AdminRoute.NonAdmin(user))
    ensures !isLoading && isAuthenticated && IsAdmin(user) ==> r.None?
  {
    if !isLoading && !isAuthenticated then Some(LoginPath)
    else if !isLoading && isAuthenticated && user.Some? && user.value.role != AdminRole then Some(HomePath)
    else None
  }

  /** What `useRequireAdmin` returns. */
  datatype RequireAdmin = RequireAdmin(user: Option<User>, isLoading: bool, canAccess: bool)

  /** `useRequireAdmin()`: reports loading, with no user, until access is established; it
      never reports access together with loading. */
  function UseRequireAdmin(user: Option<User>, isAuthenticated: bool, isLoading: bool): (r: RequireAdmin)
    ensures r.canAccess <==> !isLoading && isAuthenticated && IsAdmin(user)
    ensures !r.canAccess ==> r == RequireAdmin(None, true, false)
    ensures r.canAccess ==> r == RequireAdmin(user, false, true)
    ensures !(r.canAccess && r.isLoading)
  {
    var state := UseAdminAuth(user, isAuthenticated, isLoading);
    if state.isLoading || !state.canAccess then RequireAdmin(None, true, false)
    else RequireAdmin(state.user, false, true)
  }

  /** On a consistent session the strict hook and the admin guard agree: the hook grants
      access exactly when the guard shows the page, and the hook's redirect and the guard's
      navigations agree whenever the guard keeps its default target. */
  lemma HookAgreesWithGuard(p: AdminRoute.Props, s: Session)
    requires s.Consistent()
    ensures UseRequireAdmin(s.user, s.isAuthenticated, s.isLoading).canAccess <==>
      AdminRoute.Render(p, s.isLoading, s.isAuthenticated, s.user) == AdminRoute.Content
    ensures p.redirectTo.None? && !s.isLoading ==>
      (Redirect(s.user, s.isAuthenticated, s.isLoading).Some? <==>
        AdminRoute.Navigations(p, s.isLoading, s.isAuthenticated, s.user) != [])
  {
  }
}
