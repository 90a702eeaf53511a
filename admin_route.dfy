/** The guard around administration pages: what it renders for a given session and what its
    three effects do (ask for the current user, send an anonymous visitor to the login page,
    send a non-administrator to `redirectTo`). */
module AdminRoute {
  import opened Wrappers
  import opened AuthService
  import opened AuthStore

  const DefaultRedirect := "/inicio"
  const LoginPath := "/login"
  const AdminRole := "admin"

  /** The props; an omitted `redirectTo` is `None`, `hasFallback` says whether a truthy
      `fallback` element was given. */
  datatype Props = Props(redirectTo: Option<string>, hasFallback: bool) {
    /** `redirectTo = '/inicio'` */
    function Target(): (t: string)
      ensures redirectTo.None? ==> t == DefaultRedirect
      ensures redirectTo.Some? ==> t == redirectTo.value
    {
      redirectTo.GetOr(DefaultRedirect)
    }
  }

  /** The access-denied view carries a button back to `redirectTo`. */
  datatype Screen = Fallback | Placeholder | Blank | AccessDenied(back: string) | Content

  /** A loaded user whose role is not `admin`. */
  predicate NonAdmin(user: Option<User>) {
    user.Some? && user.value.role != AdminRole
  }

  /** What the guard renders. */
  function Render(p: Props, isLoading: bool, isAuthenticated: bool, user: Option<User>): (r: Screen)
    ensures r == Content <==> !isLoading && isAuthenticated && !NonAdmin(user)
    ensures isLoading ==> r == (if p.hasFallback then Fallback else Placeholder)
    ensures !isLoading && !isAuthenticated ==> r == Blank
    ensures r.AccessDenied? <==> !isLoading && isAuthenticated && NonAdmin(user)
    ensures r.AccessDenied? ==> r.back == p.Target()
  {
    if isLoading then (if p.hasFallback then Fallback else Placeholder)
    else if !isAuthenticated then Blank
    else if NonAdmin(user) then AccessDenied(p.Target())
    else Content
  }

  /** The first effect: the current user is requested exactly when none is loaded and nothing
      is loading. */
  function RequestsRefresh(isLoading: bool, user: Option<User>): (b: bool)
    ensures b <==> user.None? && !isLoading
  {
    !isLoading && user.None?
  }

  /** The second and third effects, in order: a settled anonymous visitor is sent to the login
      page (never to `redirectTo`); an authenticated non-administrator is sent to
      `redirectTo`, even while loading. */
  function Navigations(p: Props, isLoading: bool, isAuthenticated: bool, user: Option<User>): (r: seq<string>)
    ensures !isLoading && !isAuthenticated ==> r == [LoginPath]
    ensures isAuthenticated && NonAdmin(user) ==> r == [p.Target()]
    ensures r == [] <==> !(!isLoading && !isAuthenticated) && !(isAuthenticated && NonAdmin(user))
  {
    (if !isLoading && !isAuthenticated then [LoginPath] else [])
    + (if isAuthenticated && NonAdmin(user) then [p.Target()] else [])
  }

  /** For a consistent session the page is shown exactly when the session is settled and
      holds an administrator, and a non-administrator is both shown the access-denied view
      and sent to `redirectTo`. */
  lemma AdminGuardOnConsistentSession(p: Props, s: Session)
    requires s.Consistent()
    ensures Render(p, s.isLoading, s.isAuthenticated, s.user) == Content <==>
      !s.isLoading && s.user.Some? && s.user.value.role == AdminRole
    ensures !s.isLoading && NonAdmin(s.user) ==>
      Render(p, s.isLoading, s.isAuthenticated, s.user) == AccessDenied(p.Target())
      && Navigations(p, s.isLoading, s.isAuthenticated, s.user) == [p.Target()]
  {
  }
}
