/** The guard around pages that need a logged-in user: what it renders for a given session
    and what its three effects do (ask for the current user, send an anonymous visitor away,
    send an unverified user to verification). */
module ProtectedRoute {
  import opened Wrappers
  import opened AuthService
  import opened AuthStore

  const DefaultRedirect := "/login"
  const VerifyEmailPath := "/verify-email"

  /** The props; an omitted optional prop is `None`. `hasFallback` says whether a truthy
      `fallback` element was given. */
  datatype Props = Props(requireEmailVerification: Option<bool>, redirectTo: Option<string>, hasFallback: bool) {
    /** `requireEmailVerification = false` */
    function RequireVerification(): (b: bool)
      ensures requireEmailVerification.None? ==> !b
    {
      requireEmailVerification.GetOr(false)
    }

    /** `redirectTo = '/login'` */
    function Target(): (t: string)
      ensures redirectTo.None? ==> t == DefaultRedirect
      ensures redirectTo.Some? ==> t == redirectTo.value
    {
      redirectTo.GetOr(DefaultRedirect)
    }
  }

  datatype Screen = Fallback | Placeholder | Blank | Content

  /** The user is loaded and has not verified the e-mail address. */
  predicate Unverified(user: Option<User>) {
    user.Some? && !user.value.isEmailVerified
  }

  /** What the guard renders. */
  function Render(p: Props, isLoading: bool, isAuthenticated: bool, user: Option<User>): (r: Screen)
    ensures r == Content <==>
      !isLoading && isAuthenticated && !(p.RequireVerification() && Unverified(user))
    ensures isLoading ==> r == (if p.hasFallback then Fallback else Placeholder)
    ensures !isLoading ==> r == Blank || r == Content
    ensures !isLoading && isAuthenticated && user.None? ==> r == Content
  {
    if isLoading then (if p.hasFallback then Fallback else Placeholder)
    else if !isAuthenticated then Blank
    else if p.RequireVerification() && Unverified(user) then Blank
    else Content
  }

  /** The first effect: the current user is requested exactly when none is loaded and nothing
      is loading. */
  function RequestsRefresh(isLoading: bool, user: Option<User>): (b: bool)
    ensures b <==> user.None? && !isLoading
  {
    !isLoading && user.None?
  }

  /** The second and third effects, in order: the navigations they push. A settled anonymous
      visitor goes to `redirectTo`; an authenticated, loaded, unverified user goes to the
      verification page when verification is required, even while loading; the two never
      happen together. */
  function Navigations(p: Props, isLoading: bool, isAuthenticated: bool, user: Option<User>): (r: seq<string>)
    ensures !isLoading && !isAuthenticated ==> r == [p.Target()]
    ensures p.RequireVerification() && isAuthenticated && Unverified(user) ==> r == [VerifyEmailPath]
    ensures r == [] <==>
      !(!isLoading && !isAuthenticated) && !(p.RequireVerification() && isAuthenticated && Unverified(user))
  {
    (if !isLoading && !isAuthenticated then [p.Target()] else [])
    + (if p.RequireVerification() && isAuthenticated && Unverified(user) then [VerifyEmailPath] else [])
  }

  /** For a consistent session the guard is simple: without verification it shows the page
      exactly when the session is settled and holds a user; whenever it asks for the user it
      is also sending the visitor to `redirectTo` and shows nothing; and it never shows the
      page to an unverified user when verification is required. */
  lemma GuardOnConsistentSession(p: Props, s: Session)
    requires s.Consistent()
    ensures !p.RequireVerification() ==>
      (Render(p, s.isLoading, s.isAuthenticated, s.user) == Content <==> !s.isLoading && s.user.Some?)
    ensures RequestsRefresh(s.isLoading, s.user) ==>
      Render(p, s.isLoading, s.isAuthenticated, s.user) == Blank
      && Navigations(p, s.isLoading, s.isAuthenticated, s.user) == [p.Target()]
    ensures p.RequireVerification() && Unverified(s.user) ==>
      Render(p, s.isLoading, s.isAuthenticated, s.user) != Content
  {
  }
}
