/** The redirect decision of `ProtectedRoute` (src/components/auth/ProtectedRoute.tsx). */
module RouteGuard {
  import opened Types
  import Auth

  datatype RouteDecision = RedirectTo(path: string) | RenderOutlet

  const LoginPath := "/admin/login"
  const HomePath := "/"

  /** `user?.role === 'admin'`: false for an absent user. */
  predicate IsAdmin(user: Option<User>) {
    user.Some? && user.value.role == Admin
  }

  /** `ProtectedRoute({ requireAdmin = false })` applied to the auth state. */
  function Guard(isAuthenticated: bool, user: Option<User>, requireAdmin: bool := false): (r: RouteDecision)
    ensures !isAuthenticated ==> r == RedirectTo(LoginPath)
    ensures isAuthenticated && requireAdmin && !IsAdmin(user) ==> r == RedirectTo(HomePath)
    ensures r == RenderOutlet <==> isAuthenticated && (requireAdmin ==> IsAdmin(user))
    ensures r.RedirectTo? ==> r.path == LoginPath || r.path == HomePath
  {
    if !isAuthenticated then RedirectTo(LoginPath)
    else if requireAdmin && !IsAdmin(user) then RedirectTo(HomePath)
    else RenderOutlet
  }

  /** Without `requireAdmin` any authenticated session renders the children, whoever the
      user is. */
  lemma DefaultAdmitsAnySession(user: Option<User>)
    ensures Guard(true, user) == RenderOutlet
  {
  }

  /** On a consistent auth state (`isAuthenticated` exactly when a user is present) an admin
      route renders exactly for a present user whose role is admin. */
  lemma AdminRouteOnConsistentState(isAuthenticated: bool, user: Option<User>)
    requires isAuthenticated <==> user.Some?
    ensures Guard(isAuthenticated, user, true) == RenderOutlet <==> user.Some? && user.value.role == Admin
  {
  }

  /** The session created by a successful login (`user = MOCK_ADMIN`, authenticated)
      passes the guard, admin route or not. */
  lemma AdminSessionPasses(loadedAt: int, requireAdmin: bool)
    ensures Guard(true, Some(Auth.MockAdmin(loadedAt)), requireAdmin) == RenderOutlet
  {
  }
}
