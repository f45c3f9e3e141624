/** The guard in front of the admin pages: a spinner while the session loads,
    the login page without a signed-in token, the home page for a signed-in
    user who is not an admin, the page otherwise. */
module AdminRoute {
  import opened AuthContext
  import opened ProtectedRoute

  /** The render decision for the current path. */
  function Decide(s: Identity, loading: bool, path: string): (v: View)
    ensures v.Spinner? <==> loading
    ensures v.ToLogin? <==> !loading && (!s.isLoggedIn || !HasToken(s.token))
    ensures v.ToLogin? ==> v.from == path
    ensures v.ToHome? <==> !loading && s.isLoggedIn && HasToken(s.token) && !s.isAdmin
    ensures v.Children? <==> !loading && s.isLoggedIn && HasToken(s.token) && s.isAdmin
  {
    if loading then Spinner
    else if !s.isLoggedIn || !HasToken(s.token) then ToLogin(path)
    else if !s.isAdmin then ToHome
    else Children
  }

  /** The "Access Denied" toast. */
  predicate Toast(s: Identity, loading: bool) {
    !loading && (!s.isLoggedIn || !s.isAdmin)
  }

  /** The toast fires only when the guard redirects, and every redirect of a
      store that holds a token comes with the toast. */
  lemma ToastMatchesRedirect(s: Identity, loading: bool, path: string)
    ensures Toast(s, loading) ==> Decide(s, loading, path).ToLogin? || Decide(s, loading, path).ToHome?
    ensures (Decide(s, loading, path).ToLogin? || Decide(s, loading, path).ToHome?) && HasToken(s.token)
            ==> Toast(s, loading)
  {
  }

  /** The admin guard is stricter than the signed-in guard on the identity,
      except that it does not ask for a user id: whatever it lets through,
      the signed-in guard lets through too when the user id is set. */
  lemma AdminImpliesSignedIn(s: Identity, path: string)
    requires s.userId.Some? && s.userId.value != 0
    ensures Decide(s, false, path) == Children ==> ProtectedRoute.Decide(s, false, false, path) == Children
  {
  }

  /** A non-admin login is sent home. */
  lemma NonAdminSentHome(session: Session, path: string)
    requires session.token != ""
    ensures Decide(SignedIn(session, false), false, path) == ToHome
  {
  }
}
