/** The guard in front of pages that need a signed-in user: a spinner while
    the session loads or a token check is in flight, a redirect to the login
    page unless the session is complete, the page otherwise. The guard starts
    a token check itself once the session has loaded. */
module ProtectedRoute {
  import opened Wrappers
  import opened Types
  import opened Database
  import opened AuthContext

  /** What a route guard renders. */
  datatype View = Spinner | ToLogin(from: string) | ToHome | Children

  /** A truthy token: present and not the empty string. */
  predicate HasToken(t: Option<string>) {
    t.Some? && t.value != ""
  }

  /** `isLoggedIn && token && userId` */
  predicate Authenticated(s: Identity) {
    s.isLoggedIn && HasToken(s.token) && HasId(s.userId)
  }

  /** The render decision for the current path. */
  function Decide(s: Identity, loading: bool, verifying: bool, path: string): (v: View)
    ensures v.Spinner? <==> loading || verifying
    ensures v.ToLogin? <==> !loading && !verifying && !Authenticated(s)
    ensures v.ToLogin? ==> v.from == path
    ensures v.Children? <==> !loading && !verifying && s.isLoggedIn && HasToken(s.token) && HasId(s.userId)
    ensures !v.ToHome?
  {
    if loading || verifying then Spinner
    else if !Authenticated(s) then ToLogin(path)
    else Children
  }

  /** The "Authentication Required" toast. */
  predicate Toast(s: Identity, loading: bool, verifying: bool) {
    !loading && !s.isLoggedIn && !verifying
  }

  /** Whenever the toast fires the guard redirects to the login page; the
      guard also redirects, silently, a signed-in state missing its token or
      user id. */
  lemma ToastOnlyWithRedirect(s: Identity, loading: bool, verifying: bool, path: string)
    ensures Toast(s, loading, verifying) ==> Decide(s, loading, verifying, path) == ToLogin(path)
    ensures Decide(s, loading, verifying, path).ToLogin? && s.isLoggedIn ==> !Toast(s, loading, verifying)
  {
  }

  /** A signed-out store is sent to the login page once loading is over. */
  lemma SignedOutRedirects(path: string)
    ensures Decide(SignedOut, false, false, path) == ToLogin(path)
  {
  }

  /** A successful login with a real token and a non-zero user id opens the page. */
  lemma LoginOpens(session: Session, admin: bool, path: string)
    requires session.token != "" && session.id != 0
    ensures Decide(SignedIn(session, admin), false, false, path) == Children
  {
  }

  /** A session restored from storage opens the page exactly when the stored
      user id reads as a non-zero number. */
  lemma RestoredOpens(entries: map<string, string>, path: string)
    ensures Decide(Restore(entries), false, false, path) == Children <==>
              Restore(entries).isLoggedIn && HasId(Restore(entries).userId)
  {
  }

  /** The guard's own state: whether it has a token check in flight. */
  class Guard {
    var verifyingToken: bool

    constructor()
      ensures !verifyingToken
    {
      verifyingToken := false;
    }

    /** The token-check effect: it runs only when the store has loaded, holds
        a token and no check is in flight; it raises the flag, lets the store
        check the token, and lowers the flag again. A check that fails signs
        the store out; a rejection received from the server also clears the
        stored identity. */
    method OnAuthChange(store: AuthStore, reply: Reply<()>) returns (started: bool, valid: bool)
      modifies this, store, store.db.storage
      ensures started <==> !old(store.loading) && HasToken(old(store.token)) && !old(verifyingToken)
      ensures started ==> !verifyingToken
      ensures valid ==> started
      ensures started ==> (valid <==> old(store.db.storage.Holds(Browser.AuthTokenKey)) && IsOk(reply))
      ensures started && valid ==> store.Current() == old(store.Current())
      ensures started && !valid ==> store.Current() == SignedOut
      ensures started ==>
                store.db.storage.entries ==
                  if old(store.db.storage.Holds(Browser.AuthTokenKey)) && reply.Response? && !IsOk(reply)
                  then old(store.db.storage.entries) - Browser.IdentityKeys
                  else old(store.db.storage.entries)
      ensures !started ==> verifyingToken == old(verifyingToken) &&
                           store.Current() == old(store.Current()) &&
                           store.db.storage.entries == old(store.db.storage.entries)
      ensures store.loading == old(store.loading)
    {
      started := !store.loading && HasToken(store.token) && !verifyingToken;
      valid := false;
      if started {
        verifyingToken := true;
        var sent;
        sent, valid := store.VerifyToken(reply);
        verifyingToken := false;
      }
    }
  }
}
