/** The session store: who is signed in, mirrored in session storage under
    four keys. Start-up reads the storage; login and register write it from
    the server's answer; logout and a rejected token clear it. The server's
    answers are inputs. */
module AuthContext {
  import opened Wrappers
  import opened Js
  import opened Types
  import opened Database
  import Browser

  /** The five identity fields of the store. */
  datatype Identity = Identity(isLoggedIn: bool, isAdmin: bool, userId: Option<int>,
                               username: Option<string>, token: Option<string>)

  const SignedOut := Identity(false, false, None, None, None)

  /** The body of a successful login or registration. */
  datatype Session = Session(token: string, id: int, username: string, isAdmin: bool)

  /** `true.toString()` / `false.toString()` */
  function BoolText(b: bool): string {
    if b then "true" else "false"
  }

  /** The identity start-up restores from storage: signed in exactly when
      token, user id and user name are all stored and non-empty; admin
      exactly when the stored flag is the text "true". */
  function Restore(entries: map<string, string>): (id: Identity)
    ensures id.isLoggedIn <==> (forall k :: k in {Browser.AuthTokenKey, Browser.UserIdKey, Browser.UsernameKey} ==>
                                   k in entries && entries[k] != "")
    ensures id.isLoggedIn ==> id.token == Some(entries[Browser.AuthTokenKey]) &&
                              id.username == Some(entries[Browser.UsernameKey]) &&
                              id.userId == ParseNumber(entries[Browser.UserIdKey]) &&
                              (id.isAdmin <==> Browser.IsAdminKey in entries && entries[Browser.IsAdminKey] == "true")
    ensures !id.isLoggedIn ==> id == SignedOut
  {
    var held := (k: string) => k in entries && entries[k] != "";
    if held(Browser.AuthTokenKey) && held(Browser.UserIdKey) && held(Browser.UsernameKey) then
      Identity(true, Browser.IsAdminKey in entries && entries[Browser.IsAdminKey] == "true",
               ParseNumber(entries[Browser.UserIdKey]), Some(entries[Browser.UsernameKey]),
               Some(entries[Browser.AuthTokenKey]))
    else SignedOut
  }

  /** The `Authorization` header text a page builds from the store's token:
      `Bearer ${token}`, a missing token printed as "null". */
  function Bearer(token: Option<string>): (h: string)
    ensures token.Some? ==> h == "Bearer " + token.value
    ensures token.None? ==> h == "Bearer null"
  {
    "Bearer " + (if token.Some? then token.value else "null")
  }

  /** The identity a successful login or registration sets. */
  function SignedIn(s: Session, admin: bool): Identity {
    Identity(true, admin, Some(s.id), Some(s.username), Some(s.token))
  }

  /** The storage after a successful login or registration. */
  function Written(entries: map<string, string>, s: Session, adminText: string): map<string, string> {
    entries[Browser.AuthTokenKey := s.token][Browser.UserIdKey := IntToString(s.id)]
           [Browser.UsernameKey := s.username][Browser.IsAdminKey := adminText]
  }

  /** A reload after a login restores the very identity the login set, as
      long as the server's token and user name are not empty. */
  lemma ReloadAfterLogin(entries: map<string, string>, s: Session)
    requires s.token != "" && s.username != ""
    ensures Restore(Written(entries, s, BoolText(s.isAdmin))) == SignedIn(s, s.isAdmin)
    ensures Restore(Written(entries, s, "false")) == SignedIn(s, false)
  {
    NumberOfString(s.id);
    assert IntToString(s.id) != "";
  }

  /** A reload after a logout finds nobody signed in. */
  lemma ReloadAfterLogout(entries: map<string, string>)
    ensures Restore(entries - Browser.IdentityKeys) == SignedOut
  {
    assert Browser.AuthTokenKey in Browser.IdentityKeys;
  }

  class AuthStore {
    var isLoggedIn: bool
    var isAdmin: bool
    var userId: Option<int>
    var username: Option<string>
    var token: Option<string>
    var loading: bool
    const db: Db

    function Current(): Identity
      reads this
    {
      Identity(isLoggedIn, isAdmin, userId, username, token)
    }

    /** The store before start-up: signed out and loading. */
    constructor(db: Db)
      ensures this.db == db
      ensures Current() == SignedOut && loading
    {
      this.db := db;
      isLoggedIn, isAdmin, userId, username, token := false, false, None, None, None;
      loading := true;
    }

    /** Start-up: the identity restored from storage, and loading over.
        A restored session is then checked with the server: `check` says
        that the start-up effect goes on to call `VerifyToken`, whose
        answer arrives after loading is over. */
    method Init() returns (check: bool)
      modifies this
      ensures Current() == Restore(db.storage.entries) && !loading
      ensures check <==> Restore(db.storage.entries).isLoggedIn
      ensures check ==> token.Some? && token.value != ""
    {
      var storedToken := db.storage.Get(Browser.AuthTokenKey);
      var storedUserId := db.storage.Get(Browser.UserIdKey);
      var storedUsername := db.storage.Get(Browser.UsernameKey);
      var storedIsAdmin := db.storage.Get(Browser.IsAdminKey);
      if storedToken.Some? && storedToken.value != "" && storedUserId.Some? && storedUserId.value != ""
         && storedUsername.Some? && storedUsername.value != "" {
        isLoggedIn := true;
        userId := ParseNumber(storedUserId.value);
        username := storedUsername;
        isAdmin := storedIsAdmin == Some("true");
        token := storedToken;
        check := true;
      } else {
        isLoggedIn, userId, username, isAdmin, token := false, None, None, false, None;
        check := false;
      }
      loading := false;
    }

    /** Sets all five fields from a successful answer and writes the four keys. */
    method Adopt(s: Session, admin: bool)
      modifies this, db.storage
      ensures Current() == SignedIn(s, admin)
      ensures db.storage.entries == Written(old(db.storage.entries), s, BoolText(admin))
      ensures loading == old(loading)
    {
      db.storage.SetItem(Browser.AuthTokenKey, s.token);
      db.storage.SetItem(Browser.UserIdKey, IntToString(s.id));
      db.storage.SetItem(Browser.UsernameKey, s.username);
      db.storage.SetItem(Browser.IsAdminKey, BoolText(admin));
      isLoggedIn, userId, username, isAdmin, token := true, Some(s.id), Some(s.username), admin, Some(s.token);
    }

    /** `login`: always sent; on an ok answer the identity and storage take
        the answer's values, otherwise nothing but `loading` changes, and
        loading is over on every path. */
    method Login(name: string, password: string, reply: Reply<Session>) returns (sent: Request, ok: bool)
      modifies this, db.storage
      ensures sent == Request(POST, ApiUrl + "/login", None, Some(map["username" := Str(name), "password" := Str(password)]))
      ensures ok <==> IsOk(reply)
      ensures ok ==> Current() == SignedIn(reply.body, reply.body.isAdmin) &&
                     db.storage.entries == Written(old(db.storage.entries), reply.body, BoolText(reply.body.isAdmin))
      ensures !ok ==> Current() == old(Current()) && db.storage.entries == old(db.storage.entries)
      ensures !loading
    {
      loading := true;
      sent := Request(POST, ApiUrl + "/login", None, Some(map["username" := Str(name), "password" := Str(password)]));
      if !IsOk(reply) {
        loading := false;
        return sent, false;
      }
      Adopt(reply.body, reply.body.isAdmin);
      ok := true;
      loading := false;
    }

    /** `register`: mismatched passwords are refused before anything is sent
        or changed; otherwise as `login`, except that the new user is never
        an admin. */
    method Register(name: string, password: string, confirm: string, reply: Reply<Session>)
      returns (sent: Option<Request>, ok: bool)
      modifies this, db.storage
      ensures password != confirm ==>
                sent == None && !ok && Current() == old(Current()) && loading == old(loading) &&
                db.storage.entries == old(db.storage.entries)
      ensures password == confirm ==>
                sent == Some(Request(POST, ApiUrl + "/register", None,
                                     Some(map["username" := Str(name), "password" := Str(password)]))) &&
                !loading
      ensures ok <==> password == confirm && IsOk(reply)
      ensures ok ==> Current() == SignedIn(reply.body, false) &&
                     db.storage.entries == Written(old(db.storage.entries), reply.body, "false")
      ensures !ok ==> Current() == old(Current()) && db.storage.entries == old(db.storage.entries)
    {
      if password != confirm {
        return None, false;
      }
      loading := true;
      sent := Some(Request(POST, ApiUrl + "/register", None, Some(map["username" := Str(name), "password" := Str(password)])));
      if !IsOk(reply) {
        loading := false;
        return sent, false;
      }
      Adopt(reply.body, false);
      ok := true;
      loading := false;
    }

    /** `logout`: a logout request when a token is held, then, whatever
        became of it, the four keys and the five fields are cleared. */
    method Logout() returns (sent: Option<Request>)
      modifies this, db.storage
      ensures old(token).Some? && old(token).value != "" <==> sent.Some?
      ensures sent.Some? ==> sent.value == Request(POST, ApiUrl + "/logout", Some("Bearer " + old(token).value), None)
      ensures Current() == SignedOut
      ensures db.storage.entries == old(db.storage.entries) - Browser.IdentityKeys
      ensures loading == old(loading)
    {
      sent := None;
      if token.Some? && token.value != "" {
        sent := Some(Request(POST, ApiUrl + "/logout", Some("Bearer " + token.value), None));
      }
      db.storage.ClearIdentity();
      isLoggedIn, userId, username, isAdmin, token := false, None, None, false, None;
    }

    /** `verifyToken`: asks the data access layer; an invalid answer signs
        the store out (the layer has already cleared storage on a rejection). */
    method VerifyToken(reply: Reply<()>) returns (sent: bool, valid: bool)
      modifies this, db.storage
      ensures sent <==> old(db.storage.Holds(Browser.AuthTokenKey))
      ensures valid <==> sent && IsOk(reply)
      ensures valid ==> Current() == old(Current())
      ensures !valid ==> Current() == SignedOut
      ensures db.storage.entries ==
                if sent && reply.Response? && !IsOk(reply) then old(db.storage.entries) - Browser.IdentityKeys
                else old(db.storage.entries)
      ensures loading == old(loading)
    {
      sent, valid := db.VerifyToken(reply);
      if !valid {
        isLoggedIn, userId, username, isAdmin, token := false, None, None, false, None;
      }
    }
  }
}
