/** The session store (`AuthProvider`): the access token and the signed-in
    user, persisted in local storage under three keys. */
module Auth {
  import opened Common
  import opened Storage

  /** The serialized user record kept under `user_data`. `JSON.stringify` of
      an object never yields the empty string, and parsing gives the record
      back, so the record is identified with its text. */
  type UserJson = s: string | s != "" witness "{}"

  /** The token pair handed to `login`. */
  datatype Tokens = Tokens(access: string, refresh: string)

  /** The provider's two state variables. */
  datatype Session = Session(token: Option<string>, user: Option<UserJson>)

  /** `isAuthenticated: !!token`: only the token decides, never the user. */
  predicate Authenticated(s: Session)
  {
    Truthy(s.token)
  }

  /** The state on first render: the token is read straight from storage and
      no user is known yet. */
  function Initial(st: Store): (s: Session)
    ensures s.token == GetItem(st, AccessTokenKey) && s.user == None
  {
    Session(GetItem(st, AccessTokenKey), None)
  }

  /** The mount effect: the user (and the token) are taken from storage only
      when both the stored token and the stored user data are truthy. */
  function Restored(s: Session, st: Store): (r: Session)
    ensures Truthy(GetItem(st, AccessTokenKey)) && Truthy(GetItem(st, UserDataKey)) ==>
              r.token == Some(st[AccessTokenKey]) && r.user == Some(st[UserDataKey])
    ensures !(Truthy(GetItem(st, AccessTokenKey)) && Truthy(GetItem(st, UserDataKey))) ==> r == s
  {
    var storedUser := GetItem(st, UserDataKey);
    var storedToken := GetItem(st, AccessTokenKey);
    if Truthy(storedToken) && Truthy(storedUser) then
      var u: UserJson := storedUser.value;
      Session(storedToken, Some(u))
    else s
  }

  /** What a page load makes of the stored session. */
  function Startup(st: Store): (r: Session)
    ensures r.token == GetItem(st, AccessTokenKey)
    ensures Authenticated(r) <==> Truthy(GetItem(st, AccessTokenKey))
    ensures r.user.Some? <==> Truthy(GetItem(st, AccessTokenKey)) && Truthy(GetItem(st, UserDataKey))
    ensures r.user.Some? ==> r.user.value == st[UserDataKey]
  {
    Restored(Initial(st), st)
  }

  /** Storage after `login`: the three session keys are written. */
  function LoginWrites(st: Store, tokens: Tokens, user: UserJson): (r: Store)
    ensures GetItem(r, AccessTokenKey) == Some(tokens.access)
    ensures GetItem(r, RefreshTokenKey) == Some(tokens.refresh)
    ensures GetItem(r, UserDataKey) == Some(user)
    ensures forall k :: k !in SessionKeys ==> GetItem(r, k) == GetItem(st, k)
  {
    st[AccessTokenKey := tokens.access][RefreshTokenKey := tokens.refresh][UserDataKey := user]
  }

  /** Storage after `logout`: the three session keys are removed. */
  function LogoutClears(st: Store): (r: Store)
    ensures forall k :: k in SessionKeys ==> GetItem(r, k) == None
    ensures forall k :: k !in SessionKeys ==> GetItem(r, k) == GetItem(st, k)
  {
    st - SessionKeys
  }

  /** Reloading after `login` gives back the token `login` set; the user comes
      back too unless the access token was empty, in which case the restore
      step does not fire. */
  lemma ReloadAfterLogin(st: Store, tokens: Tokens, user: UserJson)
    ensures Startup(LoginWrites(st, tokens, user)).token == Some(tokens.access)
    ensures tokens.access != "" ==> Startup(LoginWrites(st, tokens, user)) == Session(Some(tokens.access), Some(user))
    ensures tokens.access == "" ==> Startup(LoginWrites(st, tokens, user)).user == None
  {
  }

  /** Reloading after `logout` gives the signed-out session. */
  lemma ReloadAfterLogout(st: Store)
    ensures Startup(LogoutClears(st)) == Session(None, None)
    ensures !Authenticated(Startup(LogoutClears(st)))
  {
  }

  /** A stored token without stored user data restores to an authenticated
      session with no user. */
  lemma TokenWithoutUser(st: Store)
    requires Truthy(GetItem(st, AccessTokenKey)) && GetItem(st, UserDataKey) == None
    ensures Authenticated(Startup(st)) && Startup(st).user == None
  {
  }

  /** The session store as the provider holds it: its two state variables and
      the local storage it writes. */
  class AuthStore {
    var storage: Store
    var token: Option<string>
    var user: Option<UserJson>

    function Current(): Session
      reads this
    {
      Session(token, user)
    }

    predicate IsAuthenticated()
      reads this
    {
      Authenticated(Current())
    }

    /** First render: `useState(localStorage.getItem('access_token'))`. */
    constructor (st: Store)
      ensures storage == st
      ensures token == GetItem(st, AccessTokenKey) && user == None
    {
      storage := st;
      token := GetItem(st, AccessTokenKey);
      user := None;
    }

    /** The mount effect that restores the user from storage. */
    method Restore()
      modifies this`token, this`user
      ensures Current() == Restored(old(Current()), storage)
    {
      var storedUser := GetItem(storage, UserDataKey);
      var storedToken := GetItem(storage, AccessTokenKey);
      if Truthy(storedToken) && Truthy(storedUser) {
        var u: UserJson := storedUser.value;
        user := Some(u);
        token := storedToken;
      }
    }

    method Login(tokens: Tokens, userData: UserJson)
      modifies this
      ensures storage == LoginWrites(old(storage), tokens, userData)
      ensures token == Some(tokens.access) && user == Some(userData)
      ensures IsAuthenticated() <==> tokens.access != ""
    {
      storage := storage[AccessTokenKey := tokens.access];
      storage := storage[RefreshTokenKey := tokens.refresh];
      storage := storage[UserDataKey := userData];
      token := Some(tokens.access);
      user := Some(userData);
    }

    method Logout()
      modifies this
      ensures storage == LogoutClears(old(storage))
      ensures token == None && user == None
      ensures !IsAuthenticated()
    {
      storage := storage - {AccessTokenKey};
      storage := storage - {RefreshTokenKey};
      storage := storage - {UserDataKey};
      token := None;
      user := None;
    }
  }
}
