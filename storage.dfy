/** The browser's `localStorage`: a map from keys to strings, and the three
    keys under which the session is persisted. */
module Storage {
  import opened Common

  type Store = map<string, string>

  const AccessTokenKey: string := "access_token"
  const RefreshTokenKey: string := "refresh_token"
  const UserDataKey: string := "user_data"

  /** The keys the session store owns. */
  const SessionKeys: set<string> := {AccessTokenKey, RefreshTokenKey, UserDataKey}

  /** `localStorage.getItem(key)`: `null` when the key is absent. */
  function GetItem(st: Store, key: string): Option<string>
  {
    if key in st then Some(st[key]) else None
  }
}
