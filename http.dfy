/** The request interceptor of the HTTP client: before every request it reads
    the access token from local storage and, when there is one, signs the
    request with it. */
module Http {
  import opened Common
  import opened Storage
  import Auth

  const AuthorizationHeader: string := "Authorization"

  /** The headers of a request after signing with the token found in `st`. */
  function Signed(headers: map<string, string>, st: Store): (r: map<string, string>)
    ensures Truthy(GetItem(st, AccessTokenKey)) ==>
              AuthorizationHeader in r && r[AuthorizationHeader] == "Bearer " + st[AccessTokenKey]
    ensures !Truthy(GetItem(st, AccessTokenKey)) ==> r == headers
    ensures forall k :: k != AuthorizationHeader ==> (k in r <==> k in headers)
    ensures forall k :: k != AuthorizationHeader && k in r ==> r[k] == headers[k]
  {
    var token := GetItem(st, AccessTokenKey);
    if Truthy(token) then headers[AuthorizationHeader := "Bearer " + token.value] else headers
  }

  /** An outgoing request as the interceptor sees it. */
  class RequestConfig {
    var url: string
    var headers: map<string, string>

    constructor (url: string, headers: map<string, string>)
      ensures this.url == url && this.headers == headers
    {
      this.url := url;
      this.headers := headers;
    }
  }

  /** The interceptor: storage is read on every call, only the headers of the
      config change, and the same config object is handed on. */
  method Intercept(config: RequestConfig, st: Store) returns (r: RequestConfig)
    modifies config`headers
    ensures r == config
    ensures config.headers == Signed(old(config.headers), st)
  {
    var token := GetItem(st, AccessTokenKey);
    if Truthy(token) {
      config.headers := config.headers[AuthorizationHeader := "Bearer " + token.value];
    }
    r := config;
  }

  /** The first request after `login` carries the new access token. */
  lemma SignedAfterLogin(st: Store, tokens: Auth.Tokens, user: Auth.UserJson, headers: map<string, string>)
    requires tokens.access != ""
    ensures Signed(headers, Auth.LoginWrites(st, tokens, user))[AuthorizationHeader] == "Bearer " + tokens.access
  {
  }

  /** After `logout` requests go out with the headers they were given. */
  lemma UnsignedAfterLogout(st: Store, headers: map<string, string>)
    ensures Signed(headers, Auth.LogoutClears(st)) == headers
  {
  }
}
