/**
 * The credential store of `authService`: the access token kept under
 * `access_token` in `localStorage`. The network `login` call is not part
 * of this module.
 */
module AuthService {
  import opened Wrappers
  import opened BrowserHost

  /** `getToken`: the stored access token, or `null` on the server or when none is stored. */
  function GetToken(host: Host): (token: Option<string>)
    reads host
    ensures token.Some? <==> host.isClient && AccessTokenKey in host.storage
    ensures token.Some? ==> token.value == host.storage[AccessTokenKey]
  {
    if host.isClient && AccessTokenKey in host.storage then Some(host.storage[AccessTokenKey]) else None
  }

  /** `isAuthenticated`: `!!getToken()`, so an empty stored token counts as signed out. */
  function IsAuthenticated(host: Host): (authenticated: bool)
    reads host
    ensures authenticated <==> host.isClient && AccessTokenKey in host.storage && host.storage[AccessTokenKey] != ""
  {
    var token := GetToken(host);
    token.Some? && token.value != ""
  }

  /** `setToken`: stores the access token; does nothing on the server. */
  method SetToken(host: Host, token: string)
    modifies host`storage
    ensures host.isClient ==> host.storage == old(host.storage)[AccessTokenKey := token]
    ensures !host.isClient ==> host.storage == old(host.storage)
    ensures host.isClient ==> GetToken(host) == Some(token)
    ensures host.isClient ==> (IsAuthenticated(host) <==> token != "")
  {
    if host.isClient {
      host.storage := host.storage[AccessTokenKey := token];
    }
  }

  /** `removeToken`: forgets the access token; the refresh token stays. */
  method RemoveToken(host: Host)
    modifies host`storage
    ensures host.isClient ==> host.storage == old(host.storage) - {AccessTokenKey}
    ensures !host.isClient ==> host.storage == old(host.storage)
    ensures GetToken(host) == None && !IsAuthenticated(host)
    ensures RefreshTokenKey in host.storage <==> RefreshTokenKey in old(host.storage)
    ensures RefreshTokenKey in host.storage ==> host.storage[RefreshTokenKey] == old(host.storage)[RefreshTokenKey]
  {
    if host.isClient {
      host.storage := host.storage - {AccessTokenKey};
    }
  }

  /**
   * `logout`: exactly `removeToken`. It leaves `refresh_token` behind, and
   * with no token stored it changes nothing.
   */
  method Logout(host: Host)
    modifies host`storage
    ensures host.isClient ==> host.storage == old(host.storage) - {AccessTokenKey}
    ensures !host.isClient ==> host.storage == old(host.storage)
    ensures GetToken(host) == None && !IsAuthenticated(host)
    ensures RefreshTokenKey in host.storage <==> RefreshTokenKey in old(host.storage)
    ensures RefreshTokenKey in host.storage ==> host.storage[RefreshTokenKey] == old(host.storage)[RefreshTokenKey]
    ensures AccessTokenKey !in old(host.storage) ==> host.storage == old(host.storage)
  {
    RemoveToken(host);
  }
}
