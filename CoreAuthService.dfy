/** The shared package's auth service: storing and clearing the two tokens, and the
    signed-in test. Outside a browser (no `window`) storage is never touched. */
module CoreAuthService {
  import opened Wrappers
  import opened Storage
  import opened Network
  import CoreApi

  /** The shared package's user record; its id is a string there. */
  datatype CoreUser = CoreUser(id: string, email: string, role: string, createdAt: string)

  datatype CoreAuthResponse = CoreAuthResponse(accessToken: string, refreshToken: string, user: CoreUser)

  /** The storage after `storeTokens`. */
  function WithTokens(items: map<string, string>, hasWindow: bool, accessToken: string, refreshToken: string)
    : (r: map<string, string>)
    ensures hasWindow ==>
      AccessTokenKey in r && RefreshTokenKey in r &&
      r[AccessTokenKey] == accessToken && r[RefreshTokenKey] == refreshToken
    ensures !hasWindow ==> r == items
    ensures forall k | k in items && k != AccessTokenKey && k != RefreshTokenKey :: k in r && r[k] == items[k]
  {
    if hasWindow then items[AccessTokenKey := accessToken][RefreshTokenKey := refreshToken] else items
  }

  /** `isAuthenticated`: in a browser, with a non-empty access token stored. */
  predicate IsAuthenticated(items: map<string, string>, hasWindow: bool) {
    hasWindow && AccessTokenKey in items && items[AccessTokenKey] != ""
  }

  const LoginUrl := "/auth/login"
  const RegisterUrl := "/auth/register"

  /** The service, over the same storage as the package's shared HTTP client. */
  class AuthService {
    const hasWindow: bool
    const storage: LocalStorage
    const client: CoreApi.ApiClient

    constructor (c: CoreApi.ApiClient)
      ensures client == c && hasWindow == c.hasWindow && storage == c.storage
    {
      client := c;
      hasWindow := c.hasWindow;
      storage := c.storage;
    }

    method StoreTokens(accessToken: string, refreshToken: string)
      modifies storage
      ensures storage.items == WithTokens(old(storage.items), hasWindow, accessToken, refreshToken)
    {
      if hasWindow {
        storage.SetItem(AccessTokenKey, accessToken);
        storage.SetItem(RefreshTokenKey, refreshToken);
      }
    }

    method ClearTokens()
      modifies storage
      ensures storage.items == CoreApi.WithoutTokens(old(storage.items), hasWindow)
    {
      if hasWindow {
        storage.RemoveItem(AccessTokenKey);
        storage.RemoveItem(RefreshTokenKey);
      }
    }

    /** `login` (at `LoginUrl`) and `register` (at `RegisterUrl`) alike: the request
        goes out through the shared client; a reply's data, read as an auth response by
        `asAuth`, has its tokens stored before it is handed back. A failure is handed
        back unchanged, and a 401 among them has already cleared both tokens in the
        client's response interceptor. */
    method Authenticate(url: string, asAuth: string -> CoreAuthResponse) returns (r: Result<CoreAuthResponse, Failure>)
      requires client.storage == storage && client.hasWindow == hasWindow && storage != client.net as object
      modifies storage, client.net
      ensures client.net.sent == old(client.net.sent) + [Sent(url, old(client.Authorization(None)))]
      ensures var reply := HeadReply(old(client.net.replies));
        reply.Success? ==>
          r == Ok(asAuth(reply.data)) &&
          storage.items == WithTokens(old(storage.items), hasWindow, asAuth(reply.data).accessToken, asAuth(reply.data).refreshToken)
      ensures var reply := HeadReply(old(client.net.replies));
        !reply.Success? ==>
          r == Err(ResponseFailure(reply)) &&
          storage.items == if IsUnauthorized(reply) then CoreApi.WithoutTokens(old(storage.items), hasWindow) else old(storage.items)
    {
      var outcome := client.Request(url, None);
      if outcome.Resolved? {
        var response := asAuth(outcome.data);
        StoreTokens(response.accessToken, response.refreshToken);
        r := Ok(response);
      } else {
        r := Err(outcome.failure);
      }
    }

    method Logout()
      modifies storage
      ensures storage.items == CoreApi.WithoutTokens(old(storage.items), hasWindow)
    {
      ClearTokens();
    }

    function IsSignedIn(): (b: bool)
      reads this, storage
      ensures b == IsAuthenticated(storage.items, hasWindow)
    {
      if hasWindow then
        var token := storage.GetItem(AccessTokenKey);
        token.Some? && token.value != ""
      else false
    }
  }

  /** Storing a non-empty access token signs in; clearing the tokens signs out. Outside
      a browser nobody is ever signed in. */
  lemma SignInOut(items: map<string, string>, hasWindow: bool, accessToken: string, refreshToken: string)
    ensures accessToken != "" && hasWindow ==>
      IsAuthenticated(WithTokens(items, hasWindow, accessToken, refreshToken), hasWindow)
    ensures !IsAuthenticated(CoreApi.WithoutTokens(items, hasWindow), hasWindow)
    ensures !hasWindow ==> !IsAuthenticated(items, hasWindow)
  {
  }

  /** A 401 on any request, a failed login included, signs the user out in a browser,
      and leaves a stored user record alone. */
  lemma UnauthorizedSignsOut(items: map<string, string>)
    ensures !IsAuthenticated(CoreApi.WithoutTokens(items, true), true)
    ensures UserKey in items ==>
      UserKey in CoreApi.WithoutTokens(items, true) &&
      CoreApi.WithoutTokens(items, true)[UserKey] == items[UserKey]
  {
  }
}
