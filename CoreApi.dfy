/** The shared package's HTTP client: the stored access token on every request when
    running in a browser, and both tokens cleared on any 401. There is no refresh. */
module CoreApi {
  import opened Wrappers
  import opened Storage
  import opened Network

  /** The storage after `clearToken` (and the auth service's `clearTokens`, which does
      the same): in a browser both tokens are gone and every other key is kept. */
  function WithoutTokens(items: map<string, string>, hasWindow: bool): (r: map<string, string>)
    ensures hasWindow ==> AccessTokenKey !in r && RefreshTokenKey !in r
    ensures !hasWindow ==> r == items
    ensures forall k | k in items && k != AccessTokenKey && k != RefreshTokenKey :: k in r && r[k] == items[k]
  {
    if hasWindow then items - {AccessTokenKey, RefreshTokenKey} else items
  }

  class ApiClient {
    const hasWindow: bool
    const storage: LocalStorage
    const net: Backend

    constructor (inBrowser: bool, s: LocalStorage, backend: Backend)
      ensures hasWindow == inBrowser && storage == s && net == backend
    {
      hasWindow := inBrowser;
      storage := s;
      net := backend;
    }

    /** `getToken`: the stored access token in a browser, null elsewhere. */
    function GetToken(): (r: Option<string>)
      reads this, storage
      ensures !hasWindow ==> r == None
      ensures hasWindow ==> r == storage.GetItem(AccessTokenKey)
    {
      if hasWindow then storage.GetItem(AccessTokenKey) else None
    }

    /** The Authorization header after the request interceptor. */
    function Authorization(current: Option<string>): (r: Option<string>)
      reads this, storage
      ensures hasWindow && HasValue(storage.items, AccessTokenKey) ==>
        r == Some("Bearer " + storage.items[AccessTokenKey])
      ensures !(hasWindow && HasValue(storage.items, AccessTokenKey)) ==> r == current
    {
      var token := GetToken();
      if token.Some? && token.value != "" then Some("Bearer " + token.value) else current
    }

    /** `get`, `post`, `put` and `delete` alike: one request through both interceptors,
        resolving to the reply's data. A 401 clears the tokens (in a browser) and the
        error is rejected unchanged. */
    method Request(url: string, authorization: Option<string>) returns (outcome: Outcome)
      requires storage != net as object
      modifies storage, net
      ensures net.sent == old(net.sent) + [Sent(url, old(Authorization(authorization)))]
      ensures net.refreshTokensSent == old(net.refreshTokensSent)
      ensures HeadReply(old(net.replies)).Success? ==>
        outcome == Resolved(HeadReply(old(net.replies)).data)
      ensures !HeadReply(old(net.replies)).Success? ==>
        outcome == Rejected(ResponseFailure(HeadReply(old(net.replies))))
      ensures storage.items ==
        if IsUnauthorized(HeadReply(old(net.replies)))
        then WithoutTokens(old(storage.items), hasWindow)
        else old(storage.items)
    {
      var header := Authorization(authorization);
      var reply := net.Answer(url, header);
      if reply.Success? {
        return Resolved(reply.data);
      }
      if IsUnauthorized(reply) {
        if hasWindow {
          storage.RemoveItem(AccessTokenKey);
          storage.RemoveItem(RefreshTokenKey);
        }
      }
      return Rejected(ResponseFailure(reply));
    }
  }
}
