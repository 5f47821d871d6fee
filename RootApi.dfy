/** The root app's HTTP client: which requests carry the access token, and the
    once-only refresh-and-retry after a 401. The refresh call and the session writes
    stand for the root app's auth service, which is taken to behave as the portal's
    (three keys written on a refresh, the same three removed on logout). */
module RootApi {
  import opened Wrappers
  import opened Text
  import opened Entities
  import opened Storage
  import opened Network
  import PortalAuthService

  const PublicEndpoints := ["/api/jobs/public", "/api/auth/login", "/api/auth/register", "/api/auth/refresh"]

  /** A request is public when its url starts with one of the listed prefixes. */
  predicate IsPublic(url: string) {
    exists i | 0 <= i < |PublicEndpoints| :: StartsWith(url, PublicEndpoints[i])
  }

  /** Each listed prefix makes public every url it begins, whatever follows it (an id,
      a query string), and a public url stays public with more text after it; the
      employer job list and job creation at '/api/jobs' are not public. */
  lemma PublicPrefixLaws(url: string, rest: string)
    ensures IsPublic(url) ==> IsPublic(url + rest)
    ensures IsPublic("/api/jobs/public" + rest) && IsPublic("/api/auth/login" + rest) &&
            IsPublic("/api/auth/register" + rest) && IsPublic("/api/auth/refresh" + rest)
    ensures !IsPublic("/api/jobs") && !IsPublic("/api/jobs?" + rest)
  {
    if IsPublic(url) {
      var i :| 0 <= i < |PublicEndpoints| && StartsWith(url, PublicEndpoints[i]);
      assert (url + rest)[..|PublicEndpoints[i]|] == url[..|PublicEndpoints[i]|];
    }
    forall i | 0 <= i < |PublicEndpoints|
      ensures StartsWith(PublicEndpoints[i] + rest, PublicEndpoints[i])
    {
      assert (PublicEndpoints[i] + rest)[..|PublicEndpoints[i]|] == PublicEndpoints[i];
    }
    assert StartsWith("/api/jobs/public" + rest, PublicEndpoints[0]);
    assert StartsWith("/api/auth/login" + rest, PublicEndpoints[1]);
    assert StartsWith("/api/auth/register" + rest, PublicEndpoints[2]);
    assert StartsWith("/api/auth/refresh" + rest, PublicEndpoints[3]);
    var query := "/api/jobs?" + rest;
    forall i | 0 <= i < |PublicEndpoints|
      ensures !StartsWith("/api/jobs", PublicEndpoints[i]) && !StartsWith(query, PublicEndpoints[i])
    {
      assert query[9] == '?' && query[5] == 'j';
      if i == 0 {
        assert PublicEndpoints[i][9] == '/';
      } else {
        assert PublicEndpoints[i][5] == 'a';
      }
    }
  }

  /** The Authorization header after the request interceptor: public requests keep
      whatever they had, others get the stored access token when there is a non-empty
      one and keep their header otherwise. */
  function Authorization(url: string, current: Option<string>, items: map<string, string>): (r: Option<string>)
    ensures IsPublic(url) ==> r == current
    ensures !IsPublic(url) && HasValue(items, AccessTokenKey) ==>
      r == Some("Bearer " + items[AccessTokenKey])
    ensures !HasValue(items, AccessTokenKey) ==> r == current
  {
    if !IsPublic(url) && HasValue(items, AccessTokenKey) then
      Some("Bearer " + items[AccessTokenKey])
    else current
  }

  /** The public-job urls of the root job service start with '/api/public/jobs', which
      no listed prefix matches: they get the token like any private request. */
  lemma PublicJobsUrlIsNotPublic(rest: string)
    ensures !IsPublic("/api/public/jobs" + rest)
  {
    var url := "/api/public/jobs" + rest;
    forall i | 0 <= i < |PublicEndpoints|
      ensures !StartsWith(url, PublicEndpoints[i])
    {
      assert url[5] == 'p';
      assert PublicEndpoints[i][5] != 'p';
    }
  }

  /** A request's configuration, which the interceptors change in place. */
  class RequestConfig {
    const url: string
    var authorization: Option<string>
    var retry: bool

    constructor (u: string, auth: Option<string>)
      ensures url == u && authorization == auth && !retry
    {
      url := u;
      authorization := auth;
      retry := false;
    }
  }

  /** One request through both interceptors. A 401 on a request not yet retried marks
      it retried; with a refresh token stored the session is refreshed and the request
      re-sent through the client (so the request interceptor runs again), and without
      one, or when the refresh fails, the session is removed and the browser sent to
      '/login'. */
  method Send(config: RequestConfig, storage: LocalStorage, net: Backend)
    returns (outcome: Outcome, redirectToLogin: bool)
    requires storage != net as object
    modifies config, storage, net
    decreases if config.retry then 0 else 1
    ensures 1 <= |net.sent| - |old(net.sent)| <= 2 && net.sent[..|old(net.sent)|] == old(net.sent)
    ensures |net.refreshTokensSent| - |old(net.refreshTokensSent)| <= 1
    ensures net.sent[|old(net.sent)|] ==
      Sent(config.url, Authorization(config.url, old(config.authorization), old(storage.items)))
    ensures old(config.retry) ==>
      |net.sent| == |old(net.sent)| + 1 && net.refreshTokensSent == old(net.refreshTokensSent) &&
      storage.items == old(storage.items) && !redirectToLogin &&
      outcome == Settle(HeadReply(old(net.replies)))
    ensures !IsUnauthorized(HeadReply(old(net.replies))) ==>
      |net.sent| == |old(net.sent)| + 1 && net.refreshTokensSent == old(net.refreshTokensSent) &&
      storage.items == old(storage.items) && !redirectToLogin &&
      outcome == Settle(HeadReply(old(net.replies)))
    ensures |net.sent| == |old(net.sent)| + 2 ==>
      !old(config.retry) && IsUnauthorized(HeadReply(old(net.replies))) &&
      HeadRefresh(old(net.refreshReplies)).Refreshed? &&
      net.sent[|old(net.sent)| + 1] ==
        Sent(config.url, Some("Bearer " + HeadRefresh(old(net.refreshReplies)).auth.accessToken))
    ensures !old(config.retry) && IsUnauthorized(HeadReply(old(net.replies))) &&
            HasValue(old(storage.items), RefreshTokenKey) && HeadRefresh(old(net.refreshReplies)).Refreshed? ==>
      |net.sent| == |old(net.sent)| + 2 &&
      net.refreshTokensSent == old(net.refreshTokensSent) + [old(storage.items)[RefreshTokenKey]] &&
      storage.items == PortalAuthService.AfterStore(old(storage.items), HeadRefresh(old(net.refreshReplies)).auth) &&
      !redirectToLogin && outcome == Settle(NextReply(old(net.replies)))
    ensures redirectToLogin ==>
      !old(config.retry) && IsUnauthorized(HeadReply(old(net.replies))) &&
      storage.items == old(storage.items) - {AccessTokenKey, RefreshTokenKey, UserKey} &&
      outcome == (if HasValue(old(storage.items), RefreshTokenKey) then Rejected(RefreshFailure)
                  else Rejected(ResponseFailure(HttpError(401))))
    ensures !old(config.retry) && IsUnauthorized(HeadReply(old(net.replies))) ==>
      (redirectToLogin <==>
        !HasValue(old(storage.items), RefreshTokenKey) || HeadRefresh(old(net.refreshReplies)).RefreshFailed?)
  {
    config.authorization := Authorization(config.url, config.authorization, storage.items);
    var reply := net.Answer(config.url, config.authorization);
    if reply.Success? {
      return Resolved(reply.data), false;
    }
    if IsUnauthorized(reply) && !config.retry {
      config.retry := true;
      var refreshToken := storage.GetItem(RefreshTokenKey);
      if refreshToken.Some? && refreshToken.value != "" {
        var refreshed := net.Refresh(refreshToken.value);
        if refreshed.Refreshed? {
          PortalAuthService.StoreAuth(storage, refreshed.auth);
          config.authorization := Some("Bearer " + refreshed.auth.accessToken);
          outcome, redirectToLogin := Send(config, storage, net);
          return;
        }
        PortalAuthService.Logout(storage);
        return Rejected(RefreshFailure), true;
      }
      PortalAuthService.Logout(storage);
      return Rejected(ResponseFailure(reply)), true;
    }
    return Rejected(ResponseFailure(reply)), false;
  }
}
