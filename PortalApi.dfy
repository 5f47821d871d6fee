/** The portal's HTTP client. Every request carries the stored access token when
    there is one; a 401 with a refresh token stored triggers a refresh and a re-send
    through the same client, with no guard against refreshing again. `SendGuarded` is
    the same client with the guard the root app's copy has. */
module PortalApi {
  import opened Wrappers
  import opened Storage
  import opened Network

  /** The Authorization header after the request interceptor: the stored access token
      when it is non-empty, whatever the request had otherwise. */
  function Authorization(current: Option<string>, items: map<string, string>): (r: Option<string>)
    ensures HasValue(items, AccessTokenKey) ==> r == Some("Bearer " + items[AccessTokenKey])
    ensures !HasValue(items, AccessTokenKey) ==> r == current
  {
    if HasValue(items, AccessTokenKey) then Some("Bearer " + items[AccessTokenKey]) else current
  }

  /** A request's configuration; the refresh path rewrites its header in place. */
  class RequestConfig {
    const url: string
    var authorization: Option<string>

    constructor (u: string, auth: Option<string>)
      ensures url == u && authorization == auth
    {
      url := u;
      authorization := auth;
    }
  }

  /** The backend answers 401 to every scripted request and every refresh succeeds. */
  predicate AlwaysUnauthorized(replies: seq<Reply>, refreshReplies: seq<RefreshReply>) {
    (forall i | 0 <= i < |replies| :: IsUnauthorized(replies[i])) &&
    (forall i | 0 <= i < |refreshReplies| :: refreshReplies[i].Refreshed?) &&
    |replies| <= |refreshReplies|
  }

  lemma AlwaysUnauthorizedTail(replies: seq<Reply>, refreshReplies: seq<RefreshReply>)
    requires AlwaysUnauthorized(replies, refreshReplies) && |replies| > 0
    ensures IsUnauthorized(HeadReply(replies)) && HeadRefresh(refreshReplies).Refreshed?
    ensures AlwaysUnauthorized(replies[1..], refreshReplies[1..])
  {
    assert IsUnauthorized(replies[0]) && refreshReplies[0].Refreshed?;
  }

  /** One request through both interceptors. Only the two token keys of storage are
      ever written. A refresh stores the new access token (the refresh token stays),
      rewrites the header and re-sends; when the refresh fails, both tokens are removed,
      the browser is sent to '/login' and the original 401 is the rejection. */
  method Send(config: RequestConfig, storage: LocalStorage, net: Backend)
    returns (outcome: Outcome, redirectToLogin: bool)
    requires storage != net as object
    modifies config, storage, net
    decreases |net.replies|
    ensures |net.sent| > |old(net.sent)| && net.sent[..|old(net.sent)|] == old(net.sent)
    ensures net.sent[|old(net.sent)|] ==
      Sent(config.url, Authorization(old(config.authorization), old(storage.items)))
    ensures |net.refreshTokensSent| >= |old(net.refreshTokensSent)| &&
      net.refreshTokensSent[..|old(net.refreshTokensSent)|] == old(net.refreshTokensSent)
    ensures |net.sent| - |old(net.sent)| ==
      |net.refreshTokensSent| - |old(net.refreshTokensSent)| + (if redirectToLogin then 0 else 1)
    ensures !IsUnauthorized(HeadReply(old(net.replies))) || !HasValue(old(storage.items), RefreshTokenKey) ==>
      |net.sent| == |old(net.sent)| + 1 && net.refreshTokensSent == old(net.refreshTokensSent) &&
      storage.items == old(storage.items) && !redirectToLogin &&
      outcome == Settle(HeadReply(old(net.replies)))
    ensures IsUnauthorized(HeadReply(old(net.replies))) && HasValue(old(storage.items), RefreshTokenKey) ==>
      |net.refreshTokensSent| > |old(net.refreshTokensSent)| &&
      net.refreshTokensSent[|old(net.refreshTokensSent)|] == old(storage.items)[RefreshTokenKey]
    ensures IsUnauthorized(HeadReply(old(net.replies))) && HasValue(old(storage.items), RefreshTokenKey) &&
            HeadRefresh(old(net.refreshReplies)).RefreshFailed? ==>
      redirectToLogin && |net.sent| == |old(net.sent)| + 1
    ensures IsUnauthorized(HeadReply(old(net.replies))) && HasValue(old(storage.items), RefreshTokenKey) &&
            HeadRefresh(old(net.refreshReplies)).Refreshed? ==>
      |net.sent| >= |old(net.sent)| + 2 &&
      net.sent[|old(net.sent)| + 1] ==
        Sent(config.url, Some("Bearer " + HeadRefresh(old(net.refreshReplies)).auth.accessToken))
    ensures IsUnauthorized(HeadReply(old(net.replies))) && HasValue(old(storage.items), RefreshTokenKey) &&
            HeadRefresh(old(net.refreshReplies)).Refreshed? && !IsUnauthorized(NextReply(old(net.replies))) ==>
      |net.sent| == |old(net.sent)| + 2 &&
      net.refreshTokensSent == old(net.refreshTokensSent) + [old(storage.items)[RefreshTokenKey]] &&
      storage.items == old(storage.items)[AccessTokenKey := HeadRefresh(old(net.refreshReplies)).auth.accessToken] &&
      !redirectToLogin && outcome == Settle(NextReply(old(net.replies)))
    ensures redirectToLogin ==>
      storage.items == old(storage.items) - {AccessTokenKey, RefreshTokenKey} &&
      outcome == Rejected(ResponseFailure(HttpError(401)))
    ensures !redirectToLogin ==>
      storage.items - {AccessTokenKey} == old(storage.items) - {AccessTokenKey}
    ensures AlwaysUnauthorized(old(net.replies), old(net.refreshReplies)) &&
            HasValue(old(storage.items), RefreshTokenKey) ==>
      |net.sent| == |old(net.sent)| + |old(net.replies)| + 1 &&
      |net.refreshTokensSent| == |old(net.refreshTokensSent)| + |old(net.replies)| && !redirectToLogin
  {
    config.authorization := Authorization(config.authorization, storage.items);
    var reply := net.Answer(config.url, config.authorization);
    if reply.Success? {
      return Resolved(reply.data), false;
    }
    if IsUnauthorized(reply) {
      var refreshToken := storage.GetItem(RefreshTokenKey);
      if refreshToken.Some? && refreshToken.value != "" {
        var refreshed := net.Refresh(refreshToken.value);
        if refreshed.Refreshed? {
          storage.SetItem(AccessTokenKey, refreshed.auth.accessToken);
          config.authorization := Some("Bearer " + refreshed.auth.accessToken);
          ghost var sentBefore, tokensBefore := net.sent, net.refreshTokensSent;
          assert HeadReply(net.replies) == NextReply(old(net.replies));
          assert |sentBefore| == |old(net.sent)| + 1;
          outcome, redirectToLogin := Send(config, storage, net);
          PrefixTransitive(old(net.sent), sentBefore, net.sent);
          PrefixTransitive(old(net.refreshTokensSent), tokensBefore, net.refreshTokensSent);
          if AlwaysUnauthorized(old(net.replies), old(net.refreshReplies)) {
            AlwaysUnauthorizedTail(old(net.replies), old(net.refreshReplies));
          }
          return;
        }
        storage.RemoveItem(AccessTokenKey);
        storage.RemoveItem(RefreshTokenKey);
        return Rejected(ResponseFailure(reply)), true;
      }
    }
    return Rejected(ResponseFailure(reply)), false;
  }

  /** The send the interceptor evidently intends, with the `_retry` guard the root
      app's copy has: a request already re-sent after a refresh settles on its reply
      without refreshing again. One call thus refreshes at most once and sends at most
      twice, even against a backend that answers 401 to everything. */
  method SendGuarded(config: RequestConfig, storage: LocalStorage, net: Backend, retried: bool)
    returns (outcome: Outcome, redirectToLogin: bool)
    requires storage != net as object
    modifies config, storage, net
    decreases if retried then 0 else 1
    ensures |net.sent| > |old(net.sent)| && net.sent[..|old(net.sent)|] == old(net.sent)
    ensures net.sent[|old(net.sent)|] ==
      Sent(config.url, Authorization(old(config.authorization), old(storage.items)))
    ensures |net.refreshTokensSent| >= |old(net.refreshTokensSent)| &&
      net.refreshTokensSent[..|old(net.refreshTokensSent)|] == old(net.refreshTokensSent)
    ensures |net.refreshTokensSent| - |old(net.refreshTokensSent)| <= (if retried then 0 else 1)
    ensures |net.sent| - |old(net.sent)| <= (if retried then 1 else 2)
    ensures retried ==>
      !redirectToLogin && storage.items == old(storage.items) &&
      outcome == Settle(HeadReply(old(net.replies)))
    ensures !retried && IsUnauthorized(HeadReply(old(net.replies))) && HasValue(old(storage.items), RefreshTokenKey) ==>
      net.refreshTokensSent == old(net.refreshTokensSent) + [old(storage.items)[RefreshTokenKey]]
    ensures !retried && IsUnauthorized(HeadReply(old(net.replies))) && HasValue(old(storage.items), RefreshTokenKey) &&
            HeadRefresh(old(net.refreshReplies)).RefreshFailed? ==>
      redirectToLogin && |net.sent| == |old(net.sent)| + 1
    ensures !retried && IsUnauthorized(HeadReply(old(net.replies))) && HasValue(old(storage.items), RefreshTokenKey) &&
            HeadRefresh(old(net.refreshReplies)).Refreshed? ==>
      |net.sent| == |old(net.sent)| + 2 &&
      net.sent[|old(net.sent)| + 1] ==
        Sent(config.url, Some("Bearer " + HeadRefresh(old(net.refreshReplies)).auth.accessToken)) &&
      storage.items == old(storage.items)[AccessTokenKey := HeadRefresh(old(net.refreshReplies)).auth.accessToken] &&
      !redirectToLogin && outcome == Settle(NextReply(old(net.replies)))
    ensures redirectToLogin ==>
      storage.items == old(storage.items) - {AccessTokenKey, RefreshTokenKey} &&
      outcome == Rejected(ResponseFailure(HttpError(401)))
    ensures !redirectToLogin ==>
      storage.items - {AccessTokenKey} == old(storage.items) - {AccessTokenKey}
    ensures !retried && AlwaysUnauthorized(old(net.replies), old(net.refreshReplies)) &&
            |old(net.replies)| >= 2 && HasValue(old(storage.items), RefreshTokenKey) ==>
      |net.sent| == |old(net.sent)| + 2 && |net.refreshTokensSent| == |old(net.refreshTokensSent)| + 1 &&
      outcome == Rejected(ResponseFailure(HttpError(401))) && !redirectToLogin
  {
    config.authorization := Authorization(config.authorization, storage.items);
    var reply := net.Answer(config.url, config.authorization);
    if reply.Success? {
      return Resolved(reply.data), false;
    }
    if IsUnauthorized(reply) && !retried {
      var refreshToken := storage.GetItem(RefreshTokenKey);
      if refreshToken.Some? && refreshToken.value != "" {
        var refreshed := net.Refresh(refreshToken.value);
        if refreshed.Refreshed? {
          storage.SetItem(AccessTokenKey, refreshed.auth.accessToken);
          config.authorization := Some("Bearer " + refreshed.auth.accessToken);
          ghost var sentBefore, tokensBefore := net.sent, net.refreshTokensSent;
          outcome, redirectToLogin := SendGuarded(config, storage, net, true);
          PrefixTransitive(old(net.sent), sentBefore, net.sent);
          PrefixTransitive(old(net.refreshTokensSent), tokensBefore, net.refreshTokensSent);
          if AlwaysUnauthorized(old(net.replies), old(net.refreshReplies)) && |old(net.replies)| >= 2 {
            assert old(net.replies)[1..][0] == old(net.replies)[1];
          }
          return;
        }
        storage.RemoveItem(AccessTokenKey);
        storage.RemoveItem(RefreshTokenKey);
        return Rejected(ResponseFailure(reply)), true;
      }
    }
    return Rejected(ResponseFailure(reply)), false;
  }
}
