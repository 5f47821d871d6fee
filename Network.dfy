/** The backend as the HTTP clients see it: a script of replies handed out in order,
    and a log of what was sent. A request that finds the script exhausted gets no
    response, as when the network fails. */
module Network {
  import opened Wrappers
  import opened Entities

  datatype Reply = Success(data: string) | HttpError(status: int) | NoResponse

  datatype RefreshReply = Refreshed(auth: AuthResponse) | RefreshFailed

  /** `error.response?.status === 401`: the reply that triggers the session logic. */
  predicate IsUnauthorized(r: Reply) { r == HttpError(401) }

  /** Why a request's promise was rejected: the reply that failed it, or a failed
      session refresh. */
  datatype Failure = ResponseFailure(reply: Reply) | RefreshFailure

  /** How a request's promise settles. */
  datatype Outcome = Resolved(data: string) | Rejected(failure: Failure)

  /** A request as it left the client: its url and its Authorization header. */
  datatype Sent = Sent(url: string, authorization: Option<string>)

  function HeadReply(replies: seq<Reply>): Reply {
    if replies == [] then NoResponse else replies[0]
  }

  function HeadRefresh(replies: seq<RefreshReply>): RefreshReply {
    if replies == [] then RefreshFailed else replies[0]
  }

  /** The reply after the first: what a re-sent request gets. */
  function NextReply(replies: seq<Reply>): Reply {
    HeadReply(if replies == [] then [] else replies[1..])
  }

  /** How a reply settles a request's promise when no session logic steps in: its data
      on a success, the reply itself as the rejection otherwise. */
  function Settle(r: Reply): Outcome {
    if r.Success? then Resolved(r.data) else Rejected(ResponseFailure(r))
  }

  /** A log that kept an earlier log as its prefix still keeps it after growing again. */
  lemma PrefixTransitive<T>(a: seq<T>, b: seq<T>, c: seq<T>)
    requires |a| <= |b| <= |c| && b[..|a|] == a && c[..|b|] == b
    ensures c[..|a|] == a
  {
    assert c[..|a|] == c[..|b|][..|a|];
  }

  class Backend {
    var replies: seq<Reply>
    var refreshReplies: seq<RefreshReply>
    var sent: seq<Sent>
    var refreshTokensSent: seq<string>

    constructor (script: seq<Reply>, refreshScript: seq<RefreshReply>)
      ensures replies == script && refreshReplies == refreshScript
      ensures sent == [] && refreshTokensSent == []
    {
      replies := script;
      refreshReplies := refreshScript;
      sent := [];
      refreshTokensSent := [];
    }

    /** Sends one request and takes the next scripted reply. */
    method Answer(url: string, authorization: Option<string>) returns (reply: Reply)
      modifies this
      ensures reply == HeadReply(old(replies))
      ensures replies == if old(replies) == [] then [] else old(replies)[1..]
      ensures sent == old(sent) + [Sent(url, authorization)]
      ensures refreshReplies == old(refreshReplies) && refreshTokensSent == old(refreshTokensSent)
    {
      sent := sent + [Sent(url, authorization)];
      if replies == [] {
        reply := NoResponse;
      } else {
        reply := replies[0];
        replies := replies[1..];
      }
    }

    /** Sends a refresh request carrying a refresh token and takes the next scripted
        refresh reply. */
    method Refresh(refreshToken: string) returns (reply: RefreshReply)
      modifies this
      ensures reply == HeadRefresh(old(refreshReplies))
      ensures refreshReplies == if old(refreshReplies) == [] then [] else old(refreshReplies)[1..]
      ensures refreshTokensSent == old(refreshTokensSent) + [refreshToken]
      ensures replies == old(replies) && sent == old(sent)
    {
      refreshTokensSent := refreshTokensSent + [refreshToken];
      if refreshReplies == [] {
        reply := RefreshFailed;
      } else {
        reply := refreshReplies[0];
        refreshReplies := refreshReplies[1..];
      }
    }
  }
}
