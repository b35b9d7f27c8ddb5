/** The HTTP gateway in front of the back end: a request step that attaches the
    bearer token, and a response step that answers an unauthorised reply by
    refreshing the access token once and holding every other unauthorised
    request in a queue until that refresh settles. Asynchrony is reduced to
    discrete events: an error reply arrives, or the refresh in flight finishes. */
module ApiClient {
  import opened Common
  import opened AuthApi

  /** A request's configuration: `authorization` is the bearer token in its
      headers, `retried` the `_retry` mark. */
  datatype Request = Request(id: nat, authorization: Option<Token>, retried: bool)

  /** An error reply; `status` is None when no response arrived at all. */
  datatype HttpError = HttpError(status: Option<int>, config: Request)

  /** Why a request is finally rejected. */
  datatype Failure = Http(reply: HttpError) | RefreshError(message: string)

  /** How a refresh ended: the new access token, or the error it threw. */
  datatype RefreshOutcome = Refreshed(token: Token) | RefreshFailed(error: string)

  /** What becomes of a request held by the gateway: resubmitted with a bearer
      token, or rejected. */
  datatype Settlement = Resolved(waiter: Request, token: Token) | Rejected(waiter: Request, failure: Failure)

  /** What the response step does with one error reply. */
  datatype Reaction = Queued | RefreshStarted | PassedOn(error: HttpError)

  /** The module-level variables: `isRefreshing`, `failedQueue`, and the request
      whose reply started the refresh in flight. */
  datatype GatewayState = GatewayState(isRefreshing: bool, failedQueue: seq<Request>, refreshing: Option<Request>)

  const Idle: GatewayState := GatewayState(false, [], None)

  /** Between events: a refresh is in flight exactly when a request started it,
      that request is marked retried, and nothing waits while none is in flight. */
  predicate Inv(g: GatewayState) {
    && (g.isRefreshing <==> g.refreshing.Some?)
    && (g.refreshing.Some? ==> g.refreshing.value.retried)
    && (!g.isRefreshing ==> g.failedQueue == [])
  }

  /** The request interceptor: a bearer token is set exactly when an access
      token is stored, and nothing else about the request changes. */
  function WithBearer(req: Request, token: Option<Token>): (r: Request)
    ensures r.id == req.id && r.retried == req.retried
    ensures token.Some? ==> r.authorization == token
    ensures token.None? ==> r == req
  {
    if token.Some? then req.(authorization := token) else req
  }

  /** The reply that triggers a refresh: status 401 on a request not yet retried. */
  predicate TriggersRefresh(e: HttpError) {
    e.status == Some(401) && !e.config.retried
  }

  /** processQueue, as a specification: every waiter, in queue order, resolved
      with the token or rejected with the refresh error. */
  function Settled(queue: seq<Request>, outcome: RefreshOutcome): (out: seq<Settlement>)
    ensures |out| == |queue|
    ensures forall i :: 0 <= i < |queue| ==> out[i].waiter == queue[i]
    ensures outcome.Refreshed? ==> forall i :: 0 <= i < |queue| ==> out[i] == Resolved(queue[i], outcome.token)
    ensures outcome.RefreshFailed? ==>
      forall i :: 0 <= i < |queue| ==> out[i] == Rejected(queue[i], RefreshError(outcome.error))
  {
    seq(|queue|, i requires 0 <= i < |queue| =>
      match outcome
      case Refreshed(t) => Resolved(queue[i], t)
      case RefreshFailed(m) => Rejected(queue[i], RefreshError(m)))
  }

  /** processQueue: walk the queue front to back settling each waiter. */
  method ProcessQueue(queue: seq<Request>, outcome: RefreshOutcome) returns (out: seq<Settlement>)
    ensures |out| == |queue|
    ensures forall i :: 0 <= i < |queue| ==> out[i].waiter == queue[i]
    ensures outcome.Refreshed? ==> forall i :: 0 <= i < |out| ==> out[i].Resolved? && out[i].token == outcome.token
    ensures outcome.RefreshFailed? ==>
      forall i :: 0 <= i < |out| ==> out[i].Rejected? && out[i].failure == RefreshError(outcome.error)
  {
    out := [];
    var k := 0;
    while k < |queue|
      invariant 0 <= k <= |queue| && |out| == k
      invariant forall i :: 0 <= i < k ==> out[i].waiter == queue[i]
      invariant outcome.Refreshed? ==> forall i :: 0 <= i < k ==> out[i] == Resolved(queue[i], outcome.token)
      invariant outcome.RefreshFailed? ==>
        forall i :: 0 <= i < k ==> out[i] == Rejected(queue[i], RefreshError(outcome.error))
    {
      var s := match outcome
        case Refreshed(t) => Resolved(queue[k], t)
        case RefreshFailed(m) => Rejected(queue[k], RefreshError(m));
      out := out + [s];
      k := k + 1;
    }
  }

  /** The response interceptor on an error reply. */
  function OnError(g: GatewayState, e: HttpError): (r: (GatewayState, Reaction))
    ensures Inv(g) ==> Inv(r.0)
    ensures !TriggersRefresh(e) ==> r == (g, PassedOn(e))
    ensures TriggersRefresh(e) && g.isRefreshing ==>
      r.1 == Queued && r.0.failedQueue == g.failedQueue + [e.config] && r.0.refreshing == g.refreshing
    ensures TriggersRefresh(e) && !g.isRefreshing ==>
      r.1 == RefreshStarted && r.0.failedQueue == g.failedQueue &&
      r.0.refreshing == Some(e.config.(retried := true))
    ensures r.0.isRefreshing == (g.isRefreshing || TriggersRefresh(e))
  {
    if !TriggersRefresh(e) then (g, PassedOn(e))
    else if g.isRefreshing then (g.(failedQueue := g.failedQueue + [e.config]), Queued)
    else (g.(isRefreshing := true, refreshing := Some(e.config.(retried := true))), RefreshStarted)
  }

  /** The refresh in flight settles: the request that started it is resubmitted
      with the new token or rejected with the refresh error, the queue is drained
      with the same outcome, and the gateway is idle again. */
  function Finish(g: GatewayState, outcome: RefreshOutcome): (r: (GatewayState, Settlement, seq<Settlement>))
    requires g.refreshing.Some?
    ensures r.0 == Idle && Inv(r.0)
    ensures r.1.waiter == g.refreshing.value
    ensures r.2 == Settled(g.failedQueue, outcome)
    ensures outcome.Refreshed? ==> r.1 == Resolved(g.refreshing.value, outcome.token)
    ensures outcome.RefreshFailed? ==> r.1 == Rejected(g.refreshing.value, RefreshError(outcome.error))
  {
    var own := match outcome
      case Refreshed(t) => Resolved(g.refreshing.value, t)
      case RefreshFailed(m) => Rejected(g.refreshing.value, RefreshError(m));
    (Idle, own, Settled(g.failedQueue, outcome))
  }

  /** A run of error replies, each handled in turn. */
  function OnErrors(g: GatewayState, es: seq<HttpError>): (r: (GatewayState, seq<Reaction>))
    ensures |r.1| == |es|
    decreases |es|
  {
    if es == [] then (g, [])
    else
      var (g1, a) := OnError(g, es[0]);
      var (g2, rest) := OnErrors(g1, es[1..]);
      (g2, [a] + rest)
  }

  function Configs(es: seq<HttpError>): (cs: seq<Request>)
    ensures |cs| == |es| && forall i :: 0 <= i < |es| ==> cs[i] == es[i].config
    decreases |es|
  {
    if es == [] then [] else [es[0].config] + Configs(es[1..])
  }

  /** While a refresh is in flight, unauthorised replies are only queued; none
      starts a second refresh. */
  lemma {:induction false} WhileRefreshingOnlyQueues(g: GatewayState, es: seq<HttpError>)
    requires g.isRefreshing
    requires forall i :: 0 <= i < |es| ==> TriggersRefresh(es[i])
    ensures forall i :: 0 <= i < |es| ==> OnErrors(g, es).1[i] == Queued
    decreases |es|
  {
    if es != [] {
      var tail := es[1..];
      var g1 := OnError(g, es[0]).0;
      forall i | 0 <= i < |tail| ensures TriggersRefresh(tail[i]) {
        assert tail[i] == es[i + 1];
      }
      WhileRefreshingOnlyQueues(g1, tail);
      var rest := OnErrors(g1, tail).1;
      assert OnErrors(g, es).1 == [Queued] + rest;
    }
  }

  /** While a refresh is in flight, the requests of unauthorised replies join the
      queue in arrival order, and nothing else about the gateway changes. */
  lemma {:induction false} WhileRefreshingQueuesInOrder(g: GatewayState, es: seq<HttpError>)
    requires g.isRefreshing
    requires forall i :: 0 <= i < |es| ==> TriggersRefresh(es[i])
    ensures OnErrors(g, es).0.failedQueue == g.failedQueue + Configs(es)
    ensures OnErrors(g, es).0.isRefreshing && OnErrors(g, es).0.refreshing == g.refreshing
    decreases |es|
  {
    if es != [] {
      var tail := es[1..];
      var g1 := OnError(g, es[0]).0;
      forall i | 0 <= i < |tail| ensures TriggersRefresh(tail[i]) {
        assert tail[i] == es[i + 1];
      }
      WhileRefreshingQueuesInOrder(g1, tail);
      assert OnErrors(g, es).0 == OnErrors(g1, tail).0;
      assert g.failedQueue + Configs(es) == g1.failedQueue + Configs(tail);
    }
  }

  /** A burst of unauthorised replies reaching an idle gateway starts exactly
      one refresh, for the first of them, and queues all the others in order;
      when that refresh succeeds, every one of them is resubmitted with the one
      new token, and the gateway is idle again. */
  lemma {:induction false} BurstRefreshesOnce(es: seq<HttpError>, t: Token)
    requires |es| > 0
    requires forall i :: 0 <= i < |es| ==> TriggersRefresh(es[i])
    ensures OnErrors(Idle, es).1[0] == RefreshStarted
    ensures forall i :: 1 <= i < |es| ==> OnErrors(Idle, es).1[i] == Queued
    ensures OnErrors(Idle, es).0.failedQueue == Configs(es[1..])
    ensures OnErrors(Idle, es).0.refreshing == Some(es[0].config.(retried := true))
    ensures var f := Finish(OnErrors(Idle, es).0, Refreshed(t));
      && f.0 == Idle
      && f.1 == Resolved(es[0].config.(retried := true), t)
      && |f.2| == |es| - 1
      && forall i :: 1 <= i < |es| ==> f.2[i - 1] == Resolved(es[i].config, t)
  {
    var g1 := OnError(Idle, es[0]).0;
    forall i | 0 <= i < |es| - 1 ensures TriggersRefresh(es[1..][i]) {
      assert es[1..][i] == es[i + 1];
    }
    WhileRefreshingOnlyQueues(g1, es[1..]);
    WhileRefreshingQueuesInOrder(g1, es[1..]);
    var rest := OnErrors(g1, es[1..]).1;
    assert OnErrors(Idle, es).1 == [RefreshStarted] + rest;
    forall i | 1 <= i < |es| ensures OnErrors(Idle, es).1[i] == Queued {
      assert OnErrors(Idle, es).1[i] == rest[i - 1];
    }
  }

  /** The gateway over a token store. */
  class Gateway {
    var isRefreshing: bool
    var failedQueue: seq<Request>
    var refreshing: Option<Request>
    const tokens: TokenStore

    constructor (store: TokenStore)
      ensures State() == Idle && tokens == store
    {
      isRefreshing, failedQueue, refreshing := false, [], None;
      tokens := store;
    }

    function State(): GatewayState
      reads this
    {
      GatewayState(isRefreshing, failedQueue, refreshing)
    }

    /** The request interceptor, reading the stored access token. */
    function AttachToken(req: Request): (r: Request)
      reads tokens
      ensures r == WithBearer(req, tokens.GetToken())
    {
      WithBearer(req, tokens.accessToken)
    }

    /** The response interceptor's synchronous part: pass the error on, queue the
        request, or start the refresh. The token store is not touched. */
    method OnResponseError(e: HttpError) returns (act: Reaction)
      requires Inv(State())
      modifies this
      ensures (State(), act) == OnError(old(State()), e)
      ensures Inv(State())
    {
      var (g, a) := OnError(State(), e);
      isRefreshing, failedQueue, refreshing := g.isRefreshing, g.failedQueue, g.refreshing;
      act := a;
    }

    /** The refresh started by OnResponseError runs: on success the new token is
        used for the first request and every queued one; on failure they are all
        rejected with the refresh error and the tokens are cleared. Either way
        the flag drops and the queue is empty. */
    method FinishRefresh(now: int) returns (own: Settlement, queued: seq<Settlement>)
      requires Inv(State()) && isRefreshing
      modifies this, tokens
      ensures old(tokens.refreshToken).Some? ==>
        && (State(), own, queued) == Finish(old(State()), Refreshed(RefreshedAccessToken(now)))
        && tokens.accessToken == Some(RefreshedAccessToken(now))
        && tokens.tokenExpiry == Some(now + TokenExpiryTime)
        && tokens.refreshToken == old(tokens.refreshToken)
      ensures old(tokens.refreshToken).None? ==>
        && (State(), own, queued) == Finish(old(State()), RefreshFailed(NoRefreshToken))
        && tokens.accessToken.None? && tokens.refreshToken.None? && tokens.tokenExpiry.None?
      ensures State() == Idle
    {
      var r := tokens.Refresh(now);
      var outcome := if r.Ok? then Refreshed(r.value) else RefreshFailed(r.error);
      queued := ProcessQueue(failedQueue, outcome);
      assert queued == Settled(failedQueue, outcome);
      own := if r.Ok? then Resolved(refreshing.value, r.value)
             else Rejected(refreshing.value, RefreshError(r.error));
      if r.Err? {
        tokens.Logout();
      }
      isRefreshing, failedQueue, refreshing := false, [], None;
    }
  }
}
