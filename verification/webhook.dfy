/**
 The webhook endpoint's answer to one delivery. Every event of the batch is
 handed to the handler in order. A handler that throws does so while the batch
 is still being mapped, so the events after it are never handled and the
 server's error handler answers 500 at once. Otherwise the answer waits for all
 outbound calls: 200 when every one succeeded, 500 when any failed.
 */
module Webhook {
  import opened Wrappers
  import opened Events
  import opened Replies
  import opened TestToken
  import opened Handler

  /** The parsed request body; `events` is `None` when the field is missing or not an array.
      The body's `destination` is only logged and is not modelled. */
  datatype Request = Request(events: Option<seq<Event>>)

  /** The HTTP status and the actions that were started, in batch order. */
  datatype Response = Response(status: int, started: seq<Action>)

  /** The actions started for a batch: the longest prefix of decisions that contains no failure. */
  function Started(events: seq<Event>, baseURL: string): (r: seq<Action>)
    ensures |r| <= |events|
    ensures forall i :: 0 <= i < |r| ==> r[i] == Decide(events[i], baseURL) && !r[i].Fail?
    ensures |r| < |events| ==> Decide(events[|r|], baseURL).Fail?
    decreases |events|
  {
    if |events| == 0 then []
    else
      var a := Decide(events[0], baseURL);
      if a.Fail? then [] else [a] + Started(events[1..], baseURL)
  }

  /** Whether a started action settles successfully, given whether its outbound calls (the
      content fetch, the reply) succeed. Logging always succeeds. */
  predicate Settles(a: Action, callsSucceed: bool) {
    match a
    case Log(_) => true
    case Fail(_) => false
    case Reply(_, _) => callsSucceed
    case FetchThenReply(_, _, _, _) => callsSucceed
  }

  /** The endpoint's answer. `callsSucceed(i)` says whether the outbound calls of the i-th event
      of the batch succeed; the platform is not part of this model. */
  function Respond(request: Request, baseURL: string, callsSucceed: nat -> bool): (r: Response)
    ensures r.status == 200 || r.status == 500
    ensures request.events.None? ==> r == Response(500, [])
    ensures request.events.Some? ==> r.started == Started(request.events.value, baseURL)
    ensures r.status == 200 <==>
              && request.events.Some?
              && forall i :: 0 <= i < |request.events.value| ==>
                   Settles(Decide(request.events.value[i], baseURL), callsSucceed(i))
  {
    match request.events
    case None => Response(500, [])
    case Some(events) =>
      var started := Started(events, baseURL);
      if |started| < |events| then Response(500, started)
      else if forall i | 0 <= i < |started| :: Settles(started[i], callsSucceed(i)) then Response(200, started)
      else Response(500, started)
  }

  /** An empty batch is acknowledged without handling anything. */
  lemma EmptyBatchAcknowledged(request: Request, baseURL: string, callsSucceed: nat -> bool)
    requires request.events == Some([])
    ensures Respond(request, baseURL, callsSucceed) == Response(200, [])
  {
  }

  /** A batch of verification probes is acknowledged whatever the platform does: nothing is sent. */
  lemma ProbesAcknowledged(request: Request, baseURL: string, callsSucceed: nat -> bool)
    requires request.events.Some?
    requires forall i :: 0 <= i < |request.events.value| ==> IsTestToken(request.events.value[i].replyToken)
    ensures Respond(request, baseURL, callsSucceed).status == 200
    ensures forall a :: a in Respond(request, baseURL, callsSucceed).started ==> a == Log(TestHook)
  {
  }

  /** One failing event fails the whole batch, and no event after it is handled. */
  lemma FailureStopsBatch(request: Request, baseURL: string, callsSucceed: nat -> bool, k: nat)
    requires request.events.Some? && k < |request.events.value|
    requires Decide(request.events.value[k], baseURL).Fail?
    ensures Respond(request, baseURL, callsSucceed).status == 500
    ensures |Respond(request, baseURL, callsSucceed).started| <= k
  {
  }
}
