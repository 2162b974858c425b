/**
 * The two sides of the worker boundary together: the responses the worker
 * (Worker) posts for the requests the page (WorkerImpl) issued resolve each
 * call with the answer to its own request, whatever order they arrive in.
 */
module Protocol {
  import opened Messages
  import Worker
  import opened WorkerImpl

  /** The worker's responses to a sequence of requests, one each, last request first. */
  function ReversedReplies(requests: seq<Request>, backend: Worker.Backend): (rs: seq<Response>)
    ensures |rs| == |requests|
    // response k answers request |requests| - 1 - k: same id, same method
    ensures forall k :: 0 <= k < |rs| ==> rs[k].requestId == requests[|requests| - 1 - k].requestId
    ensures forall k :: 0 <= k < |rs| ==> rs[k].Method() == requests[|requests| - 1 - k].Method()
  {
    seq(|requests|, k requires 0 <= k < |requests| => Worker.Reply(requests[|requests| - 1 - k], backend))
  }

  /** One posted request, answered by the worker: its promise resolves with a response of its own kind. */
  lemma ReplySettlesOwnCall(t: Table, request: Request, backend: Worker.Backend)
    requires WellFormed(t) && request.requestId in t.pending
    ensures var r := Receive(t, Worker.Reply(request, backend));
      && request.requestId !in r.pending
      && request.requestId in r.settled
      && r.settled[request.requestId].Method() == request.Method()
      && (request.ComputeFurthestPointRequest? ==>
            r.settled[request.requestId].furthest == Worker.ComputeFurthestPoint(request.inputs, backend))
      && (request.DistanceBetweenPointsRequest? ==>
            r.settled[request.requestId].distance == Worker.DistanceBetween(request.a, request.b, backend))
  {
  }

  /**
   * Outstanding requests answered in reverse order: each call is resolved with
   * the worker's answer to its own request, none is left pending, and nothing
   * is reported as unhandled.
   */
  lemma ReversedRepliesSettleOwnCalls(t: Table, requests: seq<Request>, backend: Worker.Backend)
    requires WellFormed(t)
    requires forall i, j :: 0 <= i < j < |requests| ==> requests[i].requestId != requests[j].requestId
    requires forall i :: 0 <= i < |requests| ==> requests[i].requestId in t.pending
    ensures var r := ReceiveAll(t, ReversedReplies(requests, backend));
      && (forall i :: 0 <= i < |requests| ==>
            requests[i].requestId !in r.pending
            && requests[i].requestId in r.settled
            && r.settled[requests[i].requestId] == Worker.Reply(requests[i], backend))
      && r.errors == t.errors
  {
    var n := |requests|;
    var messages := ReversedReplies(requests, backend);
    ReversedRepliesPending(t, requests, backend);
    var r := ReceiveAll(t, messages);
    if n > 0 {
      SettledAt(t, messages, 0);
    }
    forall i | 0 <= i < n
      ensures requests[i].requestId !in r.pending
      ensures requests[i].requestId in r.settled && r.settled[requests[i].requestId] == Worker.Reply(requests[i], backend)
    {
      SettledAt(t, messages, n - 1 - i);
      assert messages[n - 1 - i] == Worker.Reply(requests[i], backend);
    }
  }

  /** The reversed replies carry distinct ids, each of them pending. */
  lemma ReversedRepliesPending(t: Table, requests: seq<Request>, backend: Worker.Backend)
    requires forall i, j :: 0 <= i < j < |requests| ==> requests[i].requestId != requests[j].requestId
    requires forall i :: 0 <= i < |requests| ==> requests[i].requestId in t.pending
    ensures var messages := ReversedReplies(requests, backend);
      && DistinctIds(messages)
      && (forall m :: m in messages ==> m.requestId in t.pending)
  {
    var n := |requests|;
    var messages := ReversedReplies(requests, backend);
    forall i, j | 0 <= i < j < n ensures messages[i].requestId != messages[j].requestId {
      assert messages[i].requestId == requests[n - 1 - i].requestId;
      assert messages[j].requestId == requests[n - 1 - j].requestId;
    }
    forall m | m in messages ensures m.requestId in t.pending {
      var k :| 0 <= k < n && messages[k] == m;
      assert m.requestId == requests[n - 1 - k].requestId;
    }
  }
}
