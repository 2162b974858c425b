/**
 * The page side of the worker backend (www/src/logic/workerImpl.ts): a
 * request counter shared by both calls, and a table of pending promise
 * handlers indexed by request id that incoming responses are matched against.
 *
 * The table's behaviour on one response is the function `Receive`; the class
 * `WorkerLogicImpl` holds the module-level state and its methods are proved
 * against `Receive`.
 */
module WorkerImpl {
  import opened Messages

  /** The `resolve` of the promise returned for request `requestId`. */
  datatype Handler = Resolve(requestId: int)

  /**
   * The correlation state: handlers still waiting (`pendingMessageHandlers`),
   * the response each resolved promise received, and the ids reported as
   * unhandled by `console.error`, in order.
   */
  datatype Table = Table(pending: map<int, Handler>, settled: map<int, Response>, errors: seq<int>)

  /** Every handler sits under its own id, and a resolved id is never pending again. */
  predicate WellFormed(t: Table)
  {
    && (forall id :: id in t.pending ==> t.pending[id] == Resolve(id))
    && (forall id :: id in t.settled ==> id !in t.pending && t.settled[id].requestId == id)
  }

  /** `worker.onmessage`: look the handler up by id; call it and delete it, or log the id. */
  function Receive(t: Table, message: Response): (r: Table)
    ensures WellFormed(t) ==> WellFormed(r)
    // only entry `message.requestId` can change
    ensures r.pending - {message.requestId} == t.pending - {message.requestId}
    ensures WellFormed(t) ==> r.settled - {message.requestId} == t.settled - {message.requestId}
    // whatever happened, there is no handler left for this id
    ensures message.requestId !in r.pending
    // a registered handler is invoked with the message, and nothing is logged
    ensures WellFormed(t) && message.requestId in t.pending ==>
      message.requestId in r.settled && r.settled[message.requestId] == message && r.errors == t.errors
    // no handler: the table is untouched and the id is reported once
    ensures message.requestId !in t.pending ==>
      r.pending == t.pending && r.settled == t.settled && r.errors == t.errors + [message.requestId]
  {
    var id := message.requestId;
    if id in t.pending then
      var handler := t.pending[id];
      Table(t.pending - {id}, t.settled[handler.requestId := message], t.errors)
    else
      Table(t.pending, t.settled, t.errors + [id])
  }

  /** A second delivery of a response that has already been handled is reported as unhandled. */
  lemma DuplicateResponseUnhandled(t: Table, message: Response)
    requires WellFormed(t) && message.requestId in t.pending
    ensures var once := Receive(t, message);
      Receive(once, message) == once.(errors := once.errors + [message.requestId])
  {
  }

  /** Responses delivered one after the other, in arrival order. */
  function ReceiveAll(t: Table, messages: seq<Response>): Table
    decreases |messages|
  {
    if messages == [] then t else ReceiveAll(Receive(t, messages[0]), messages[1..])
  }

  /** The ids a sequence of responses carries. */
  function Ids(messages: seq<Response>): set<int>
  {
    set m | m in messages :: m.requestId
  }

  /** No two responses carry the same id. */
  predicate DistinctIds(messages: seq<Response>)
  {
    forall i, j :: 0 <= i < j < |messages| ==> messages[i].requestId != messages[j].requestId
  }

  /**
   * Responses for distinct pending ids, in whatever order they arrive, each
   * resolve the promise registered under their own id, and no other.
   */
  lemma {:induction false} ReceiveAllDistinct(t: Table, messages: seq<Response>)
    requires WellFormed(t)
    requires DistinctIds(messages)
    requires forall m :: m in messages ==> m.requestId in t.pending
    ensures var r := ReceiveAll(t, messages);
      && WellFormed(r)
      && r.pending == t.pending - Ids(messages)
      && r.settled.Keys == t.settled.Keys + Ids(messages)
      && (forall id :: id in t.settled ==> r.settled[id] == t.settled[id])
      && (forall m :: m in messages ==> r.settled[m.requestId] == m)
      && r.errors == t.errors
    decreases |messages|
  {
    if messages != [] {
      var head, rest := messages[0], messages[1..];
      SplitFirst(t, messages);
      var t1 := Receive(t, head);
      ReceiveAllDistinct(t1, rest);
      var r := ReceiveAll(t, messages);
      assert r == ReceiveAll(t1, rest);
      forall m | m in messages ensures r.settled[m.requestId] == m {
        if m != head {
          assert m in rest;
        }
      }
    }
  }

  /** What the first response of a distinct, pending sequence leaves for the rest. */
  lemma SplitFirst(t: Table, messages: seq<Response>)
    requires WellFormed(t)
    requires DistinctIds(messages)
    requires forall m :: m in messages ==> m.requestId in t.pending
    requires messages != []
    ensures var head, rest := messages[0], messages[1..];
      && DistinctIds(rest)
      && (forall m :: m in rest ==> m.requestId in t.pending && m.requestId != head.requestId)
      && (forall m :: m in messages ==> m == head || m in rest)
      && Ids(messages) == {head.requestId} + Ids(rest)
      && head.requestId !in Ids(rest)
  {
    var head, rest := messages[0], messages[1..];
    assert messages == [head] + rest;
    forall m | m in rest ensures m.requestId in t.pending && m.requestId != head.requestId {
      var j :| 0 <= j < |rest| && rest[j] == m;
      assert messages[j + 1] == m;
    }
    forall i, j | 0 <= i < j < |rest| ensures rest[i].requestId != rest[j].requestId {
      assert rest[i] == messages[i + 1] && rest[j] == messages[j + 1];
    }
  }

  /** Corollary for one position: the response at `k` resolves its own id and leaves no handler behind. */
  lemma SettledAt(t: Table, messages: seq<Response>, k: nat)
    requires WellFormed(t)
    requires DistinctIds(messages)
    requires forall m :: m in messages ==> m.requestId in t.pending
    requires k < |messages|
    ensures var r := ReceiveAll(t, messages);
      && messages[k].requestId !in r.pending
      && messages[k].requestId in r.settled
      && r.settled[messages[k].requestId] == messages[k]
      && r.errors == t.errors
  {
    ReceiveAllDistinct(t, messages);
    assert messages[k] in messages;
    assert messages[k].requestId in Ids(messages);
  }

  /** The final table does not depend on the order in which distinct responses arrive. */
  lemma {:induction false} DeliveryOrderIrrelevant(t: Table, messages: seq<Response>, reordered: seq<Response>)
    requires WellFormed(t)
    requires DistinctIds(messages) && DistinctIds(reordered)
    requires multiset(messages) == multiset(reordered)
    requires forall m :: m in messages ==> m.requestId in t.pending
    ensures ReceiveAll(t, messages) == ReceiveAll(t, reordered)
  {
    forall m ensures m in messages <==> m in reordered {
      assert m in messages <==> m in multiset(messages);
      assert m in reordered <==> m in multiset(reordered);
    }
    assert Ids(messages) == Ids(reordered);
    ReceiveAllDistinct(t, messages);
    ReceiveAllDistinct(t, reordered);
    var r1, r2 := ReceiveAll(t, messages), ReceiveAll(t, reordered);
    assert r1.pending == r2.pending && r1.errors == r2.errors;
    assert r1.settled == r2.settled by {
      forall id | id in r1.settled ensures r1.settled[id] == r2.settled[id] {
        if id !in t.settled {
          var m :| m in messages && m.requestId == id;
          assert m in reordered;
        }
      }
    }
  }

  /** The module-level state of workerImpl.ts. */
  class WorkerLogicImpl {
    var nextRequestId: int
    var pendingMessageHandlers: map<int, Handler>
    /** The response each resolved promise was resolved with, by request id. */
    var settled: map<int, Response>
    /** Ids reported by "Unhandled response for request ID". */
    var errors: seq<int>
    /** Every request posted to the worker, in posting order. */
    var posted: seq<Request>

    function Correlation(): Table
      reads this
    {
      Table(pendingMessageHandlers, settled, errors)
    }

    /**
     * The ids handed out so far are exactly 0 .. nextRequestId - 1, each posted
     * once and in order; each is either pending or resolved, never both.
     */
    ghost predicate Valid()
      reads this
    {
      && WellFormed(Correlation())
      && |posted| == nextRequestId
      && (forall i :: 0 <= i < |posted| ==> posted[i].requestId == i)
      && (forall id :: id in pendingMessageHandlers ==> 0 <= id < nextRequestId)
      && (forall id :: id in settled ==> 0 <= id < nextRequestId)
      && (forall i :: 0 <= i < |posted| ==> posted[i].requestId in pendingMessageHandlers || posted[i].requestId in settled)
    }

    constructor ()
      ensures Valid()
      ensures nextRequestId == 0 && pendingMessageHandlers == map[] && settled == map[]
      ensures errors == [] && posted == []
    {
      nextRequestId := 0;
      pendingMessageHandlers := map[];
      settled := map[];
      errors := [];
      posted := [];
    }

    /** `execute`: post the request and register its promise's handler under the request's id. */
    method Execute(request: Request)
      modifies this
      ensures posted == old(posted) + [request]
      ensures pendingMessageHandlers == old(pendingMessageHandlers)[request.requestId := Resolve(request.requestId)]
      ensures nextRequestId == old(nextRequestId) && settled == old(settled) && errors == old(errors)
    {
      posted := posted + [request];
      pendingMessageHandlers := pendingMessageHandlers[request.requestId := Resolve(request.requestId)];
    }

    /** `WorkerLogicImpl.computeFurthestPoint`: a fresh id, then `execute`. Returns the id the call awaits. */
    method ComputeFurthestPoint(inputs: seq<Location>) returns (requestId: int)
      requires Valid()
      modifies this
      ensures Valid()
      ensures requestId == old(nextRequestId) && nextRequestId == requestId + 1
      ensures requestId !in old(pendingMessageHandlers) && requestId !in old(settled)
      ensures forall i :: 0 <= i < |old(posted)| ==> old(posted)[i].requestId < requestId
      ensures posted == old(posted) + [ComputeFurthestPointRequest(requestId, inputs)]
      ensures pendingMessageHandlers == old(pendingMessageHandlers)[requestId := Resolve(requestId)]
      ensures settled == old(settled) && errors == old(errors)
    {
      requestId := nextRequestId;
      nextRequestId := nextRequestId + 1;
      Execute(ComputeFurthestPointRequest(requestId, inputs));
    }

    /** `WorkerLogicImpl.distanceBetween`: the same counter, the same table. */
    method DistanceBetween(a: Location, b: Location) returns (requestId: int)
      requires Valid()
      modifies this
      ensures Valid()
      ensures requestId == old(nextRequestId) && nextRequestId == requestId + 1
      ensures requestId !in old(pendingMessageHandlers) && requestId !in old(settled)
      ensures forall i :: 0 <= i < |old(posted)| ==> old(posted)[i].requestId < requestId
      ensures posted == old(posted) + [DistanceBetweenPointsRequest(requestId, a, b)]
      ensures pendingMessageHandlers == old(pendingMessageHandlers)[requestId := Resolve(requestId)]
      ensures settled == old(settled) && errors == old(errors)
    {
      requestId := nextRequestId;
      nextRequestId := nextRequestId + 1;
      Execute(DistanceBetweenPointsRequest(requestId, a, b));
    }

    /** `worker.onmessage`. */
    method OnMessage(message: Response)
      requires Valid()
      modifies this
      ensures Valid()
      ensures Correlation() == Receive(old(Correlation()), message)
      ensures nextRequestId == old(nextRequestId) && posted == old(posted)
    {
      var id := message.requestId;
      if id in pendingMessageHandlers {
        var handler := pendingMessageHandlers[id];
        settled := settled[handler.requestId := message];
        pendingMessageHandlers := pendingMessageHandlers - {id};
      } else {
        errors := errors + [id];
      }
    }
  }
}
