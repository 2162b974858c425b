/**
 * The reactive store of www/src/model.ts: the input locations, the last
 * furthest point committed, and the subscriber callbacks.
 *
 * `update()` is asynchronous: it hands the current inputs to the injected
 * `computeFurthestPoint` and, when that promise settles, commits the result
 * and notifies every subscriber. The model splits it into the issuing step
 * (`Update`, which records the inputs the computation was started on) and the
 * completion step (`Complete`, or `Reject` when the promise fails). There is
 * no staleness check: whichever computation completes last decides `output`.
 * A subscriber that throws ends its notification round: the subscribers after
 * it are not called, and the exception rejects `update()`'s promise after the
 * new output has been committed.
 */
module Store {
  import opened Messages

  /** A subscriber callback, by identity; the model records its invocations instead of running it. */
  datatype Callback = Callback(id: nat)

  /** One invocation `callback(inputs, output)`. */
  datatype Call = Call(callback: Callback, inputs: seq<Location>, output: Option<Location>)

  /** `inputs` with every location at `p`'s coordinates removed, the others kept in order. */
  function Without(inputs: seq<Location>, p: Location): seq<Location>
  {
    if inputs == [] then []
    else if SameCoordinates(p, inputs[0]) then Without(inputs[1..], p)
    else [inputs[0]] + Without(inputs[1..], p)
  }

  /** The calls one notification round makes: each subscriber in order, all with the same snapshot. */
  function Notifications(subscribers: seq<Callback>, inputs: seq<Location>, output: Option<Location>): seq<Call>
  {
    seq(|subscribers|, i requires 0 <= i < |subscribers| => Call(subscribers[i], inputs, output))
  }

  /**
   * How far a notification round that starts at subscriber `from` gets, when
   * `throws` says which calls throw: past every subscriber up to and including
   * the first whose call throws.
   */
  function Reached(subscribers: seq<Callback>, from: nat, inputs: seq<Location>, output: Option<Location>, throws: Call -> bool): (n: nat)
    requires from <= |subscribers|
    ensures from <= n <= |subscribers|
    decreases |subscribers| - from
  {
    if from == |subscribers| then from
    else if throws(Call(subscribers[from], inputs, output)) then from + 1
    else Reached(subscribers, from + 1, inputs, output, throws)
  }

  /**
   * Of the subscribers a round reaches, only the last may throw, and the round
   * stops before the end only at a call that throws.
   */
  lemma {:induction false} ReachedStopsAtThrow(subscribers: seq<Callback>, from: nat, inputs: seq<Location>, output: Option<Location>, throws: Call -> bool)
    requires from <= |subscribers|
    ensures var n := Reached(subscribers, from, inputs, output, throws);
      && (forall i :: from <= i < n - 1 ==> !throws(Call(subscribers[i], inputs, output)))
      && (n < |subscribers| ==> from < n && throws(Call(subscribers[n - 1], inputs, output)))
    decreases |subscribers| - from
  {
    if from < |subscribers| && !throws(Call(subscribers[from], inputs, output)) {
      ReachedStopsAtThrow(subscribers, from + 1, inputs, output, throws);
    }
  }

  /**
   * A round ends on a throwing call exactly when some subscriber from `from`
   * on throws on the snapshot; when none does, it reaches every subscriber.
   */
  lemma {:induction false} ReachedRejects(subscribers: seq<Callback>, from: nat, inputs: seq<Location>, output: Option<Location>, throws: Call -> bool)
    requires from <= |subscribers|
    ensures var n := Reached(subscribers, from, inputs, output, throws);
      && ((exists i :: from <= i < |subscribers| && throws(Call(subscribers[i], inputs, output))) <==>
            from < n && throws(Call(subscribers[n - 1], inputs, output)))
      && ((forall i :: from <= i < |subscribers| ==> !throws(Call(subscribers[i], inputs, output))) ==>
            n == |subscribers|)
    decreases |subscribers| - from
  {
    if from < |subscribers| && !throws(Call(subscribers[from], inputs, output)) {
      ReachedRejects(subscribers, from + 1, inputs, output, throws);
    }
  }

  /**
   * The `for (let subscriber of this.subscribers)` loop of `update()`: call each
   * subscriber with the snapshot, stopping at the first call that throws.
   * `round` lists the calls made, which are the full round's first `Reached`
   * calls; `rejected` says whether the last of them threw (by
   * `ReachedRejects`, exactly when some subscriber throws on this snapshot).
   */
  method Notify(subscribers: seq<Callback>, inputs: seq<Location>, output: Option<Location>, throws: Call -> bool)
    returns (round: seq<Call>, rejected: bool)
    ensures round == Notifications(subscribers[..Reached(subscribers, 0, inputs, output, throws)], inputs, output)
    ensures rejected <==> |round| > 0 && throws(round[|round| - 1])
  {
    round := [];
    rejected := false;
    var i := 0;
    while i < |subscribers| && !rejected
      invariant 0 <= i <= |subscribers|
      invariant round == Notifications(subscribers[..i], inputs, output)
      invariant Reached(subscribers, 0, inputs, output, throws) == if rejected then i else Reached(subscribers, i, inputs, output, throws)
      invariant rejected <==> 0 < i && throws(Call(subscribers[i - 1], inputs, output))
    {
      var call := Call(subscribers[i], inputs, output);
      round := round + [call];
      rejected := throws(call);
      i := i + 1;
      assert Notifications(subscribers[..i], inputs, output) == Notifications(subscribers[..i - 1], inputs, output) + [call];
    }
  }

  /** Removal distributes over concatenation: it keeps the relative order of what it keeps. */
  lemma {:induction false} WithoutAppend(a: seq<Location>, b: seq<Location>, p: Location)
    ensures Without(a + b, p) == Without(a, p) + Without(b, p)
  {
    if a != [] {
      assert (a + b)[0] == a[0];
      assert (a + b)[1..] == a[1..] + b;
      WithoutAppend(a[1..], b, p);
    } else {
      assert a + b == b;
    }
  }

  /** After removal no location at `p`'s coordinates is left. */
  lemma {:induction false} WithoutRemovesAll(inputs: seq<Location>, p: Location)
    ensures forall x :: x in Without(inputs, p) ==> !SameCoordinates(p, x)
  {
    if inputs != [] {
      WithoutRemovesAll(inputs[1..], p);
    }
  }

  /**
   * Removal removes nothing else: every location not at `p`'s coordinates keeps
   * its number of occurrences, every one at them is gone.
   */
  lemma {:induction false} WithoutCounts(inputs: seq<Location>, p: Location)
    ensures forall x :: multiset(Without(inputs, p))[x] == if SameCoordinates(p, x) then 0 else multiset(inputs)[x]
  {
    if inputs != [] {
      WithoutCounts(inputs[1..], p);
      assert inputs == [inputs[0]] + inputs[1..];
    }
  }

  /** Removing coordinates that are absent changes nothing. */
  lemma {:induction false} WithoutAbsent(inputs: seq<Location>, p: Location)
    requires forall x :: x in inputs ==> !SameCoordinates(p, x)
    ensures Without(inputs, p) == inputs
  {
    if inputs != [] {
      assert inputs[0] in inputs;
      WithoutAbsent(inputs[1..], p);
    }
  }

  /** Removing twice is removing once. */
  lemma {:induction false} WithoutIdempotent(inputs: seq<Location>, p: Location)
    ensures Without(Without(inputs, p), p) == Without(inputs, p)
  {
    WithoutRemovesAll(inputs, p);
    WithoutAbsent(Without(inputs, p), p);
  }

  /** After `addInput(p)`, the only location at `p`'s coordinates is `p` itself, at the end. */
  lemma AddLeavesOneAtEnd(inputs: seq<Location>, p: Location)
    ensures var added := Without(inputs, p) + [p];
      && added[|added| - 1] == p
      && forall i :: 0 <= i < |added| ==> (SameCoordinates(p, added[i]) <==> i == |added| - 1)
  {
    WithoutRemovesAll(inputs, p);
    var added := Without(inputs, p) + [p];
    forall i | 0 <= i < |added| - 1 ensures !SameCoordinates(p, added[i]) {
      assert added[i] in Without(inputs, p);
    }
  }

  class Model {
    var inputs: seq<Location>
    var output: Option<Location>
    var subscribers: seq<Callback>
    /** The injected `computeFurthestPoint`, as the value its promise resolves to. */
    const computeFurthestPoint: seq<Location> -> Option<Location>
    /** The inputs each `update()` still awaiting its result was started on, in issue order. */
    var inFlight: seq<seq<Location>>
    /** Every subscriber invocation so far, in order. */
    var calls: seq<Call>

    constructor (computeFurthestPoint: seq<Location> -> Option<Location>)
      ensures this.computeFurthestPoint == computeFurthestPoint
      ensures inputs == [] && output == None && subscribers == []
      ensures inFlight == [] && calls == []
    {
      this.computeFurthestPoint := computeFurthestPoint;
      inputs := [];
      output := None;
      subscribers := [];
      inFlight := [];
      calls := [];
    }

    /**
     * `subscribe`: register the callback and replay the current state to it at
     * once. If that call throws, `subscribe` throws too (`threw`), with the
     * callback already registered.
     */
    method Subscribe(callback: Callback, throws: Call -> bool) returns (threw: bool)
      modifies this
      ensures subscribers == old(subscribers) + [callback]
      ensures calls == old(calls) + [Call(callback, inputs, output)]
      ensures threw == throws(Call(callback, inputs, output))
      ensures inputs == old(inputs) && output == old(output) && inFlight == old(inFlight)
    {
      subscribers := subscribers + [callback];
      var call := Call(callback, inputs, output);
      calls := calls + [call];
      threw := throws(call);
    }

    /** `addInput`: drop every input at the same coordinates, append the new one, recompute. */
    method AddInput(input: Location)
      modifies this
      ensures inputs == Without(old(inputs), input) + [input]
      ensures inFlight == old(inFlight) + [inputs]
      ensures output == old(output) && subscribers == old(subscribers) && calls == old(calls)
    {
      RemoveInputInternal(input);
      inputs := inputs + [input];
      Update();
    }

    /** `removeInput`: drop every input at the same coordinates, recompute. */
    method RemoveInput(input: Location)
      modifies this
      ensures inputs == Without(old(inputs), input)
      ensures inFlight == old(inFlight) + [inputs]
      ensures output == old(output) && subscribers == old(subscribers) && calls == old(calls)
    {
      RemoveInputInternal(input);
      Update();
    }

    /** `removeInputInternal`: an index loop that splices matches out in place. */
    method RemoveInputInternal(toRemove: Location)
      modifies this
      ensures inputs == Without(old(inputs), toRemove)
      ensures output == old(output) && subscribers == old(subscribers)
      ensures inFlight == old(inFlight) && calls == old(calls)
    {
      ghost var original := inputs;
      ghost var scanned := 0;
      var i := 0;
      while i < |inputs|
        invariant 0 <= i <= |inputs| && 0 <= scanned <= |original|
        invariant inputs[..i] == Without(original[..scanned], toRemove)
        invariant inputs[i..] == original[scanned..]
        invariant output == old(output) && subscribers == old(subscribers)
        invariant inFlight == old(inFlight) && calls == old(calls)
        decreases |inputs| - i
      {
        var existing := inputs[i];
        assert existing == original[scanned];
        assert original[..scanned + 1] == original[..scanned] + [existing];
        assert original[scanned + 1..] == original[scanned..][1..];
        WithoutAppend(original[..scanned], [existing], toRemove);
        if toRemove.lat == existing.lat && toRemove.long == existing.long {
          ghost var kept, rest := inputs[..i], inputs[i + 1..];
          assert rest == original[scanned + 1..];
          inputs := inputs[..i] + inputs[i + 1..];
          assert inputs[..i] == kept && inputs[i..] == rest;
        } else {
          assert inputs[..i + 1] == inputs[..i] + [existing];
          assert inputs[i + 1..] == inputs[i..][1..];
          i := i + 1;
        }
        scanned := scanned + 1;
      }
      assert original[..scanned] == original;
      assert inputs[..i] == inputs;
    }

    /** The issuing half of `update()`: the computation is started on the current inputs. */
    method Update()
      modifies this
      ensures inFlight == old(inFlight) + [inputs]
      ensures inputs == old(inputs) && output == old(output)
      ensures subscribers == old(subscribers) && calls == old(calls)
    {
      inFlight := inFlight + [inputs];
    }

    /**
     * The completing half of `update()` for the `k`-th computation in flight:
     * commit its result, then call the subscribers in registration order with
     * the inputs as they are now and the new output. The first call that
     * throws ends the round and rejects `update()`'s promise (`rejected`);
     * the output stays committed.
     */
    method Complete(k: nat, throws: Call -> bool) returns (rejected: bool)
      requires k < |inFlight|
      modifies this
      ensures output == computeFurthestPoint(old(inFlight)[k])
      ensures inFlight == old(inFlight)[..k] + old(inFlight)[k + 1..]
      ensures var n := Reached(subscribers, 0, inputs, output, throws);
        && calls == old(calls) + Notifications(subscribers[..n], inputs, output)
        && (rejected <==> 0 < n && throws(Call(subscribers[n - 1], inputs, output)))
      ensures inputs == old(inputs) && subscribers == old(subscribers)
    {
      output := computeFurthestPoint(inFlight[k]);
      inFlight := inFlight[..k] + inFlight[k + 1..];
      var round;
      round, rejected := Notify(subscribers, inputs, output, throws);
      calls := calls + round;
    }

    /** The `k`-th computation's promise rejects: `update()` stops at its `await`; nothing is committed or notified. */
    method Reject(k: nat)
      requires k < |inFlight|
      modifies this
      ensures inFlight == old(inFlight)[..k] + old(inFlight)[k + 1..]
      ensures inputs == old(inputs) && output == old(output)
      ensures subscribers == old(subscribers) && calls == old(calls)
    {
      inFlight := inFlight[..k] + inFlight[k + 1..];
    }
  }

  /**
   * Two additions whose computations complete out of order: the older result
   * is committed last and stays, although it was computed without `q`.
   */
  method StaleCompletionWins(compute: seq<Location> -> Option<Location>, p: Location, q: Location)
    returns (model: Model)
    requires !SameCoordinates(p, q)
    ensures model.inputs == [p, q]
    ensures model.inFlight == []
    ensures model.output == compute([p])
  {
    model := new Model(compute);
    model.AddInput(p);
    assert model.inputs == [p];
    assert model.inFlight == [[p]];
    model.AddInput(q);
    assert Without([p], q) == [p];
    assert model.inputs == [p, q];
    assert model.inFlight == [[p], [p, q]];
    var rejected := model.Complete(1, call => false);
    assert model.inFlight == [[p]];
    rejected := model.Complete(0, call => false);
  }
}
