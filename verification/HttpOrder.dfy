/** Callbacks are called in the order their responses arrived. */
module HttpOrder {
  import opened Types
  import opened HttpCallbacks

  /** The ids answered in a run, in order. */
  function Arrivals(steps: seq<Step>): seq<nat>
    decreases |steps|
  {
    if steps == [] then []
    else (if steps[0].Respond? then [steps[0].id] else []) + Arrivals(steps[1..])
  }

  predicate Rising(at: seq<nat>, top: nat) {
    (forall i :: 0 <= i < |at| ==> at[i] < top) && (forall i, j :: 0 <= i < j < |at| ==> at[i] < at[j])
  }

  /** `at` are the places of the calls among the arrivals, in rising order, below `top`. */
  predicate Places(calls: seq<Call>, arrived: seq<nat>, at: seq<nat>, top: nat) {
    && |at| == |calls| && top <= |arrived| && Rising(at, top)
    && (forall i :: 0 <= i < |at| ==> calls[i].id == arrived[at[i]])
  }

  /** All but the first `k` of the arrivals are in transit, and the calls answer some of these `k`, in order. */
  predicate InOrder(h: Host, arrived: seq<nat>, at: seq<nat>, k: nat) {
    Places(h.calls, arrived, at, k) && InTransit(h) == arrived[k..]
  }

  lemma RespondsInOrder(h: Host, id: nat, arrived: seq<nat>, at: seq<nat>, k: nat)
    requires Enabled(h, Respond(id)) && InOrder(h, arrived, at, k)
    ensures InOrder(Apply(h, Respond(id)), arrived + [id], at, k)
  {
    assert InTransit(Apply(h, Respond(id))) == InTransit(h) + [id];
  }

  lemma MovesInTransit(h: Host, step: Step)
    requires Enabled(h, step) && !step.Respond? && !step.Deliver?
    ensures InTransit(Apply(h, step)) == InTransit(h) && Apply(h, step).calls == h.calls
  {
    if step.DrainOne? { assert h.responses == [h.responses[0]] + h.responses[1..]; }
  }

  lemma DeliversInOrder(h: Host, vmOk: bool, arrived: seq<nat>, at: seq<nat>, k: nat)
    returns (at': seq<nat>, k': nat)
    requires Enabled(h, Deliver(vmOk)) && InOrder(h, arrived, at, k)
    ensures InOrder(Apply(h, Deliver(vmOk)), arrived, at', k')
  {
    var t := Apply(h, Deliver(vmOk));
    assert h.ui.left[0] == InTransit(h)[0] == arrived[k];
    assert InTransit(t) == InTransit(h)[1..] == arrived[k + 1..];
    k' := k + 1;
    at' := if |t.calls| == |h.calls| then at else at + [k];
  }

  lemma OneMore(h: Host, step: Step, arrived: seq<nat>, at: seq<nat>, k: nat) returns (at': seq<nat>, k': nat)
    requires Enabled(h, step) && InOrder(h, arrived, at, k)
    ensures InOrder(Apply(h, step), arrived + (if step.Respond? then [step.id] else []), at', k')
  {
    at', k' := at, k;
    if step.Respond? {
      RespondsInOrder(h, step.id, arrived, at, k);
    } else {
      assert arrived + [] == arrived;
      if step.Deliver? { at', k' := DeliversInOrder(h, step.vmOk, arrived, at, k); } else { MovesInTransit(h, step); }
    }
  }

  lemma Regroup(a: seq<nat>, b: seq<nat>, c: seq<nat>)
    ensures a + b + c == a + (b + c)
  {
  }

  lemma {:induction false} RunInOrder(h: Host, steps: seq<Step>, arrived: seq<nat>, at: seq<nat>, k: nat)
    returns (at': seq<nat>, k': nat)
    requires ValidRun(h, steps) && InOrder(h, arrived, at, k)
    ensures InOrder(Run(h, steps), arrived + Arrivals(steps), at', k')
    decreases |steps|
  {
    if steps == [] {
      at', k' := at, k;
      assert arrived + [] == arrived;
    } else {
      var first := if steps[0].Respond? then [steps[0].id] else [];
      at', k' := OneMore(h, steps[0], arrived, at, k);
      at', k' := RunInOrder(Apply(h, steps[0]), steps[1..], arrived + first, at', k');
      Regroup(arrived, first, Arrivals(steps[1..]));
      assert Arrivals(steps) == first + Arrivals(steps[1..]);
    }
  }

  /** Over every run with reloads: the callbacks called answer responses in the order in which these arrived, each at
      its own place, and every response before the last one answered has left the channel. */
  lemma CallsInArrivalOrder(steps: seq<Step>) returns (at: seq<nat>, k: nat)
    requires ValidRun(FRESH, steps)
    ensures var h := Run(FRESH, steps);
            && |at| == |h.calls| && k <= |Arrivals(steps)|
            && (forall i, j :: 0 <= i < j < |at| ==> at[i] < at[j])
            && (forall i :: 0 <= i < |at| ==> at[i] < k && h.calls[i].id == Arrivals(steps)[at[i]])
            && InTransit(h) == Arrivals(steps)[k..]
  {
    assert InOrder(FRESH, [], [], 0);
    at, k := RunInOrder(FRESH, steps, [], [], 0);
    assert [] + Arrivals(steps) == Arrivals(steps);
  }
}
