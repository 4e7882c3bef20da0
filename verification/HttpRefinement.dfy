/** The atomic steps of the bridge (`HttpSlots`) against the requests and answers that the callback protocol
    (`HttpCallbacks`) is about. */
module HttpRefinement {
  import S = HttpSlots
  import C = HttpCallbacks

  /** Sent and not answered yet. */
  predicate Unanswered(s: S.Sys, id: nat) { id in s.bridge.queue || id in s.bridge.running || id in s.responding }

  /** Both machines know the same unanswered requests and, up to an id drawn but not sent, the same next id. */
  ghost predicate Agree(s: S.Sys, h: C.Host, ui: S.Thread) {
    && (forall id :: id in h.outstanding <==> Unanswered(s, id))
    && s.bridge.numbered.Keys <= {ui}
    && (if ui in s.bridge.numbered then s.bridge.numbered[ui] == h.nextId && s.bridge.nextId == h.nextId + 1
        else s.bridge.nextId == h.nextId)
  }

  /** Only the UI thread submits. */
  predicate OnlyUi(step: S.Step, ui: S.Thread) {
    match step
    case Reserve(t) => t == ui
    case BackOut(t) => t == ui
    case AssignId(t) => t == ui
    case Send(t) => t == ui
    case Release(t) => t == ui
    case _ => true
  }

  /** What the callback protocol sees of an atomic step: sending submits or is refused, an answer is an answer,
      and everything else happens behind its back. */
  function Seen(s: S.Sys, step: S.Step, withCallback: bool): seq<C.Step> {
    match step
    case Send(_) => [if s.bridge.worker.Gone? then C.Refuse(true) else C.Submit(withCallback)]
    case Respond(id) => [C.Respond(id)]
    case _ => []
  }

  lemma PlaceOf(s: S.Sys, id: nat)
    requires S.OnePlace(s)
    ensures S.Places(s, id) <= 1
    ensures id in s.responding ==> id !in s.bridge.queue && id !in s.bridge.running && s.responding[id] == 1
  {
  }

  lemma SendRefines(s: S.Sys, h: C.Host, ui: S.Thread, withCallback: bool)
    requires Agree(s, h, ui) && S.Enabled(s, S.Send(ui)) && C.LuaMayRun(h)
    ensures var c := if s.bridge.worker.Gone? then C.Refuse(true) else C.Submit(withCallback);
            Agree(S.Apply(s, S.Send(ui)), C.Apply(h, c), ui)
  {
    var id, t := h.nextId, S.Apply(s, S.Send(ui));
    assert forall x :: x in t.bridge.queue <==> x in s.bridge.queue || (x == id && !s.bridge.worker.Gone?);
  }

  lemma WorkerRefines(s: S.Sys, step: S.Step, h: C.Host, ui: S.Thread)
    requires Agree(s, h, ui) && S.Enabled(s, step) && (step.Receive? || step.Complete?)
    ensures Agree(S.Apply(s, step), h, ui)
  {
    if step.Receive? { assert s.bridge.queue == [s.bridge.queue[0]] + s.bridge.queue[1..]; }
    assert forall id :: Unanswered(S.Apply(s, step), id) <==> Unanswered(s, id);
  }

  lemma RespondRefines(s: S.Sys, id: nat, h: C.Host, ui: S.Thread)
    requires S.OnePlace(s) && Agree(s, h, ui) && S.Enabled(s, S.Respond(id))
    ensures C.Enabled(h, C.Respond(id)) && Agree(S.Apply(s, S.Respond(id)), C.Apply(h, C.Respond(id)), ui)
  {
    PlaceOf(s, id);
    assert forall x :: Unanswered(S.Apply(s, S.Respond(id)), x) <==> x != id && Unanswered(s, x);
  }

  lemma SilentRefines(s: S.Sys, step: S.Step, h: C.Host, ui: S.Thread)
    requires S.Inv(s.bridge) && Agree(s, h, ui) && S.Enabled(s, step) && OnlyUi(step, ui)
    requires !step.Send? && !step.Receive? && !step.Complete? && !step.Respond?
    ensures Agree(S.Apply(s, step), h, ui)
  {
    assert forall id :: Unanswered(S.Apply(s, step), id) <==> Unanswered(s, id);
  }

  // ---------------------------------------------------------------------------
  // Both machines together.

  /** An atomic step of the bridge, or a step of the UI thread that the bridge has no part in. */
  datatype Step = Bridge(atomic: S.Step, withCallback: bool) | Ui(own: C.Step)

  datatype Both = Both(s: S.Sys, h: C.Host)

  predicate Enabled(b: Both, step: Step, ui: S.Thread) {
    match step
    case Bridge(atomic, _) => S.Enabled(b.s, atomic) && OnlyUi(atomic, ui) && (atomic.Send? ==> C.LuaMayRun(b.h))
    case Ui(own) => !own.Submit? && !own.Refuse? && !own.Respond? && C.Enabled(b.h, own)
  }

  function HostSteps(s: S.Sys, step: Step): seq<C.Step> {
    match step
    case Bridge(atomic, withCallback) => Seen(s, atomic, withCallback)
    case Ui(own) => [own]
  }

  function BridgeAfter(s: S.Sys, step: Step): S.Sys
    requires step.Bridge? ==> S.Enabled(s, step.atomic)
  {
    if step.Bridge? then S.Apply(s, step.atomic) else s
  }

  ghost predicate Linked(b: Both, ui: S.Thread) { S.Inv(b.s.bridge) && S.OnePlace(b.s) && Agree(b.s, b.h, ui) }

  lemma AtomicSafe(s: S.Sys, atomic: S.Step)
    requires S.Inv(s.bridge) && S.OnePlace(s) && S.Enabled(s, atomic)
    ensures S.Inv(S.Apply(s, atomic).bridge) && S.OnePlace(S.Apply(s, atomic))
  {
    assert S.Run(s, [atomic]) == S.Run(S.Apply(s, atomic), []);
    S.RunKeepsInv(s, [atomic]);
    S.RunKeepsOnePlace(s, [atomic]);
  }

  lemma OneStepRun(h: C.Host, c: C.Step)
    requires C.Enabled(h, c)
    ensures C.ValidRun(h, [c]) && C.Run(h, [c]) == C.Apply(h, c)
  {
    assert C.Run(C.Apply(h, c), []) == C.Apply(h, c);
  }

  /** Every atomic step of the bridge is a step of the callback protocol, or none. */
  lemma StepRefines(b: Both, step: Step, ui: S.Thread)
    requires Linked(b, ui) && Enabled(b, step, ui)
    ensures C.ValidRun(b.h, HostSteps(b.s, step))
    ensures Linked(Both(BridgeAfter(b.s, step), C.Run(b.h, HostSteps(b.s, step))), ui)
  {
    match step {
      case Ui(own) =>
        OneStepRun(b.h, own);
        assert Agree(b.s, C.Apply(b.h, own), ui);
      case Bridge(atomic, withCallback) =>
        AtomicSafe(b.s, atomic);
        AtomicRefines(b.s, atomic, b.h, ui, withCallback);
    }
  }

  lemma AtomicRefines(s: S.Sys, atomic: S.Step, h: C.Host, ui: S.Thread, withCallback: bool)
    requires S.Inv(s.bridge) && S.OnePlace(s) && Agree(s, h, ui)
    requires S.Enabled(s, atomic) && OnlyUi(atomic, ui) && (atomic.Send? ==> C.LuaMayRun(h))
    ensures C.ValidRun(h, Seen(s, atomic, withCallback))
    ensures Agree(S.Apply(s, atomic), C.Run(h, Seen(s, atomic, withCallback)), ui)
  {
    match atomic {
      case Send(_) =>
        SendRefines(s, h, ui, withCallback);
        OneStepRun(h, if s.bridge.worker.Gone? then C.Refuse(true) else C.Submit(withCallback));
      case Respond(id) =>
        RespondRefines(s, id, h, ui);
        OneStepRun(h, C.Respond(id));
      case Receive => WorkerRefines(s, atomic, h, ui);
      case Complete(_) => WorkerRefines(s, atomic, h, ui);
      case _ => SilentRefines(s, atomic, h, ui);
    }
  }

  ghost function After(b: Both, step: Step, ui: S.Thread): (t: Both)
    requires Linked(b, ui) && Enabled(b, step, ui)
    ensures Linked(t, ui)
  {
    StepRefines(b, step, ui);
    Both(BridgeAfter(b.s, step), C.Run(b.h, HostSteps(b.s, step)))
  }

  ghost predicate ValidRun(b: Both, steps: seq<Step>, ui: S.Thread)
    requires Linked(b, ui)
    decreases |steps|
  {
    steps == [] || (Enabled(b, steps[0], ui) && ValidRun(After(b, steps[0], ui), steps[1..], ui))
  }

  ghost function Run(b: Both, steps: seq<Step>, ui: S.Thread): Both
    requires Linked(b, ui) && ValidRun(b, steps, ui)
    decreases |steps|
  {
    if steps == [] then b else Run(After(b, steps[0], ui), steps[1..], ui)
  }

  /** What the callback protocol sees of a joint run. */
  ghost function Trace(b: Both, steps: seq<Step>, ui: S.Thread): seq<C.Step>
    requires Linked(b, ui) && ValidRun(b, steps, ui)
    decreases |steps|
  {
    if steps == [] then [] else HostSteps(b.s, steps[0]) + Trace(After(b, steps[0], ui), steps[1..], ui)
  }

  lemma {:induction false} HostRunAppend(h: C.Host, a: seq<C.Step>, rest: seq<C.Step>)
    requires C.ValidRun(h, a) && C.ValidRun(C.Run(h, a), rest)
    ensures C.ValidRun(h, a + rest) && C.Run(h, a + rest) == C.Run(C.Run(h, a), rest)
    decreases |a|
  {
    if a == [] {
      assert a + rest == rest;
    } else {
      assert (a + rest)[1..] == a[1..] + rest;
      HostRunAppend(C.Apply(h, a[0]), a[1..], rest);
    }
  }

  /** Every run of the bridge with the UI thread is a run of the callback protocol, over the same ids. So what
      `HttpCallbacks` proves over its runs holds for requests that went through the slots. */
  lemma {:induction false} RunRefines(b: Both, steps: seq<Step>, ui: S.Thread)
    requires Linked(b, ui) && ValidRun(b, steps, ui)
    ensures C.ValidRun(b.h, Trace(b, steps, ui)) && C.Run(b.h, Trace(b, steps, ui)) == Run(b, steps, ui).h
    ensures Linked(Run(b, steps, ui), ui)
    decreases |steps|
  {
    if steps != [] {
      var next := After(b, steps[0], ui);
      StepRefines(b, steps[0], ui);
      RunRefines(next, steps[1..], ui);
      HostRunAppend(b.h, HostSteps(b.s, steps[0]), Trace(next, steps[1..], ui));
    }
  }

  const START: Both := Both(S.Sys(S.SPAWNED, multiset{}), C.FRESH)

  lemma StartLinked(ui: S.Thread)
    ensures Linked(START, ui)
  {
    forall id: nat ensures S.Places(START.s, id) == 0 { assert S.Holders(START.s.bridge, id) == {}; }
  }

  /** In particular, through the real bridge too, at most 16 requests are unfinished, no callback is called
      twice, and none is called by an answer to another script. */
  lemma BridgedCallsAtMostOnceAndOwn(steps: seq<Step>, ui: S.Thread)
    requires Linked(START, ui) ==> ValidRun(START, steps, ui)
    ensures Linked(START, ui)
    ensures var b := Run(START, steps, ui);
            && S.Accepted(b.s.bridge) <= 16
            && (forall i, j :: 0 <= i < j < |b.h.calls| ==> b.h.calls[i].id != b.h.calls[j].id)
            && (forall c :: c in b.h.calls ==> C.OwnCall(b.h, c))
  {
    StartLinked(ui);
    RunRefines(START, steps, ui);
    C.CallsAtMostOnceAndOwn(Trace(START, steps, ui));
  }
}
