/** Tying late responses to script callbacks across reloads (crates/sni-lua-api/src/lib.rs). The UI thread
    submits, stashes, pumps and reloads; the worker answers at any moment in between. */
module HttpCallbacks {
  import opened Types

  /** `pump_http`: first the channel is emptied into a local list, then that list is delivered. */
  datatype Ui = Quiet | Draining(drained: seq<nat>) | Delivering(left: seq<nat>)

  /** A callback call: the request it answers, the script the callback belongs to, the script running. */
  datatype Call = Call(id: nat, owner: nat, during: nat)

  datatype Host = Host(
    generation: nat,                // counts reloads: each is a new Lua VM
    nextId: nat,
    stashing: Option<nat>,          // submitted, callback not stashed yet
    pending: map<nat, nat>,         // request id -> generation of its callback
    outstanding: set<nat>,          // sent, not answered
    responses: seq<nat>,            // the response channel
    ui: Ui,
    submittedIn: map<nat, nat>,     // history: generation each request was submitted in
    calls: seq<Call>,               // history: callbacks called
    failed: set<nat>)               // history: callbacks lost to a VM failure

  const FRESH: Host := Host(0, 1, None, map[], {}, [], Quiet, map[], [], {})

  datatype Step =
    | Submit(withCallback: bool)
    | Refuse(usesId: bool)          // at the cap, or with the worker gone
    | Stash(stored: bool)
    | Respond(id: nat)              // by the worker
    | PumpStart
    | DrainOne
    | DrainEnd
    | Deliver(vmOk: bool)
    | PumpEnd
    | Reload

  /** Lua runs between pumps, and inside the callbacks a pump is delivering. */
  predicate LuaMayRun(h: Host) { h.stashing.None? && !h.ui.Draining? }

  predicate Enabled(h: Host, step: Step) {
    match step
    case Submit(_) => LuaMayRun(h)
    case Refuse(_) => LuaMayRun(h)
    case Stash(_) => h.stashing.Some?
    case Respond(id) => id in h.outstanding
    case PumpStart => h.ui.Quiet? && h.stashing.None?
    case DrainOne => h.ui.Draining? && h.responses != []
    case DrainEnd => h.ui.Draining? && h.responses == []
    case Deliver(_) => h.ui.Delivering? && h.ui.left != [] && h.stashing.None?
    case PumpEnd => h.ui.Delivering? && h.ui.left == [] && h.stashing.None?
    case Reload => h.ui.Quiet? && h.stashing.None?
  }

  function Delivered(h: Host, vmOk: bool): Host
    requires h.ui.Delivering? && h.ui.left != []
  {
    var id := h.ui.left[0];
    var h' := h.(ui := Delivering(h.ui.left[1..]), pending := h.pending - {id});
    if id !in h.pending then h'
    else if vmOk then h'.(calls := h.calls + [Call(id, h.pending[id], h.generation)])
    else h'.(failed := h.failed + {id})
  }

  function Apply(h: Host, step: Step): Host
    requires Enabled(h, step)
  {
    match step
    case Submit(withCallback) =>
      h.(nextId := h.nextId + 1, outstanding := h.outstanding + {h.nextId},
         submittedIn := h.submittedIn[h.nextId := h.generation],
         stashing := if withCallback then Some(h.nextId) else None)
    case Refuse(usesId) => h.(nextId := h.nextId + (if usesId then 1 else 0))
    case Stash(stored) =>
      h.(stashing := None, pending := if stored then h.pending[h.stashing.value := h.generation] else h.pending)
    case Respond(id) => h.(outstanding := h.outstanding - {id}, responses := h.responses + [id])
    case PumpStart => h.(ui := Draining([]))
    case DrainOne => h.(ui := Draining(h.ui.drained + [h.responses[0]]), responses := h.responses[1..])
    case DrainEnd => h.(ui := Delivering(h.ui.drained))
    case Deliver(vmOk) => Delivered(h, vmOk)
    case PumpEnd => h.(ui := Quiet)
    case Reload => h.(generation := h.generation + 1, pending := map[])
  }

  predicate ValidRun(h: Host, steps: seq<Step>)
    decreases |steps|
  {
    steps == [] || (Enabled(h, steps[0]) && ValidRun(Apply(h, steps[0]), steps[1..]))
  }

  function Run(h: Host, steps: seq<Step>): Host
    requires ValidRun(h, steps)
    decreases |steps|
  {
    if steps == [] then h else Run(Apply(h, steps[0]), steps[1..])
  }

  // ---------------------------------------------------------------------------
  // Invariant.

  /** Answered requests whose response the host has not looked at, in arrival order. */
  function InTransit(h: Host): seq<nat> {
    (match h.ui case Quiet => [] case Draining(d) => d case Delivering(l) => l) + h.responses
  }

  predicate NoDuplicates(s: seq<nat>) { forall i, j :: 0 <= i < j < |s| ==> s[i] != s[j] }

  /** Each request is unanswered, in transit (once), or dealt with. */
  predicate OneResponseEach(h: Host) {
    && NoDuplicates(InTransit(h))
    && (forall id :: id in InTransit(h) ==> id < h.nextId && id !in h.outstanding)
    && (forall id :: id in h.outstanding ==> id < h.nextId)
  }

  predicate Unanswered(h: Host, id: nat) { id in h.outstanding || id in InTransit(h) }

  predicate PendingOk(h: Host) {
    && (forall id :: id in h.pending ==>
          id in h.submittedIn && h.pending[id] == h.generation == h.submittedIn[id] && Unanswered(h, id))
    && (h.stashing.Some? ==>
          var id := h.stashing.value;
          id in h.submittedIn && h.submittedIn[id] == h.generation && id !in h.pending && Unanswered(h, id))
    && (forall id :: id in h.submittedIn ==> id < h.nextId)
  }

  predicate CallsOk(h: Host) {
    && (forall i :: 0 <= i < |h.calls| ==>
          var c := h.calls[i];
          c.owner == c.during && c.id in h.submittedIn && h.submittedIn[c.id] == c.during && !Unanswered(h, c.id))
    && (forall i, j :: 0 <= i < j < |h.calls| ==> h.calls[i].id != h.calls[j].id)
  }

  predicate Inv(h: Host) { OneResponseEach(h) && PendingOk(h) && CallsOk(h) }

  lemma SubmitKeepsInv(h: Host, withCallback: bool)
    requires Inv(h) && Enabled(h, Submit(withCallback))
    ensures Inv(Apply(h, Submit(withCallback)))
  {
    var t := Apply(h, Submit(withCallback));
    assert InTransit(t) == InTransit(h);
  }

  lemma RespondKeepsInv(h: Host, id: nat)
    requires Inv(h) && Enabled(h, Respond(id))
    ensures Inv(Apply(h, Respond(id)))
  {
    var t := Apply(h, Respond(id));
    assert InTransit(t) == InTransit(h) + [id];
    assert forall x :: Unanswered(t, x) <==> Unanswered(h, x);
  }

  lemma DrainKeepsInv(h: Host, step: Step)
    requires Inv(h) && Enabled(h, step) && (step.PumpStart? || step.DrainOne? || step.DrainEnd? || step.PumpEnd?)
    ensures Inv(Apply(h, step))
  {
    assert InTransit(Apply(h, step)) == InTransit(h);
  }

  lemma TailDistinct(x: nat, s: seq<nat>)
    requires NoDuplicates([x] + s)
    ensures NoDuplicates(s) && x !in s
    ensures forall y :: y != x ==> (y in [x] + s <==> y in s)
  {
    var all := [x] + s;
    forall i, j | 0 <= i < j < |s| ensures s[i] != s[j] { assert all[i + 1] != all[j + 1]; }
    forall j | 0 <= j < |s| ensures s[j] != x { assert all[0] != all[j + 1]; }
  }

  lemma DeliverTransit(h: Host, vmOk: bool)
    requires OneResponseEach(h) && Enabled(h, Deliver(vmOk))
    ensures var t := Apply(h, Deliver(vmOk));
            && OneResponseEach(t) && !Unanswered(t, h.ui.left[0])
            && (forall x :: x != h.ui.left[0] ==> (Unanswered(t, x) <==> Unanswered(h, x)))
            && Unanswered(h, h.ui.left[0])
  {
    var t := Apply(h, Deliver(vmOk));
    var id := h.ui.left[0];
    assert h.ui.left == [id] + h.ui.left[1..];
    assert InTransit(h) == [id] + InTransit(t);
    TailDistinct(id, InTransit(t));
    assert id in InTransit(h);
  }

  lemma DeliverKeepsInv(h: Host, vmOk: bool)
    requires Inv(h) && Enabled(h, Deliver(vmOk))
    ensures Inv(Apply(h, Deliver(vmOk)))
  {
    DeliverTransit(h, vmOk);
  }

  lemma OtherKeepsInv(h: Host, step: Step)
    requires Inv(h) && Enabled(h, step) && (step.Refuse? || step.Stash? || step.Reload?)
    ensures Inv(Apply(h, step))
  {
    assert InTransit(Apply(h, step)) == InTransit(h);
  }

  lemma StepKeepsInv(h: Host, step: Step)
    requires Inv(h) && Enabled(h, step)
    ensures Inv(Apply(h, step))
  {
    match step {
      case Submit(withCallback) => SubmitKeepsInv(h, withCallback);
      case Respond(id) => RespondKeepsInv(h, id);
      case Deliver(vmOk) => DeliverKeepsInv(h, vmOk);
      case Refuse(_) => OtherKeepsInv(h, step);
      case Stash(_) => OtherKeepsInv(h, step);
      case Reload => OtherKeepsInv(h, step);
      case _ => DrainKeepsInv(h, step);
    }
  }

  lemma {:induction false} RunKeepsInv(h: Host, steps: seq<Step>)
    requires Inv(h) && ValidRun(h, steps)
    ensures Inv(Run(h, steps))
    decreases |steps|
  {
    if steps != [] {
      StepKeepsInv(h, steps[0]);
      RunKeepsInv(Apply(h, steps[0]), steps[1..]);
    }
  }

  // ---------------------------------------------------------------------------
  // Delivery.

  /** The call happened while the very script that submitted the request was loaded. */
  predicate OwnCall(h: Host, c: Call) {
    c.owner == c.during && c.id in h.submittedIn && h.submittedIn[c.id] == c.during
  }

  /** Over every run with reloads: no request's callback is called twice, and no response to a request of one
      script ever calls a callback of another. */
  lemma CallsAtMostOnceAndOwn(steps: seq<Step>)
    requires ValidRun(FRESH, steps)
    ensures var h := Run(FRESH, steps);
            && (forall i, j :: 0 <= i < j < |h.calls| ==> h.calls[i].id != h.calls[j].id)
            && (forall c :: c in h.calls ==> OwnCall(h, c))
  {
    assert Inv(FRESH);
    RunKeepsInv(FRESH, steps);
  }

  predicate Called(h: Host, id: nat) { exists c :: c in h.calls && c.id == id }

  /** On its way to being called in the running pump. */
  predicate InPump(h: Host, id: nat) {
    id in h.pending &&
    match h.ui
    case Quiet => false
    case Draining(d) => id in d || id in h.responses
    case Delivering(l) => id in l
  }

  predicate Settled(h: Host, id: nat) { Called(h, id) || id in h.failed }

  lemma CallsGrow(h: Host, step: Step, id: nat)
    requires Enabled(h, step) && Settled(h, id)
    ensures Settled(Apply(h, step), id)
  {
    if Called(h, id) {
      var c :| c in h.calls && c.id == id;
      assert c in Apply(h, step).calls;
    }
  }

  lemma PumpStep(h: Host, step: Step, id: nat)
    requires Inv(h) && Enabled(h, step) && !step.PumpEnd? && InPump(h, id)
    ensures var t := Apply(h, step);
            InPump(t, id) || (step.Deliver? && (if step.vmOk then Called(t, id) else id in t.failed))
  {
    var t := Apply(h, step);
    if step.Deliver? && h.ui.left[0] == id {
      if step.vmOk { assert t.calls[|h.calls|] == Call(id, h.pending[id], h.generation); }
    } else if step.DrainOne? {
      assert h.responses == [h.responses[0]] + h.responses[1..];
    }
  }

  /** Every delivery of the run finds a working VM. */
  predicate VmOk(steps: seq<Step>) { forall i :: 0 <= i < |steps| ==> steps[i].Deliver? ==> steps[i].vmOk }

  predicate NoPumpEnd(steps: seq<Step>) { forall i :: 0 <= i < |steps| ==> !steps[i].PumpEnd? }

  lemma {:induction false} PumpRun(h: Host, steps: seq<Step>, id: nat)
    requires Inv(h) && ValidRun(h, steps) && NoPumpEnd(steps)
    requires InPump(h, id) || Settled(h, id)
    requires VmOk(steps) ==> InPump(h, id) || Called(h, id)
    ensures var t := Run(h, steps); InPump(t, id) || Settled(t, id)
    ensures var t := Run(h, steps); VmOk(steps) ==> InPump(t, id) || Called(t, id)
    decreases |steps|
  {
    if steps != [] {
      var step, rest := steps[0], steps[1..];
      var t := Apply(h, step);
      StepKeepsInv(h, step);
      if InPump(h, id) { PumpStep(h, step, id); } else { CallsGrow(h, step, id); }
      assert VmOk(steps) ==> VmOk(rest) && (step.Deliver? ==> step.vmOk) by { assert steps == [step] + rest; }
      if Called(h, id) { CallKept(h, step, id); }
      if !VmOk(steps) && VmOk(rest) {
        SettledRun(t, rest, id);
      } else {
        PumpRun(t, rest, id);
      }
    }
  }

  lemma CallKept(h: Host, step: Step, id: nat)
    requires Enabled(h, step) && Called(h, id)
    ensures Called(Apply(h, step), id)
  {
    var c :| c in h.calls && c.id == id;
    assert c in Apply(h, step).calls;
  }

  lemma {:induction false} SettledRun(h: Host, steps: seq<Step>, id: nat)
    requires Inv(h) && ValidRun(h, steps) && NoPumpEnd(steps)
    requires InPump(h, id) || Settled(h, id)
    ensures var t := Run(h, steps); InPump(t, id) || Settled(t, id)
    decreases |steps|
  {
    if steps != [] {
      StepKeepsInv(h, steps[0]);
      if InPump(h, id) { PumpStep(h, steps[0], id); } else { CallsGrow(h, steps[0], id); }
      SettledRun(Apply(h, steps[0]), steps[1..], id);
    }
  }

  /** A stashed callback whose response has arrived is called by the next pump, whatever the callbacks before
      it submit and whatever arrives meanwhile; only a failure of the Lua VM can lose it. */
  lemma CalledByNextPump(h: Host, steps: seq<Step>, id: nat)
    requires Inv(h) && h.ui.Quiet? && h.stashing.None? && id in h.pending && id in h.responses
    requires ValidRun(Apply(h, PumpStart), steps) && NoPumpEnd(steps)
    requires Enabled(Run(Apply(h, PumpStart), steps), PumpEnd)
    ensures var t := Run(Apply(h, PumpStart), steps);
            Settled(t, id) && (VmOk(steps) ==> Called(t, id))
  {
    StepKeepsInv(h, PumpStart);
    PumpRun(Apply(h, PumpStart), steps, id);
  }

  /** A response may arrive before the callback is stashed. */
  lemma ResponseMayComeFirst()
    ensures ValidRun(FRESH, [Submit(true), Respond(1)])
    ensures var h := Run(FRESH, [Submit(true), Respond(1)]); h.stashing == Some(1) && 1 in h.responses
  {
    var submitted := Apply(FRESH, Submit(true));
    RunStep(submitted, Respond(1), []);
    RunStep(FRESH, Submit(true), [Respond(1)]);
    assert Apply(submitted, Respond(1)).responses == [1];
  }

  lemma RunStep(h: Host, step: Step, steps: seq<Step>)
    requires Enabled(h, step) && ValidRun(Apply(h, step), steps)
    ensures ValidRun(h, [step] + steps) && Run(h, [step] + steps) == Run(Apply(h, step), steps)
  {
    assert ([step] + steps)[1..] == steps;
  }
}
