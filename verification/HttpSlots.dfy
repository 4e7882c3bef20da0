/** The in-flight cap of the HTTP bridge (crates/sni-lua-api/src/runtime.rs): any number of submitters,
    interleaved at every atomic step with each other and with the worker. */
module HttpSlots {
  import opened Types

  const HTTP_MAX_IN_FLIGHT: nat := 16

  datatype Worker = Starting | Serving | Gone

  type Thread = nat

  /** `inFlight` is the atomic counter. A submitter is in at most one of the four sets: it got a slot, got an
      id too, was refused a slot it must give back, or could not send and must give its slot back. */
  datatype Bridge = Bridge(
    inFlight: int, nextId: nat,
    holding: set<Thread>, numbered: map<Thread, nat>, refused: set<Thread>, releasing: set<Thread>,
    worker: Worker, queue: seq<nat>, running: multiset<nat>, responses: seq<nat>)

  const SPAWNED: Bridge := Bridge(0, 1, {}, map[], {}, {}, Starting, [], multiset{}, [])

  datatype Step =
    | Reserve(t: Thread)   // fetch_add, and the test of what it returned
    | BackOut(t: Thread)   // fetch_sub of a refused slot
    | AssignId(t: Thread)
    | Send(t: Thread)      // into the channel, or not if the worker is gone
    | Release(t: Thread)   // fetch_sub after a failed send
    | WorkerStarts
    | WorkerFails
    | Receive              // the worker takes a request and starts executing it
    | Complete(id: nat)    // fetch_sub when its execution ends
    | Respond(id: nat)

  predicate Outside(b: Bridge, t: Thread) {
    t !in b.holding && t !in b.numbered && t !in b.refused && t !in b.releasing
  }

  /** `responding` holds requests that gave their slot back and whose response is still to be sent. */
  datatype Sys = Sys(bridge: Bridge, responding: multiset<nat>)

  predicate Enabled(s: Sys, step: Step) {
    var b := s.bridge;
    match step
    case Reserve(t) => Outside(b, t)
    case BackOut(t) => t in b.refused
    case AssignId(t) => t in b.holding
    case Send(t) => t in b.numbered
    case Release(t) => t in b.releasing
    case WorkerStarts => b.worker.Starting?
    case WorkerFails => b.worker.Starting?
    case Receive => b.worker.Serving? && b.queue != []
    case Complete(id) => id in b.running
    case Respond(id) => id in s.responding
  }

  function Apply(s: Sys, step: Step): Sys
    requires Enabled(s, step)
  {
    var b := s.bridge;
    match step
    case Reserve(t) =>
      s.(bridge := if b.inFlight >= HTTP_MAX_IN_FLIGHT then b.(inFlight := b.inFlight + 1, refused := b.refused + {t})
                   else b.(inFlight := b.inFlight + 1, holding := b.holding + {t}))
    case BackOut(t) => s.(bridge := b.(inFlight := b.inFlight - 1, refused := b.refused - {t}))
    case AssignId(t) =>
      s.(bridge := b.(holding := b.holding - {t}, numbered := b.numbered[t := b.nextId], nextId := b.nextId + 1))
    case Send(t) =>
      s.(bridge := if b.worker.Gone? then b.(numbered := b.numbered - {t}, releasing := b.releasing + {t})
                   else b.(numbered := b.numbered - {t}, queue := b.queue + [b.numbered[t]]))
    case Release(t) => s.(bridge := b.(inFlight := b.inFlight - 1, releasing := b.releasing - {t}))
    case WorkerStarts => s.(bridge := b.(worker := Serving))
    case WorkerFails => s.(bridge := b.(worker := Gone))
    case Receive => s.(bridge := b.(queue := b.queue[1..], running := b.running + multiset{b.queue[0]}))
    case Complete(id) =>
      Sys(b.(inFlight := b.inFlight - 1, running := b.running - multiset{id}), s.responding + multiset{id})
    case Respond(id) => Sys(b.(responses := b.responses + [id]), s.responding - multiset{id})
  }

  /** Accepted and not finished: queued (for good, if the worker failed) or running. */
  function Accepted(b: Bridge): nat { |b.queue| + |b.running| }

  /** Slots granted to submitters that have yet to send or to give them back. */
  function Granted(b: Bridge): nat { |b.holding| + |b.numbered| + |b.releasing| }

  predicate Inv(b: Bridge) {
    && b.holding !! b.refused && b.holding !! b.releasing && b.refused !! b.releasing
    && b.numbered.Keys !! b.holding && b.numbered.Keys !! b.refused && b.numbered.Keys !! b.releasing
    && b.inFlight == Accepted(b) + Granted(b) + |b.refused|
    && Accepted(b) + Granted(b) <= HTTP_MAX_IN_FLIGHT
  }

  lemma NumberedCard(m: map<Thread, nat>, t: Thread, id: nat)
    ensures t !in m ==> |m[t := id]| == |m| + 1
    ensures t in m ==> |m - {t}| == |m| - 1
  {
    if t !in m {
      assert m[t := id].Keys == m.Keys + {t};
      assert |m[t := id].Keys| == |m.Keys| + 1;
    } else {
      assert (m - {t}).Keys == m.Keys - {t};
    }
  }

  lemma ReserveKeepsInv(s: Sys, t: Thread)
    requires Inv(s.bridge) && Enabled(s, Reserve(t))
    ensures Inv(Apply(s, Reserve(t)).bridge)
  {
  }

  lemma GiveBackKeepsInv(s: Sys, step: Step)
    requires Inv(s.bridge) && Enabled(s, step) && (step.BackOut? || step.Release?)
    ensures Inv(Apply(s, step).bridge)
  {
  }

  lemma AssignKeepsInv(s: Sys, t: Thread)
    requires Inv(s.bridge) && Enabled(s, AssignId(t))
    ensures Inv(Apply(s, AssignId(t)).bridge)
  {
    NumberedCard(s.bridge.numbered, t, s.bridge.nextId);
  }

  lemma SendKeepsInv(s: Sys, t: Thread)
    requires Inv(s.bridge) && Enabled(s, Send(t))
    ensures Inv(Apply(s, Send(t)).bridge)
  {
    var b, c := s.bridge, Apply(s, Send(t)).bridge;
    NumberedCard(b.numbered, t, 0);
    assert c.numbered.Keys == b.numbered.Keys - {t};
    assert |c.releasing| + |c.queue| == |b.releasing| + |b.queue| + 1;
  }

  lemma WorkerKeepsInv(s: Sys, step: Step)
    requires Inv(s.bridge) && Enabled(s, step)
    requires step.WorkerStarts? || step.WorkerFails? || step.Receive? || step.Complete? || step.Respond?
    ensures Inv(Apply(s, step).bridge)
  {
  }

  predicate ValidRun(s: Sys, steps: seq<Step>)
    decreases |steps|
  {
    steps == [] || (Enabled(s, steps[0]) && ValidRun(Apply(s, steps[0]), steps[1..]))
  }

  function Run(s: Sys, steps: seq<Step>): Sys
    requires ValidRun(s, steps)
    decreases |steps|
  {
    if steps == [] then s else Run(Apply(s, steps[0]), steps[1..])
  }

  lemma {:induction false} RunKeepsInv(s: Sys, steps: seq<Step>)
    requires Inv(s.bridge) && ValidRun(s, steps)
    ensures Inv(Run(s, steps).bridge)
    decreases |steps|
  {
    if steps != [] {
      var step := steps[0];
      match step {
        case Reserve(t) => ReserveKeepsInv(s, t);
        case BackOut(_) => GiveBackKeepsInv(s, step);
        case AssignId(t) => AssignKeepsInv(s, t);
        case Release(_) => GiveBackKeepsInv(s, step);
        case Send(t) => SendKeepsInv(s, t);
        case _ => WorkerKeepsInv(s, step);
      }
      RunKeepsInv(Apply(s, step), steps[1..]);
    }
  }

  /** In every interleaving at most 16 accepted requests are unfinished, and the counter is exactly those plus
      the reservations still being turned into a request or given back; so it never drops below zero. */
  lemma CapHolds(steps: seq<Step>)
    requires ValidRun(Sys(SPAWNED, multiset{}), steps)
    ensures var b := Run(Sys(SPAWNED, multiset{}), steps).bridge;
            && Accepted(b) <= 16
            && b.inFlight == Accepted(b) + Granted(b) + |b.refused|
            && b.inFlight >= 0
  {
    RunKeepsInv(Sys(SPAWNED, multiset{}), steps);
  }

  /** A reservation is refused exactly when 16 slots are taken: by accepted requests, by submitters on their way, or by
      refused ones that have yet to give theirs back. */
  lemma RefusedIffFull(steps: seq<Step>, t: Thread)
    requires ValidRun(Sys(SPAWNED, multiset{}), steps)
    requires Enabled(Run(Sys(SPAWNED, multiset{}), steps), Reserve(t))
    ensures var s := Run(Sys(SPAWNED, multiset{}), steps);
            var b := s.bridge;
            t in Apply(s, Reserve(t)).bridge.refused
            <==> |b.queue| + |b.running| + |b.holding| + |b.numbered| + |b.releasing| + |b.refused| >= 16
  {
    RunKeepsInv(Sys(SPAWNED, multiset{}), steps);
  }

  // ---------------------------------------------------------------------------
  // Ids.

  function Holders(b: Bridge, id: nat): set<Thread> { set t | t in b.numbered && b.numbered[t] == id }

  /** How often `id` occurs: with a submitter, queued, running, finished, or answered. */
  function Places(s: Sys, id: nat): nat {
    |Holders(s.bridge, id)| + multiset(s.bridge.queue)[id] + s.bridge.running[id] + s.responding[id]
    + multiset(s.bridge.responses)[id]
  }

  /** Every id is in one place at most, and the next one in none. */
  ghost predicate OnePlace(s: Sys) { forall id: nat :: Places(s, id) <= if id < s.bridge.nextId then 1 else 0 }

  lemma HoldersAssign(b: Bridge, t: Thread, id: nat, at: nat)
    requires t !in b.numbered
    ensures |Holders(b.(numbered := b.numbered[t := at]), id)| == |Holders(b, id)| + if id == at then 1 else 0
  {
    var after := Holders(b.(numbered := b.numbered[t := at]), id);
    assert after == if id == at then Holders(b, id) + {t} else Holders(b, id);
  }

  lemma HoldersSend(b: Bridge, t: Thread, id: nat)
    requires t in b.numbered
    ensures |Holders(b.(numbered := b.numbered - {t}), id)| == |Holders(b, id)| - if id == b.numbered[t] then 1 else 0
  {
    var after := Holders(b.(numbered := b.numbered - {t}), id);
    assert after == if id == b.numbered[t] then Holders(b, id) - {t} else Holders(b, id);
  }

  lemma SameHolders(b: Bridge, c: Bridge, id: nat)
    requires c.numbered == b.numbered
    ensures Holders(c, id) == Holders(b, id)
  {
  }

  /** Ids only move on; the one new id is the next one, and it goes to one submitter. */
  lemma PlacesStep(s: Sys, step: Step, id: nat)
    requires Inv(s.bridge) && Enabled(s, step)
    ensures Places(Apply(s, step), id) <= Places(s, id) + if step.AssignId? && id == s.bridge.nextId then 1 else 0
  {
    match step {
      case AssignId(t) => AssignPlaces(s, t, id);
      case Send(t) => SendPlaces(s, t, id);
      case Receive => ReceivePlaces(s, id);
      case Complete(_) => FinishPlaces(s, step, id);
      case Respond(_) => FinishPlaces(s, step, id);
      case _ => SamePlaces(s, step, id);
    }
  }

  lemma SamePlaces(s: Sys, step: Step, id: nat)
    requires Enabled(s, step)
    requires step.Reserve? || step.BackOut? || step.Release? || step.WorkerStarts? || step.WorkerFails?
    ensures Places(Apply(s, step), id) == Places(s, id)
  {
    SameHolders(s.bridge, Apply(s, step).bridge, id);
  }

  lemma ReceivePlaces(s: Sys, id: nat)
    requires Enabled(s, Receive)
    ensures Places(Apply(s, Receive), id) == Places(s, id)
  {
    var b := s.bridge;
    SameHolders(b, Apply(s, Receive).bridge, id);
    assert multiset(b.queue) == multiset{b.queue[0]} + multiset(b.queue[1..]) by {
      assert b.queue == [b.queue[0]] + b.queue[1..];
    }
  }

  lemma FinishPlaces(s: Sys, step: Step, id: nat)
    requires Enabled(s, step) && (step.Complete? || step.Respond?)
    ensures Places(Apply(s, step), id) == Places(s, id)
  {
    SameHolders(s.bridge, Apply(s, step).bridge, id);
  }

  lemma AssignPlaces(s: Sys, t: Thread, id: nat)
    requires Inv(s.bridge) && Enabled(s, AssignId(t))
    ensures Places(Apply(s, AssignId(t)), id) == Places(s, id) + if id == s.bridge.nextId then 1 else 0
  {
    var b, c := s.bridge, Apply(s, AssignId(t)).bridge;
    HoldersAssign(b, t, id, b.nextId);
    SameHolders(b.(numbered := c.numbered), c, id);
  }

  lemma SendPlaces(s: Sys, t: Thread, id: nat)
    requires Enabled(s, Send(t))
    ensures Places(Apply(s, Send(t)), id) <= Places(s, id)
  {
    var b, c := s.bridge, Apply(s, Send(t)).bridge;
    HoldersSend(b, t, id);
    SameHolders(b.(numbered := c.numbered), c, id);
  }

  lemma {:induction false} RunKeepsOnePlace(s: Sys, steps: seq<Step>)
    requires Inv(s.bridge) && OnePlace(s) && ValidRun(s, steps)
    ensures OnePlace(Run(s, steps))
    decreases |steps|
  {
    if steps != [] {
      var t := Apply(s, steps[0]);
      forall id: nat ensures Places(t, id) <= if id < t.bridge.nextId then 1 else 0 { PlacesStep(s, steps[0], id); }
      RunKeepsInv(s, [steps[0]]);
      assert Run(s, [steps[0]]) == Run(t, []);
      RunKeepsOnePlace(t, steps[1..]);
    }
  }

  /** In every interleaving an id names one request: it is with one submitter, queued, running, finished or
      answered, never two of these and never twice. So every request is answered at most once. */
  lemma IdsInOnePlace(steps: seq<Step>, id: nat)
    requires ValidRun(Sys(SPAWNED, multiset{}), steps)
    ensures var s := Run(Sys(SPAWNED, multiset{}), steps);
            Places(s, id) <= 1 && (id >= s.bridge.nextId ==> Places(s, id) == 0)
  {
    var init := Sys(SPAWNED, multiset{});
    forall id: nat ensures Places(init, id) == 0 { assert Holders(init.bridge, id) == {}; }
    RunKeepsOnePlace(init, steps);
  }

  // ---------------------------------------------------------------------------
  // `submit` as one call.

  datatype Outcome = Outcome(inFlight: int, nextId: nat, queue: seq<nat>, id: Option<nat>)

  /** Refused at the cap without a trace; refused by a dead worker with the slot given back but the id used up;
      otherwise one slot, one fresh id and one queued request. */
  function Submitted(inFlight: int, nextId: nat, queue: seq<nat>, workerGone: bool): Outcome {
    if inFlight >= HTTP_MAX_IN_FLIGHT then Outcome(inFlight, nextId, queue, None)
    else if workerGone then Outcome(inFlight, nextId + 1, queue, None)
    else Outcome(inFlight + 1, nextId + 1, queue + [nextId], Some(nextId))
  }

  /** The atomic steps of one `submit` by thread `t`. */
  function SubmitSteps(b: Bridge, t: Thread): seq<Step> {
    if b.inFlight >= HTTP_MAX_IN_FLIGHT then [Reserve(t), BackOut(t)]
    else if b.worker.Gone? then [Reserve(t), AssignId(t), Send(t), Release(t)]
    else [Reserve(t), AssignId(t), Send(t)]
  }

  lemma RunStep(s: Sys, steps: seq<Step>, step: Step)
    requires Enabled(s, step) && ValidRun(Apply(s, step), steps)
    ensures ValidRun(s, [step] + steps) && Run(s, [step] + steps) == Run(Apply(s, step), steps)
  {
    assert ([step] + steps)[1..] == steps;
  }

  /** Uninterrupted, the atomic steps of a submission have exactly the outcome of the call. */
  lemma SubmitIsItsSteps(s: Sys, t: Thread)
    requires Outside(s.bridge, t)
    ensures ValidRun(s, SubmitSteps(s.bridge, t))
    ensures var o := Submitted(s.bridge.inFlight, s.bridge.nextId, s.bridge.queue, s.bridge.worker.Gone?);
            Run(s, SubmitSteps(s.bridge, t))
            == s.(bridge := s.bridge.(inFlight := o.inFlight, nextId := o.nextId, queue := o.queue))
  {
    var b := s.bridge;
    var s1 := Apply(s, Reserve(t));
    if b.inFlight >= HTTP_MAX_IN_FLIGHT {
      assert (b.refused + {t}) - {t} == b.refused;
      RunStep(s1, [], BackOut(t));
      RunStep(s, [BackOut(t)], Reserve(t));
    } else {
      AcceptedSteps(s, t);
    }
  }

  lemma Numbered(s: Sys, t: Thread)
    requires Outside(s.bridge, t) && s.bridge.inFlight < HTTP_MAX_IN_FLIGHT
    ensures Apply(Apply(s, Reserve(t)), AssignId(t))
         == s.(bridge := s.bridge.(inFlight := s.bridge.inFlight + 1, nextId := s.bridge.nextId + 1,
                                   numbered := s.bridge.numbered[t := s.bridge.nextId]))
  {
    assert (s.bridge.holding + {t}) - {t} == s.bridge.holding;
  }

  lemma AcceptedSteps(s: Sys, t: Thread)
    requires Outside(s.bridge, t) && s.bridge.inFlight < HTTP_MAX_IN_FLIGHT
    ensures ValidRun(s, SubmitSteps(s.bridge, t))
    ensures var o := Submitted(s.bridge.inFlight, s.bridge.nextId, s.bridge.queue, s.bridge.worker.Gone?);
            Run(s, SubmitSteps(s.bridge, t))
            == s.(bridge := s.bridge.(inFlight := o.inFlight, nextId := o.nextId, queue := o.queue))
  {
    var b := s.bridge;
    var s1 := Apply(s, Reserve(t));
    var s2 := Apply(s1, AssignId(t));
    Numbered(s, t);
    assert b.numbered[t := b.nextId] - {t} == b.numbered;
    if b.worker.Gone? {
      assert (b.releasing + {t}) - {t} == b.releasing;
      RunStep(Apply(s2, Send(t)), [], Release(t));
      RunStep(s2, [Release(t)], Send(t));
      RunStep(s1, [Send(t), Release(t)], AssignId(t));
      RunStep(s, [AssignId(t), Send(t), Release(t)], Reserve(t));
    } else {
      RunStep(s2, [], Send(t));
      RunStep(s1, [Send(t)], AssignId(t));
      RunStep(s, [AssignId(t), Send(t)], Reserve(t));
    }
  }

  /** The bridge object, for a submitter nobody interrupts. */
  class HttpBridge {
    var inFlight: nat
    var nextId: nat
    var workerGone: bool
    var queue: seq<nat>

    constructor ()
      ensures inFlight == 0 && nextId == 1 && !workerGone && queue == []
    {
      inFlight, nextId, workerGone, queue := 0, 1, false, [];
    }

    /** `submit`. */
    method Submit() returns (id: Option<nat>)
      modifies this`inFlight, this`nextId, this`queue
      ensures Outcome(inFlight, nextId, queue, id)
           == Submitted(old(inFlight), old(nextId), old(queue), workerGone)
      ensures id.None? <==> old(inFlight) >= 16 || workerGone
      ensures id.Some? ==> id.value == old(nextId) && queue == old(queue) + [id.value] && inFlight == old(inFlight) + 1
      ensures id.None? ==> inFlight == old(inFlight) && queue == old(queue)
      ensures nextId == old(nextId) + (if old(inFlight) >= 16 then 0 else 1)
      ensures old(inFlight) <= HTTP_MAX_IN_FLIGHT ==> inFlight <= HTTP_MAX_IN_FLIGHT
    {
      var prev := inFlight;
      inFlight := inFlight + 1;
      if prev >= HTTP_MAX_IN_FLIGHT {
        inFlight := inFlight - 1;
        return None;
      }
      var mine := nextId;
      nextId := nextId + 1;
      if workerGone {
        inFlight := inFlight - 1;
        return None;
      }
      queue := queue + [mine];
      return Some(mine);
    }
  }
}
