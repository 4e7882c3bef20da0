/** Starvation freedom of the bulk tier. */
module Starvation {
  import opened Types
  import opened Split
  import opened Select
  import opened Fulfil
  import opened Budget
  import opened Snapshots
  import opened Registry
  import opened Cycle
  import opened System
  import opened Drain
  import opened Invariant
  import opened EngineSteps
  import opened Properties

  /** The registered non-realtime watches. */
  function BulkWatches(v: Reg): set<WatchId> { set id | id in v.entries && BulkEntry(v, id) }

  /** Watches that can be served before another: the registered ones, and inside a cycle also those captured
      by it that have been removed or upgraded since. */
  function Pool(s: Sys): set<WatchId> {
    BulkWatches(s.reg) + (if InCycle(s.eng.phase) then Ids(s.eng.bulk) else {})
  }

  /** Those refreshed no later than `w`, among them `w` itself. */
  function NoLater(s: Sys, w: WatchId): set<WatchId> {
    set v | v in Pool(s) && Refresh(s.eng.readState, v) <= Refresh(s.eng.readState, w)
  }

  predicate Waiting(e: Engine, w: WatchId) { w in Ids(e.bulk) && Unfulfilled(e.requests, e.readState, w) }

  /** One while the cycle has already served a batch with `w` waiting, until it is published. */
  function Credit(s: Sys, w: WatchId): nat {
    if InCycle(s.eng.phase) && s.eng.readsIssued > 0 && Waiting(s.eng, w) then 1 else 0
  }

  /** Bulk watches registered since the cycle under way began. The collection at its end may drop their state,
      even if they were read, so each may go ahead of others once more. */
  function Recent(s: Sys): set<WatchId> {
    set v | v in BulkWatches(s.reg) && !s.eng.phase.Idle? && v !in s.eng.liveIds
  }

  function Rank(s: Sys, w: WatchId): nat { |NoLater(s, w)| + |Recent(s)| + Credit(s, w) }

  // ---------------------------------------------------------------------------
  // What the drain loop keeps beyond the general invariant.

  /** The batch in flight holds a watch refreshed no later than any waiting one. */
  predicate StalestFlight(e: Engine) {
    forall w :: w in WaitingSet(e) ==>
      exists m :: m in Ids(e.flight) && m in Ids(e.bulk) && Refresh(e.readState, m) <= Refresh(e.readState, w)
  }

  predicate DrainInv(s: Sys) {
    && (s.eng.phase.BulkInFlight? ==> StalestFlight(s.eng))
    && (s.eng.phase.Drained? && s.eng.readsIssued == 0 && s.eng.lastError != Some(BulkTier) ==> WaitingSet(s.eng) == {})
    && (s.eng.phase.RealtimeReady? || s.eng.phase.RealtimeInFlight? ==> s.eng.readsIssued == 0)
  }

  /** A waiting watch was not refreshed in this cycle. */
  lemma WaitingIsOld(s: Sys, w: WatchId)
    requires StateOk(s) && RefreshOk(s.eng) && s.eng.cycle > 0 && Unfulfilled(s.eng.requests, s.eng.readState, w)
    ensures Refresh(s.eng.readState, w) < s.eng.cycle
  {
  }

  lemma IssueStalest(s: Sys, elapsedMs: nat)
    requires StateOk(s) && InCycleOk(s) && s.eng.cycle > 0 && TurnAt(s.eng, elapsedMs).Issue?
    ensures StalestFlight(Turned(s.eng, elapsedMs))
  {
    var e := s.eng;
    var t := Turned(e, elapsedMs);
    var budget := IterBudget(e, elapsedMs).value;
    forall w | w in WaitingSet(t)
      ensures exists m :: m in Ids(t.flight) && m in Ids(t.bulk) && Refresh(t.readState, m) <= Refresh(t.readState, w)
    {
      WaitingIsOld(s, w);
      var m := StalestInBatch(e, budget, w);
      assert m in Ids(t.flight);
    }
  }

  lemma StalestInBatch(e: Engine, budget: nat, w: WatchId) returns (m: WatchId)
    requires Loopable(e) && w in WaitingSet(e) && Refresh(e.readState, w) < e.cycle
    ensures m in Ids(Batch(e, budget)) && m in Ids(e.bulk) && Refresh(e.readState, m) <= Refresh(e.readState, w)
  {
    var chunks := SplitReads(e.bulk, budget);
    var pending := PendingChunks(e, budget);
    var r, wm := ChunkOf(e, budget, w);
    assert IsPending(r, e.requests, e.readState, e.done);
    PendingReadsMember(chunks, e.requests, e.readState, e.done, r);
    forall q | q in pending ensures q.members != [] {
      PendingReadsMember(chunks, e.requests, e.readState, e.done, q);
    }
    var oldest := SelectedReachesOldest(pending, budget, e.readState, e.cycle, r, wm);
    m := oldest.id;
    assert Batch(e, budget)[0] in Batch(e, budget);
    BatchIds(e, budget);
  }

  // ---------------------------------------------------------------------------
  // Steps keep it.

  lemma StartDrainInv(s: Sys, cfg: PollConfig)
    ensures DrainInv(Apply(s, Start(cfg)))
  {
  }

  lemma BulkTurnDrainInv(dev: Device, s: Sys, elapsedMs: nat)
    requires Inv(dev, s) && s.eng.phase.Draining? && DrainInv(s)
    ensures DrainInv(Apply(s, BulkTurn(elapsedMs)))
  {
    var t := Apply(s, BulkTurn(elapsedMs));
    assert t.eng == Turned(s.eng, elapsedMs) && t.reg == s.reg;
    if TurnAt(s.eng, elapsedMs).Issue? {
      IssueStalest(s, elapsedMs);
      IssuedShape(s.eng, elapsedMs);
    } else {
      TurnedDrained(s.eng, elapsedMs);
      NothingLeft(s.eng, elapsedMs);
    }
  }

  lemma IssuedShape(e: Engine, elapsedMs: nat)
    requires TurnAt(e, elapsedMs).Issue?
    ensures Turned(e, elapsedMs).phase.BulkInFlight? && Turned(e, elapsedMs).liveIds == e.liveIds
  {
  }

  lemma NothingLeft(e: Engine, elapsedMs: nat)
    requires Loopable(e) && !TurnAt(e, elapsedMs).Issue?
    ensures e.readsIssued == 0 ==> WaitingSet(e) == {}
  {
    TurnOutcomes(e, elapsedMs);
  }

  lemma TurnedDrained(e: Engine, elapsedMs: nat)
    requires !TurnAt(e, elapsedMs).Issue?
    ensures Turned(e, elapsedMs) == e.(phase := Drained) && WaitingSet(Turned(e, elapsedMs)) == WaitingSet(e)
  {
  }

  lemma OtherDrainInv(s: Sys, step: Step)
    requires DrainInv(s) && !ScriptStep(step) && !step.Start? && !step.BulkTurn?
    requires step.Capture? ==> s.eng.readsIssued == 0 && s.eng.phase.SawAll?
    requires step.BulkDone? ==> s.eng.phase.BulkInFlight?
    requires step.RealtimeDone? ==> s.eng.phase.RealtimeInFlight?
    requires step.Publish? ==> s.eng.phase.Drained?
    requires step.Finish? ==> s.eng.phase.Published?
    requires step.IssueRealtime? ==> s.eng.phase.RealtimeReady?
    ensures DrainInv(Apply(s, step))
  {
  }

  lemma ScriptDrainInv(dev: Device, s: Sys, step: Step)
    requires DrainInv(s) && ScriptStep(step) && Enabled(dev, s, step)
    ensures DrainInv(Apply(s, step))
  {
  }

  lemma StepDrainInv(dev: Device, s: Sys, step: Step)
    requires Inv(dev, s) && DrainInv(s) && Enabled(dev, s, step)
    ensures DrainInv(Apply(s, step))
  {
    if ScriptStep(step) { ScriptDrainInv(dev, s, step); }
    else if step.Start? { StartDrainInv(s, step.cfg); }
    else if step.BulkTurn? { BulkTurnDrainInv(dev, s, step.elapsedMs); }
    else { OtherDrainInv(s, step); }
  }

  // ---------------------------------------------------------------------------
  // The rank never rises while `w` waits, and every published cycle that served a batch lowers it.

  /** `w` stays a bulk watch and is not refreshed by this step. */
  predicate Unserved(s: Sys, step: Step, w: WatchId) {
    && BulkEntry(s.reg, w) && BulkEntry(Apply(s, step).reg, w)
    && Refresh(Apply(s, step).eng.readState, w) == Refresh(s.eng.readState, w)
  }

  lemma CapturePool(s: Sys, clock: nat)
    requires RegOk(s)
    ensures Ids(Captured(s.eng, ActiveAt(s, clock)).bulk) <= BulkWatches(s.reg)
  {
    forall id | id in Ids(Captured(s.eng, ActiveAt(s, clock)).bulk) ensures id in BulkWatches(s.reg) {
      CapturedTier(s, clock, id);
    }
  }

  /** A watch that a step registers. */
  function Newcomers(s: Sys, step: Step): set<WatchId> { if step.Register? then {s.reg.nextId} else {} }

  lemma ScriptPool(s: Sys, step: Step)
    requires ScriptStep(step)
    ensures Pool(Apply(s, step)) <= Pool(s) + Newcomers(s, step)
  {
  }

  lemma EnginePool(s: Sys, step: Step)
    requires !ScriptStep(step) && !step.Capture? && !step.Start?
    requires InCycle(Apply(s, step).eng.phase) ==> InCycle(s.eng.phase)
    ensures Pool(Apply(s, step)) <= Pool(s)
  {
  }

  lemma PhaseOrder(dev: Device, s: Sys, step: Step)
    requires Enabled(dev, s, step) && !ScriptStep(step) && !step.Capture?
    ensures InCycle(Apply(s, step).eng.phase) ==> InCycle(s.eng.phase)
  {
  }

  lemma PoolShrinks(dev: Device, s: Sys, step: Step)
    requires Inv(dev, s) && Enabled(dev, s, step)
    ensures Pool(Apply(s, step)) <= Pool(s) + Newcomers(s, step)
  {
    if ScriptStep(step) { ScriptPool(s, step); }
    else if step.Capture? { CapturePool(s, step.clock); }
    else if step.Start? { }
    else { PhaseOrder(dev, s, step); EnginePool(s, step); }
  }

  lemma MarkedRises(s: Sys, ids: set<WatchId>, v: WatchId)
    requires StateOk(s)
    ensures Refresh(s.eng.readState, v) <= Refresh(Marked(s.eng.readState, ids, s.eng.requests, s.eng.cycle), v)
  {
  }

  /** Only replies and the collection touch the fulfilment states. */
  lemma StatesKept(s: Sys, step: Step)
    requires !step.RealtimeDone? && !step.BulkDone? && !step.Finish?
    ensures Apply(s, step).eng.readState == s.eng.readState
  {
  }

  lemma AnsweredStates(s: Sys, step: Step)
    requires step.RealtimeDone? || step.BulkDone?
    ensures var st := Apply(s, step).eng.readState;
            st == if step.reply.Blobs? then Marked(s.eng.readState, Ids(s.eng.flight), s.eng.requests, s.eng.cycle)
                  else s.eng.readState
  {
  }

  lemma CollectionKeeps(s: Sys, v: WatchId)
    requires s.eng.phase.Published? && v in Pool(Apply(s, Finish)) && v !in Recent(s)
    ensures Refresh(Apply(s, Finish).eng.readState, v) == Refresh(s.eng.readState, v)
  {
  }

  /** Refresh cycles only rise; the collection touches only recent ones of the pool. */
  lemma RefreshRises(dev: Device, s: Sys, step: Step, v: WatchId)
    requires Inv(dev, s) && Enabled(dev, s, step) && v in Pool(Apply(s, step))
    requires step.Finish? ==> v !in Recent(s)
    ensures Refresh(s.eng.readState, v) <= Refresh(Apply(s, step).eng.readState, v)
  {
    if step.RealtimeDone? || step.BulkDone? {
      AnsweredStates(s, step);
      MarkedRises(s, Ids(s.eng.flight), v);
    } else if step.Finish? {
      CollectionKeeps(s, v);
    } else {
      StatesKept(s, step);
    }
  }

  /** Who a step lets go ahead of others: a newcomer, or a recent watch whose state the collection drops. */
  function Overtakers(s: Sys, step: Step): set<WatchId> { if step.Finish? then Recent(s) else Newcomers(s, step) }

  lemma NoLaterShrinks(dev: Device, s: Sys, step: Step, w: WatchId)
    requires Inv(dev, s) && Enabled(dev, s, step) && Unserved(s, step, w)
    ensures NoLater(Apply(s, step), w) <= NoLater(s, w) + Overtakers(s, step)
  {
    PoolShrinks(dev, s, step);
    forall v | v in NoLater(Apply(s, step), w) && v !in Overtakers(s, step) ensures v in NoLater(s, w) {
      RefreshRises(dev, s, step, v);
    }
  }

  /** Recent watches are newcomers of the cycle under way, and its end forgets them. */
  lemma RecentStep(dev: Device, s: Sys, step: Step)
    requires RegOk(s) && Enabled(dev, s, step)
    ensures Recent(Apply(s, step)) <= Recent(s) + Newcomers(s, step)
    ensures step.Finish? ==> Recent(Apply(s, step)) == {}
  {
    if step.Start? { StartSees(s, step.cfg); }
    else if ScriptStep(step) { RecentScript(s, step); }
    else { RecentEngine(s, step); }
  }

  lemma StartSees(s: Sys, cfg: PollConfig)
    requires RegOk(s)
    ensures Recent(Apply(s, Start(cfg))) == {}
  {
    forall id | id in s.reg.entries ensures id in Apply(s, Start(cfg)).eng.liveIds {
      HandlesMember(s.reg, s.reg.nextId, s.reg.entries[id].handle);
    }
  }

  lemma RecentScript(s: Sys, step: Step)
    requires ScriptStep(step)
    ensures Recent(Apply(s, step)) <= Recent(s) + Newcomers(s, step)
  {
  }

  lemma RecentEngine(s: Sys, step: Step)
    requires !ScriptStep(step) && !step.Start? && (step.Finish? || !s.eng.phase.Idle?)
    ensures Recent(Apply(s, step)) <= Recent(s) && (step.Finish? ==> Recent(Apply(s, step)) == {})
  {
  }

  lemma UnionCard<T>(a: set<T>, b: set<T>, c: set<T>)
    requires a <= b + c
    ensures |a| <= |b| + |c|
  {
    SubsetCard(a, b + c);
    SubsetCard(c - b, c);
    assert b + c == b + (c - b);
  }

  /** Twice per registration at most, some watch goes ahead; otherwise none does. */
  function Allowance(step: Step): nat { if step.Register? then 2 else 0 }

  lemma OvertakeStep(dev: Device, s: Sys, step: Step, w: WatchId)
    requires Inv(dev, s) && Enabled(dev, s, step) && Unserved(s, step, w)
    ensures |NoLater(Apply(s, step), w)| + |Recent(Apply(s, step))| <= |NoLater(s, w)| + |Recent(s)| + Allowance(step)
  {
    NoLaterShrinks(dev, s, step, w);
    RecentStep(dev, s, step);
    UnionCard(NoLater(Apply(s, step), w), NoLater(s, w), Overtakers(s, step));
    UnionCard(Recent(Apply(s, step)), Recent(s), Newcomers(s, step));
  }

  lemma SubsetCard<T>(a: set<T>, b: set<T>)
    requires a <= b
    ensures |a| <= |b| && (a != b ==> |a| < |b|)
  {
    assert b == a + (b - a);
    if a != b { assert b - a != {}; }
  }

  /** Within a cycle the captured markers and bulk reads stay. */
  lemma CaptureKept(dev: Device, s: Sys, step: Step)
    requires Enabled(dev, s, step) && InCycle(s.eng.phase)
    ensures var e := Apply(s, step).eng; e.bulk == s.eng.bulk && e.requests == s.eng.requests
  {
  }

  lemma MarkedKeepsWaiting(s: Sys, ids: set<WatchId>, w: WatchId)
    requires StateOk(s) && RefreshOk(s.eng) && s.eng.cycle > 0
    requires Refresh(Marked(s.eng.readState, ids, s.eng.requests, s.eng.cycle), w) == Refresh(s.eng.readState, w)
    ensures Unfulfilled(s.eng.requests, Marked(s.eng.readState, ids, s.eng.requests, s.eng.cycle), w)
       <==> Unfulfilled(s.eng.requests, s.eng.readState, w)
  {
  }

  /** Inside a cycle, serving nothing to `w` keeps it waiting exactly if it was. */
  lemma WaitingKept(dev: Device, s: Sys, step: Step, w: WatchId)
    requires Inv(dev, s) && Enabled(dev, s, step) && Unserved(s, step, w)
    requires InCycle(s.eng.phase) && InCycle(Apply(s, step).eng.phase)
    ensures Waiting(Apply(s, step).eng, w) <==> Waiting(s.eng, w)
  {
    CaptureKept(dev, s, step);
    if step.RealtimeDone? || step.BulkDone? {
      AnsweredStates(s, step);
      if step.reply.Blobs? { MarkedKeepsWaiting(s, Ids(s.eng.flight), w); }
    } else {
      StatesKept(s, step);
    }
  }

  /** The first batch a cycle serves while `w` waits refreshes some watch that was ahead of `w`. */
  lemma BatchLowersRank(dev: Device, s: Sys, blobs: seq<seq<Byte>>, at: seq<nat>, rttMs: nat, elapsedMs: nat,
      w: WatchId)
    requires Inv(dev, s) && DrainInv(s) && Waiting(s.eng, w)
    requires Enabled(dev, s, BulkDone(Blobs(blobs, at), rttMs, elapsedMs))
    requires Unserved(s, BulkDone(Blobs(blobs, at), rttMs, elapsedMs), w)
    ensures var t := Apply(s, BulkDone(Blobs(blobs, at), rttMs, elapsedMs));
            |NoLater(t, w)| + |Recent(t)| < |NoLater(s, w)| + |Recent(s)|
  {
    var step := BulkDone(Blobs(blobs, at), rttMs, elapsedMs);
    var t := Apply(s, step);
    NoLaterShrinks(dev, s, step, w);
    WaitingIsOld(s, w);
    assert w in WaitingSet(s.eng);
    var m :| m in Ids(s.eng.flight) && m in Ids(s.eng.bulk)
        && Refresh(s.eng.readState, m) <= Refresh(s.eng.readState, w);
    assert m in NoLater(s, w);
    BulkAnswers(s, blobs, at, rttMs, elapsedMs);
    assert Refresh(t.eng.readState, m) == s.eng.cycle;
    assert m !in NoLater(t, w);
    SubsetCard(NoLater(t, w), NoLater(s, w));
    RecentStep(dev, s, step);
    SubsetCard(Recent(t), Recent(s));
  }

  lemma CreditKept(dev: Device, s: Sys, step: Step, w: WatchId)
    requires Inv(dev, s) && Enabled(dev, s, step) && Unserved(s, step, w)
    requires !(step.BulkDone? && step.reply.Blobs?)
    ensures Credit(Apply(s, step), w) <= Credit(s, w)
  {
    if step.Capture? {
      CaptureNoCredit(dev, s, step, w);
    } else if InCycle(Apply(s, step).eng.phase) {
      if !ScriptStep(step) { PhaseOrder(dev, s, step); }
      ReadsKept(s, step);
      WaitingKept(dev, s, step, w);
    }
  }

  lemma CaptureNoCredit(dev: Device, s: Sys, step: Step, w: WatchId)
    requires Inv(dev, s) && Enabled(dev, s, step) && step.Capture?
    ensures Credit(Apply(s, step), w) == 0
  {
  }

  lemma ReadsKept(s: Sys, step: Step)
    requires !step.Start? && !(step.BulkDone? && step.reply.Blobs?)
    ensures Apply(s, step).eng.readsIssued == s.eng.readsIssued
    ensures ScriptStep(step) ==> Apply(s, step).eng == s.eng
  {
  }

  lemma BatchCredit(dev: Device, s: Sys, step: Step, w: WatchId)
    requires Inv(dev, s) && Enabled(dev, s, step) && Unserved(s, step, w) && step.BulkDone? && step.reply.Blobs?
    ensures Credit(Apply(s, step), w) <= if Waiting(s.eng, w) then 1 else 0
    ensures s.eng.readsIssued > 0 ==> Credit(Apply(s, step), w) <= Credit(s, w)
  {
    PhaseOrder(dev, s, step);
    if InCycle(Apply(s, step).eng.phase) { WaitingKept(dev, s, step, w); }
  }

  /** The cycle about to be published had `w` waiting, and has sent a bulk read that did not fail. */
  predicate Served(s: Sys, step: Step, w: WatchId) { step.Publish? && Waiting(s.eng, w) && s.eng.readsIssued > 0 }

  /** Only a registration raises the rank, by 2 at most, and publishing a cycle that served a batch while `w`
      waited lowers it. */
  lemma RankStep(dev: Device, s: Sys, step: Step, w: WatchId)
    requires Inv(dev, s) && DrainInv(s) && Enabled(dev, s, step) && Unserved(s, step, w)
    ensures Rank(Apply(s, step), w) + (if Served(s, step, w) then 1 else 0) <= Rank(s, w) + Allowance(step)
  {
    OvertakeStep(dev, s, step, w);
    if step.BulkDone? && step.reply.Blobs? {
      BatchCredit(dev, s, step, w);
      if Waiting(s.eng, w) {
        BatchLowersRank(dev, s, step.reply.blobs, step.reply.at, step.rttMs, step.elapsedMs, w);
      }
    } else {
      CreditKept(dev, s, step, w);
    }
  }

  // ---------------------------------------------------------------------------
  // The theorem.

  predicate FirstReadSucceeded(e: Engine) { e.readsIssued > 0 || e.lastError != Some(BulkTier) }

  /** Along the run `w` stays a registered bulk watch and is never refreshed. */
  predicate Starves(s: Sys, steps: seq<Step>, w: WatchId)
    decreases |steps|
  {
    BulkEntry(s.reg, w) && (steps == [] || (Unserved(s, steps[0], w) && Starves(Apply(s, steps[0]), steps[1..], w)))
  }

  /** A cycle completes in which `w` waited and the first bulk read, if there was any, did not fail. */
  predicate GoodCycle(s: Sys, step: Step, w: WatchId) {
    step.Publish? && Waiting(s.eng, w) && FirstReadSucceeded(s.eng)
  }

  /** How many such cycles the run completes. */
  function GoodCycles(s: Sys, steps: seq<Step>, w: WatchId): nat
    decreases |steps|
  {
    if steps == [] then 0
    else (if GoodCycle(s, steps[0], w) then 1 else 0) + GoodCycles(Apply(s, steps[0]), steps[1..], w)
  }

  function Registrations(steps: seq<Step>): nat
    decreases |steps|
  {
    if steps == [] then 0 else (if steps[0].Register? then 1 else 0) + Registrations(steps[1..])
  }

  lemma PublishServed(dev: Device, s: Sys, w: WatchId)
    requires Inv(dev, s) && DrainInv(s) && s.eng.phase.Drained? && Waiting(s.eng, w) && FirstReadSucceeded(s.eng)
    ensures s.eng.readsIssued > 0
  {
    assert w in WaitingSet(s.eng);
  }

  lemma RankPositive(s: Sys, w: WatchId)
    requires BulkEntry(s.reg, w)
    ensures 0 < Rank(s, w)
  {
    assert w in NoLater(s, w);
  }

  lemma GoodIsServed(dev: Device, s: Sys, step: Step, w: WatchId)
    requires Inv(dev, s) && DrainInv(s) && Enabled(dev, s, step) && GoodCycle(s, step, w)
    ensures Served(s, step, w)
  {
    PublishServed(dev, s, w);
  }

  lemma {:induction false} RankRun(dev: Device, s: Sys, steps: seq<Step>, w: WatchId)
    requires Inv(dev, s) && DrainInv(s) && ValidRun(dev, s, steps) && Starves(s, steps, w)
    ensures GoodCycles(s, steps, w) < Rank(s, w) + 2 * Registrations(steps)
    decreases |steps|
  {
    if steps == [] {
      RankPositive(s, w);
    } else {
      if GoodCycle(s, steps[0], w) { GoodIsServed(dev, s, steps[0], w); }
      RankStep(dev, s, steps[0], w);
      StepKeepsInv(dev, s, steps[0]);
      StepDrainInv(dev, s, steps[0]);
      RankRun(dev, Apply(s, steps[0]), steps[1..], w);
    }
  }

  /** Starvation freedom. A bulk watch goes unserved for fewer completed cycles than there are registered bulk
      watches, plus 2 for every watch registered meanwhile, counting the cycles in which it waits and the first
      bulk read does not fail: whatever failed cycles lie between, and whatever the budget, the chunking, the
      clock, the other watches and the script do. */
  lemma NoStarvation(dev: Device, s: Sys, steps: seq<Step>, w: WatchId)
    requires Reachable(dev, s) && s.eng.phase.Idle?
    requires ValidRun(dev, s, steps) && Starves(s, steps, w)
    ensures GoodCycles(s, steps, w) < |BulkWatches(s.reg)| + 2 * Registrations(steps)
  {
    ReachableInv(dev, s);
    RankRun(dev, s, steps, w);
    SubsetCard(NoLater(s, w), BulkWatches(s.reg));
  }
}
