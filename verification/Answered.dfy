/** From a script's touch to a snapshot that answers it. */
module Answered {
  import opened Types
  import opened Fulfil
  import opened Snapshots
  import opened System
  import opened Invariant
  import opened EngineSteps
  import opened Properties
  import opened Starvation
  import RG = Registry

  // ---------------------------------------------------------------------------
  // What holds for a watch `w` from a touch with marker `m` on.

  predicate Touched(s: Sys, w: WatchId, m: nat) {
    && w in s.reg.entries && s.reg.entries[w].request >= m
    && (m <= s.hist.seen && InCycle(s.eng.phase) && w in s.eng.requests ==> s.eng.requests[w] >= m)
  }

  predicate Fulfils(s: Sys, w: WatchId, m: nat) { Fulfilled(s.eng.readState, w) >= m }

  /** `w` stays a registered bulk watch. */
  predicate Stays(s: Sys, steps: seq<Step>, w: WatchId)
    decreases |steps|
  {
    BulkEntry(s.reg, w) && (steps == [] || Stays(Apply(s, steps[0]), steps[1..], w))
  }

  lemma TouchedStep(dev: Device, s: Sys, step: Step, w: WatchId, m: nat)
    requires Inv(dev, s) && Enabled(dev, s, step) && Touched(s, w, m)
             && w in Apply(s, step).reg.entries
    ensures Touched(Apply(s, step), w, m)
  {
    EntryStep(dev, s, step, w);
    if step.Capture? {
      CaptureExact(s, step.clock, w);
    } else if InCycle(Apply(s, step).eng.phase) {
      if !ScriptStep(step) { PhaseOrder(dev, s, step); }
      SeenKept(s, step);
      CaptureKept(dev, s, step);
    }
  }

  lemma SeenKept(s: Sys, step: Step)
    requires !step.Capture?
    ensures Apply(s, step).hist.seen == s.hist.seen
    ensures ScriptStep(step) ==> Apply(s, step).eng == s.eng
  {
  }

  /** A reply that marks `w` marks it with at least `m`, once markers were captured after the touch. */
  lemma MarksTouched(dev: Device, s: Sys, step: Step, w: WatchId, m: nat)
    requires Inv(dev, s) && Enabled(dev, s, step) && (step.RealtimeDone? || step.BulkDone?)
    requires Touched(s, w, m) && m <= s.hist.seen
    ensures Fulfils(Apply(s, step), w, m) || Refresh(Apply(s, step).eng.readState, w) == Refresh(s.eng.readState, w)
    ensures Fulfils(s, w, m) ==> Fulfils(Apply(s, step), w, m)
  {
    AnsweredStates(s, step);
  }

  /** `w` was registered before the cycle under way began, so the collection at its end keeps its state. */
  predicate Live(s: Sys, w: WatchId) { s.eng.phase.Idle? || w in s.eng.liveIds }

  lemma LiveStep(dev: Device, s: Sys, step: Step, w: WatchId)
    requires RegOk(s) && Enabled(dev, s, step) && w in s.reg.entries && Live(s, w)
    ensures Live(Apply(s, step), w)
  {
    if step.Start? {
      RG.HandlesMember(s.reg, s.reg.nextId, s.reg.entries[w].handle);
    } else if !ScriptStep(step) {
      LiveIdsKept(s, step);
    }
  }

  lemma LiveIdsKept(s: Sys, step: Step)
    requires !step.Start?
    ensures Apply(s, step).eng.liveIds == s.eng.liveIds
  {
  }

  /** Once fulfilled, the touch stays fulfilled. */
  lemma FulfilsStep(dev: Device, s: Sys, step: Step, w: WatchId, m: nat)
    requires Inv(dev, s) && Enabled(dev, s, step) && Touched(s, w, m) && Live(s, w) && Fulfils(s, w, m) && m >= 1
    ensures Fulfils(Apply(s, step), w, m)
  {
    if step.RealtimeDone? || step.BulkDone? {
      MarksTouched(dev, s, step, w, m);
    } else if step.Finish? {
      LiveStateKept(s, w);
    } else {
      StatesKept(s, step);
    }
  }

  lemma LiveStateKept(s: Sys, w: WatchId)
    requires s.eng.phase.Published? && Live(s, w)
    ensures var st := Apply(s, Finish).eng.readState;
            Fulfilled(st, w) == Fulfilled(s.eng.readState, w) && Refresh(st, w) == Refresh(s.eng.readState, w)
  {
  }

  lemma {:induction false} FulfilsRun(dev: Device, s: Sys, steps: seq<Step>, w: WatchId, m: nat)
    requires Inv(dev, s) && ValidRun(dev, s, steps) && Stays(s, steps, w)
    requires Touched(s, w, m) && Live(s, w) && Fulfils(s, w, m) && m >= 1
    ensures Fulfils(Run(s, steps), w, m)
    decreases |steps|
  {
    if steps != [] {
      FulfilsStep(dev, s, steps[0], w, m);
      LiveStep(dev, s, steps[0], w);
      TouchedStep(dev, s, steps[0], w, m);
      StepKeepsInv(dev, s, steps[0]);
      FulfilsRun(dev, Apply(s, steps[0]), steps[1..], w, m);
    }
  }

  // ---------------------------------------------------------------------------
  // The wait is bounded.

  /** A cycle completes that polled `w`, and whose first bulk read, if there was any, did not fail. */
  predicate Polls(s: Sys, step: Step, w: WatchId) {
    step.Publish? && w in Ids(s.eng.bulk) && FirstReadSucceeded(s.eng)
  }

  function PolledCycles(s: Sys, steps: seq<Step>, w: WatchId): nat
    decreases |steps|
  {
    if steps == [] then 0
    else (if Polls(s, steps[0], w) then 1 else 0) + PolledCycles(Apply(s, steps[0]), steps[1..], w)
  }

  /** No capture saw the touch yet, or the cycle under way may still lose the watch's state. */
  predicate Early(s: Sys, w: WatchId, m: nat) { s.hist.seen < m || !Live(s, w) }

  /** One while an early cycle is still to be published. */
  function Due(s: Sys, w: WatchId): nat {
    if InCycle(s.eng.phase) || (s.eng.phase.SawAll? && !Live(s, w)) then 1 else 0
  }

  /** An early cycle may complete first; after it the rank counts. */
  function Left(s: Sys, w: WatchId, m: nat): nat {
    if Early(s, w, m) then |BulkWatches(s.reg)| + |Recent(s)| + Due(s, w) else Rank(s, w)
  }

  lemma BulkWatchesStep(s: Sys, step: Step)
    ensures BulkWatches(Apply(s, step).reg) <= BulkWatches(s.reg) + Newcomers(s, step)
  {
  }

  lemma CrowdStep(dev: Device, s: Sys, step: Step)
    requires RegOk(s) && Enabled(dev, s, step)
    ensures |BulkWatches(Apply(s, step).reg)| + |Recent(Apply(s, step))|
         <= |BulkWatches(s.reg)| + |Recent(s)| + Allowance(step)
  {
    BulkWatchesStep(s, step);
    RecentStep(dev, s, step);
    UnionCard(BulkWatches(Apply(s, step).reg), BulkWatches(s.reg), Newcomers(s, step));
    UnionCard(Recent(Apply(s, step)), Recent(s), Newcomers(s, step));
  }

  lemma DueStep(dev: Device, s: Sys, step: Step, w: WatchId)
    requires RegOk(s) && Enabled(dev, s, step) && w in s.reg.entries
    requires step.Capture? ==> !Live(s, w)
    ensures Due(Apply(s, step), w) + (if Polls(s, step, w) then 1 else 0) <= Due(s, w)
  {
    if step.Start? { LiveStep(dev, s, step, w); }
    else if !ScriptStep(step) { LiveIdsKept(s, step); }
    if !ScriptStep(step) && !step.Capture? { PhaseOrder(dev, s, step); }
  }

  /** While it stays early. */
  lemma EarlyStep(dev: Device, s: Sys, step: Step, w: WatchId, m: nat)
    requires Inv(dev, s) && Enabled(dev, s, step) && w in s.reg.entries
    requires Early(s, w, m) && Early(Apply(s, step), w, m) && (step.Capture? ==> !Live(s, w))
    ensures Left(Apply(s, step), w, m) + (if Polls(s, step, w) then 1 else 0) <= Left(s, w, m) + Allowance(step)
  {
    CrowdStep(dev, s, step);
    DueStep(dev, s, step, w);
  }

  /** Where no batch was served yet, nobody but registered bulk watches can be ahead. */
  lemma FreshRank(t: Sys, w: WatchId)
    requires InCycle(t.eng.phase) ==> t.eng.readsIssued == 0 && Ids(t.eng.bulk) <= BulkWatches(t.reg)
    ensures Rank(t, w) <= |BulkWatches(t.reg)| + |Recent(t)|
  {
    SubsetCard(NoLater(t, w), BulkWatches(t.reg));
  }

  lemma CapturedAhead(dev: Device, s: Sys, step: Step, w: WatchId)
    requires Inv(dev, s) && Enabled(dev, s, step) && step.Capture?
    ensures var t := Apply(s, step);
            && t.reg == s.reg && t.eng.readsIssued == 0 && Ids(t.eng.bulk) <= BulkWatches(t.reg)
            && (w in s.reg.entries ==> t.hist.seen >= s.reg.entries[w].request)
  {
    CapturePool(s, step.clock);
  }

  /** The first capture after the touch. */
  lemma CaptureStep(dev: Device, s: Sys, step: Step, w: WatchId, m: nat)
    requires Inv(dev, s) && Enabled(dev, s, step) && step.Capture? && Touched(s, w, m) && Early(s, w, m) && Live(s, w)
    ensures Left(Apply(s, step), w, m) <= Left(s, w, m)
  {
    CapturedAhead(dev, s, step, w);
    LiveIdsKept(s, step);
    RecentStep(dev, s, step);
    SubsetCard(Recent(Apply(s, step)), Recent(s));
    FreshRank(Apply(s, step), w);
  }

  lemma IdleLeft(t: Sys, w: WatchId, m: nat)
    requires t.eng.phase.Idle?
    ensures Left(t, w, m) <= |BulkWatches(t.reg)|
  {
    assert Recent(t) == {};
    FreshRank(t, w);
  }

  /** The end of the cycle in which the watch was registered. */
  lemma EndOfFirstCycle(s: Sys, w: WatchId, m: nat)
    requires s.eng.phase.Published? && !Live(s, w)
    ensures Left(Apply(s, Finish), w, m) <= Left(s, w, m)
  {
    FinishedIdle(s);
    IdleLeft(Apply(s, Finish), w, m);
  }

  lemma FinishedIdle(s: Sys)
    ensures Apply(s, Finish).eng.phase.Idle? && Apply(s, Finish).reg == s.reg
  {
  }

  /** After it, as long as the touch is not fulfilled. */
  lemma LateStep(dev: Device, s: Sys, step: Step, w: WatchId, m: nat)
    requires Inv(dev, s) && DrainInv(s) && Enabled(dev, s, step) && Touched(s, w, m) && !Early(s, w, m)
    requires BulkEntry(s.reg, w) && BulkEntry(Apply(s, step).reg, w)
    requires !Fulfils(s, w, m) && !Fulfils(Apply(s, step), w, m)
    ensures !Early(Apply(s, step), w, m)
    ensures Rank(Apply(s, step), w) + (if Polls(s, step, w) then 1 else 0) <= Rank(s, w) + Allowance(step)
  {
    LateUnserved(dev, s, step, w, m);
    SeenRises(s, step);
    LiveStep(dev, s, step, w);
    if Polls(s, step, w) { GoodIsServed(dev, s, step, w); }
    RankStep(dev, s, step, w);
  }

  lemma SeenRises(s: Sys, step: Step)
    requires RegOk(s)
    ensures s.hist.seen <= Apply(s, step).hist.seen
  {
    if !step.Capture? { SeenKept(s, step); }
  }

  lemma LateUnserved(dev: Device, s: Sys, step: Step, w: WatchId, m: nat)
    requires Inv(dev, s) && Enabled(dev, s, step) && Touched(s, w, m) && !Early(s, w, m)
    requires BulkEntry(s.reg, w) && BulkEntry(Apply(s, step).reg, w)
    requires !Fulfils(Apply(s, step), w, m)
    ensures Unserved(s, step, w)
  {
    if step.RealtimeDone? || step.BulkDone? {
      MarksTouched(dev, s, step, w, m);
    } else if step.Finish? {
      LiveStateKept(s, w);
    } else {
      StatesKept(s, step);
    }
  }

  lemma LeftStep(dev: Device, s: Sys, step: Step, w: WatchId, m: nat)
    requires Inv(dev, s) && DrainInv(s) && Enabled(dev, s, step) && Touched(s, w, m)
    requires BulkEntry(s.reg, w) && BulkEntry(Apply(s, step).reg, w)
    requires !Early(s, w, m) ==> !Fulfils(s, w, m) && !Fulfils(Apply(s, step), w, m)
    ensures Left(Apply(s, step), w, m) + (if Polls(s, step, w) then 1 else 0) <= Left(s, w, m) + Allowance(step)
  {
    if !Early(s, w, m) { LateStep(dev, s, step, w, m); }
    else if step.Capture? && Live(s, w) { CaptureStep(dev, s, step, w, m); }
    else if step.Finish? && !Live(s, w) { EndOfFirstCycle(s, w, m); }
    else { StaysEarly(dev, s, step, w, m); EarlyStep(dev, s, step, w, m); }
  }

  /** Only a capture, or the end of its first cycle, brings a watch out of the early phase. */
  lemma StaysEarly(dev: Device, s: Sys, step: Step, w: WatchId, m: nat)
    requires Enabled(dev, s, step) && Early(s, w, m)
    requires !(step.Capture? && Live(s, w)) && !(step.Finish? && !Live(s, w))
    ensures Early(Apply(s, step), w, m)
  {
    if !step.Capture? { SeenKept(s, step); }
    if !step.Start? { LiveIdsKept(s, step); }
  }

  lemma LeftPositive(s: Sys, w: WatchId, m: nat)
    requires BulkEntry(s.reg, w)
    ensures 0 < Left(s, w, m)
  {
    assert w in BulkWatches(s.reg);
    RankPositive(s, w);
  }

  lemma {:induction false} AnswerRun(dev: Device, s: Sys, steps: seq<Step>, w: WatchId, m: nat)
    requires Inv(dev, s) && DrainInv(s) && ValidRun(dev, s, steps) && Stays(s, steps, w) && Touched(s, w, m) && m >= 1
    ensures Fulfils(Run(s, steps), w, m) || PolledCycles(s, steps, w) < Left(s, w, m) + 2 * Registrations(steps)
    decreases |steps|
  {
    if Fulfils(s, w, m) && Live(s, w) {
      FulfilsRun(dev, s, steps, w, m);
    } else if steps == [] {
      LeftPositive(s, w, m);
    } else {
      TouchedStep(dev, s, steps[0], w, m);
      StepKeepsInv(dev, s, steps[0]);
      StepDrainInv(dev, s, steps[0]);
      var next := Apply(s, steps[0]);
      if Fulfils(next, w, m) && Live(next, w) {
        FulfilsRun(dev, next, steps[1..], w, m);
      } else {
        if Live(s, w) { LiveStep(dev, s, steps[0], w); }
        LeftStep(dev, s, steps[0], w, m);
        AnswerRun(dev, next, steps[1..], w, m);
      }
    }
  }

  // ---------------------------------------------------------------------------
  // The promise.

  lemma {:induction false} DrainInvRun(dev: Device, s: Sys, steps: seq<Step>)
    requires Inv(dev, s) && DrainInv(s) && ValidRun(dev, s, steps)
    ensures DrainInv(Run(s, steps))
    decreases |steps|
  {
    if steps != [] {
      StepKeepsInv(dev, s, steps[0]);
      StepDrainInv(dev, s, steps[0]);
      DrainInvRun(dev, Apply(s, steps[0]), steps[1..]);
    }
  }

  lemma ReachableDrainInv(dev: Device, s: Sys)
    requires Reachable(dev, s)
    ensures Inv(dev, s) && DrainInv(s)
  {
    var cfg, steps :| ValidRun(dev, Init(cfg), steps) && Run(Init(cfg), steps) == s;
    ReachableInv(dev, s);
    InitInv(dev, cfg);
    DrainInvRun(dev, Init(cfg), steps);
  }

  /** Marker `m` is stored, at the instant `at`. */
  predicate AskedAt(s: Sys, m: nat, at: nat) {
    1 <= m <= |s.hist.askedAt| && s.hist.askedAt[m - 1] == at && (s.inHand > 0 ==> m < s.inHand)
  }

  lemma AskedStep(dev: Device, s: Sys, step: Step, m: nat, at: nat)
    requires RegOk(s) && Enabled(dev, s, step) && AskedAt(s, m, at)
    ensures AskedAt(Apply(s, step), m, at)
  {
  }

  lemma {:induction false} AskedRun(dev: Device, s: Sys, steps: seq<Step>, m: nat, at: nat)
    requires Inv(dev, s) && ValidRun(dev, s, steps) && AskedAt(s, m, at)
    ensures AskedAt(Run(s, steps), m, at)
    decreases |steps|
  {
    if steps != [] {
      AskedStep(dev, s, steps[0], m, at);
      StepKeepsInv(dev, s, steps[0]);
      AskedRun(dev, Apply(s, steps[0]), steps[1..], m, at);
    }
  }

  /** The touch stores the marker in hand, ahead of all that were captured. */
  lemma TouchStores(dev: Device, s: Sys, id: WatchId, clock: nat)
    requires Inv(dev, s) && id in s.reg.entries && s.inHand > 0
    ensures var t := Apply(s, Touch(id, clock));
            && Touched(t, id, s.inHand) && t.hist.seen < s.inHand && AskedAt(t, s.inHand, s.now)
            && t.reg.entries[id].handle == s.reg.entries[id].handle && t.hist.hollow == s.hist.hollow
  {
  }

  /** A fulfilled touch, between cycles: the snapshot holds memory read after it. */
  lemma FulfilledTouchPublished(dev: Device, u: Sys, id: WatchId, marker: nat)
    requires Inv(dev, u) && u.hist.hollow == {} && id in u.reg.entries && !InCycle(u.eng.phase)
    requires 1 <= marker <= Fulfilled(u.eng.readState, id)
    ensures id in u.hist.publishedOrigins && marker <= |u.hist.askedAt|
    ensures u.hist.publishedOrigins[id].at > u.hist.askedAt[marker - 1]
    ensures u.eng.published.Bytes(id)
         == Some(ReadMemory(dev(u.hist.publishedOrigins[id].at), u.reg.entries[id].handle.region))
  {
    MarkedMeansFresh(dev, u, id, marker);
  }

  /** How many polling cycles answer a touch for certain. */
  function Patience(t: Sys, after: seq<Step>): nat { |BulkWatches(t.reg)| + |Recent(t)| + 2 * Registrations(after) }

  /** Every touch of a bulk watch is answered. In any reachable state so far answered in full, a script touches a
      watch that stays a registered bulk watch. As soon as more cycles have polled it, with a first bulk read
      that did not fail, than there are bulk watches, plus those registered since the cycle under way began, plus
      2 for every registration to come, the published snapshot holds its region's memory at an instant after the
      touch. Cycles that fail or do not poll the watch may lie between; budget, chunking, clock and the rest of
      the script are arbitrary. */
  lemma TouchAnswered(dev: Device, s: Sys, id: WatchId, clock: nat, after: seq<Step>)
    requires Reachable(dev, s) && s.hist.hollow == {} && id in s.reg.entries && s.inHand > 0
    requires var t := Apply(s, Touch(id, clock));
             && ValidRun(dev, t, after) && RepliesInFull(t, after) && Stays(t, after, id)
             && PolledCycles(t, after, id) > Patience(t, after)
    ensures var u := Run(Apply(s, Touch(id, clock)), after);
            !InCycle(u.eng.phase) ==>
              && id in u.hist.publishedOrigins && u.hist.publishedOrigins[id].at > s.now
              && u.eng.published.Bytes(id)
                 == Some(ReadMemory(dev(u.hist.publishedOrigins[id].at), s.reg.entries[id].handle.region))
  {
    ReachableDrainInv(dev, s);
    TouchIsAnswered(dev, s, id, clock, after);
  }

  lemma TouchIsAnswered(dev: Device, s: Sys, id: WatchId, clock: nat, after: seq<Step>)
    requires Inv(dev, s) && DrainInv(s) && s.hist.hollow == {} && id in s.reg.entries && s.inHand > 0
    requires var t := Apply(s, Touch(id, clock));
             && ValidRun(dev, t, after) && RepliesInFull(t, after) && Stays(t, after, id)
             && PolledCycles(t, after, id) > Patience(t, after)
    ensures var u := Run(Apply(s, Touch(id, clock)), after);
            !InCycle(u.eng.phase) ==>
              && id in u.hist.publishedOrigins && u.hist.publishedOrigins[id].at > s.now
              && u.eng.published.Bytes(id)
                 == Some(ReadMemory(dev(u.hist.publishedOrigins[id].at), s.reg.entries[id].handle.region))
  {
    var t, m := Apply(s, Touch(id, clock)), s.inHand;
    TouchFulfilled(dev, s, id, clock, after);
    TouchStores(dev, s, id, clock);
    var u := Run(t, after);
    if !InCycle(u.eng.phase) { FulfilledTouchPublished(dev, u, id, m); }
  }

  lemma TouchFulfilled(dev: Device, s: Sys, id: WatchId, clock: nat, after: seq<Step>)
    requires Inv(dev, s) && DrainInv(s) && s.hist.hollow == {} && id in s.reg.entries && s.inHand > 0
    requires var t := Apply(s, Touch(id, clock));
             && ValidRun(dev, t, after) && RepliesInFull(t, after) && Stays(t, after, id)
             && PolledCycles(t, after, id) > Patience(t, after)
    ensures var t := Apply(s, Touch(id, clock));
            var u := Run(t, after);
            && Fulfils(u, id, s.inHand)
            && Inv(dev, u) && u.hist.hollow == {} && AskedAt(u, s.inHand, s.now)
            && id in u.reg.entries && u.reg.entries[id].handle.region == t.reg.entries[id].handle.region
  {
    StepKeepsInv(dev, s, Touch(id, clock));
    StepDrainInv(dev, s, Touch(id, clock));
    TouchStores(dev, s, id, clock);
    StoredFulfilled(dev, Apply(s, Touch(id, clock)), id, s.inHand, s.now, after);
  }

  /** From the state with the touch's marker stored. */
  lemma StoredFulfilled(dev: Device, t: Sys, id: WatchId, m: nat, at: nat, after: seq<Step>)
    requires Inv(dev, t) && DrainInv(t) && t.hist.hollow == {}
    requires Touched(t, id, m) && t.hist.seen < m && AskedAt(t, m, at)
    requires ValidRun(dev, t, after) && RepliesInFull(t, after) && Stays(t, after, id)
    requires PolledCycles(t, after, id) > Patience(t, after)
    ensures var u := Run(t, after);
            && Fulfils(u, id, m) && Inv(dev, u) && u.hist.hollow == {} && AskedAt(u, m, at)
            && id in u.reg.entries && u.reg.entries[id].handle.region == t.reg.entries[id].handle.region
  {
    AnswerRun(dev, t, after, id, m);
    EndOfRun(dev, t, after, id, m, at);
  }

  /** Facts about the end of a run in which `id` stays. */
  lemma EndOfRun(dev: Device, t: Sys, after: seq<Step>, id: WatchId, m: nat, at: nat)
    requires AskedAt(t, m, at)
    requires Inv(dev, t) && t.hist.hollow == {} && ValidRun(dev, t, after) && RepliesInFull(t, after)
             && Stays(t, after, id)
    ensures var u := Run(t, after);
            && Inv(dev, u) && u.hist.hollow == {} && AskedAt(u, m, at)
            && id in u.reg.entries && u.reg.entries[id].handle.region == t.reg.entries[id].handle.region
  {
    RunKeepsInv(dev, t, after);
    FullRepliesNeverHollow(dev, t, after);
    AskedRun(dev, t, after, m, at);
    StaysToEnd(t, after, id);
    EntriesOnlyAdvance(dev, t, after, id);
  }

  lemma {:induction false} StaysToEnd(s: Sys, steps: seq<Step>, w: WatchId)
    requires Stays(s, steps, w)
    ensures BulkEntry(Run(s, steps).reg, w)
    decreases |steps|
  {
    if steps != [] { StaysToEnd(Apply(s, steps[0]), steps[1..], w); }
  }
}
