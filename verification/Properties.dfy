/** What scripts may rely on, over every run. */
module Properties {
  import opened Types
  import opened Fulfil
  import opened Budget
  import opened Snapshots
  import opened Registry
  import opened Cycle
  import opened System
  import opened Invariant
  import opened EngineSteps
  import BR = BatchedReads
  import CT = CoalesceTheorems
  import Split

  /** Some run of script and engine steps leads from start-up to `s`. */
  ghost predicate Reachable(dev: Device, s: Sys) {
    exists cfg, steps :: ValidRun(dev, Init(cfg), steps) && Run(Init(cfg), steps) == s
  }

  lemma ReachableInv(dev: Device, s: Sys)
    requires Reachable(dev, s)
    ensures Inv(dev, s)
  {
    var cfg, steps :| ValidRun(dev, Init(cfg), steps) && Run(Init(cfg), steps) == s;
    InitInv(dev, cfg);
    RunKeepsInv(dev, Init(cfg), steps);
  }

  lemma {:induction false} ReachRun(dev: Device, s: Sys, steps: seq<Step>)
    requires Reachable(dev, s) && ValidRun(dev, s, steps)
    ensures Reachable(dev, Run(s, steps))
    decreases |steps|
  {
    if steps != [] {
      ReachStep(dev, s, steps[0]);
      ReachRun(dev, Apply(s, steps[0]), steps[1..]);
    }
  }

  lemma ReachStep(dev: Device, s: Sys, step: Step)
    requires Reachable(dev, s) && Enabled(dev, s, step)
    ensures Reachable(dev, Apply(s, step))
  {
    var cfg, steps :| ValidRun(dev, Init(cfg), steps) && Run(Init(cfg), steps) == s;
    RunSnoc(dev, Init(cfg), steps, step);
    assert ValidRun(dev, Init(cfg), steps + [step]) && Run(Init(cfg), steps + [step]) == Apply(s, step);
  }

  lemma {:induction false} RunSnoc(dev: Device, s: Sys, steps: seq<Step>, step: Step)
    requires ValidRun(dev, s, steps) && Enabled(dev, Run(s, steps), step)
    ensures ValidRun(dev, s, steps + [step]) && Run(s, steps + [step]) == Apply(Run(s, steps), step)
    decreases |steps|
  {
    if steps == [] {
      assert Run(Apply(s, step), []) == Apply(s, step) && steps + [step] == [step];
    } else {
      assert (steps + [step])[1..] == steps[1..] + [step];
      RunSnoc(dev, Apply(s, steps[0]), steps[1..], step);
    }
  }

  // ---------------------------------------------------------------------------
  // No false fulfilment.

  /** The marker a live watch has fulfilled never exceeds the marker it was last requested with. */
  lemma FulfilledNeverRunsAhead(dev: Device, s: Sys, id: WatchId)
    requires Reachable(dev, s) && id in s.reg.entries
    ensures Fulfilled(s.eng.readState, id) <= s.reg.entries[id].request
  {
    ReachableInv(dev, s);
  }

  lemma MarkedMeansFresh(dev: Device, s: Sys, id: WatchId, marker: nat)
    requires Inv(dev, s) && id in s.reg.entries && id !in s.hist.hollow
    requires 1 <= marker <= Fulfilled(s.eng.readState, id)
    ensures id in s.hist.origins && id in s.eng.builder.data && marker <= |s.hist.askedAt|
    ensures s.hist.askedAt[marker - 1] < s.hist.origins[id].at < s.now
    ensures s.eng.builder.data[id] == ReadMemory(dev(s.hist.origins[id].at), s.reg.entries[id].handle.region)
    ensures !InCycle(s.eng.phase) ==> s.eng.published.Bytes(id) == Some(s.eng.builder.data[id])
  {
    assert Fresh(s, id);
    assert EntryOk(dev, s.eng.builder, s.hist.origins, s.hist.issued, BuilderCycle(s.eng), id);
  }

  /** Once the fulfilled marker of a live watch covers a request, and its last reply reached it, the bytes the
      next snapshot carries for it are its region's memory at an instant after that request. */
  lemma FulfilledMeansFresh(dev: Device, s: Sys, id: WatchId, marker: nat)
    requires Reachable(dev, s) && id in s.reg.entries && id !in s.hist.hollow
    requires 1 <= marker <= Fulfilled(s.eng.readState, id)
    ensures id in s.hist.origins && id in s.eng.builder.data && marker <= |s.hist.askedAt|
    ensures s.hist.askedAt[marker - 1] < s.hist.origins[id].at < s.now
    ensures s.eng.builder.data[id] == ReadMemory(dev(s.hist.origins[id].at), s.reg.entries[id].handle.region)
    ensures !InCycle(s.eng.phase) ==> s.eng.published.Bytes(id) == Some(s.eng.builder.data[id])
  {
    ReachableInv(dev, s);
    MarkedMeansFresh(dev, s, id, marker);
  }

  /** A successful reply, of either tier, marks every watch it was sent for; exactly those its blobs reach have
      bytes read after the read was sent. */
  lemma ReplyFreshIffReached(dev: Device, s: Sys, step: Step, id: WatchId)
    requires Inv(dev, s) && Enabled(dev, s, step) && id in Ids(s.eng.flight)
    requires (step.RealtimeDone? || step.BulkDone?) && step.reply.Blobs?
    ensures var t, reached := Apply(s, step), Delivered(s.eng.flight, step.reply.blobs);
            && Fulfilled(t.eng.readState, id) == s.eng.requests[id]
            && ((id in t.hist.origins && t.hist.origins[id].at >= s.hist.flownAt) <==> id in reached)
            && (id in t.hist.hollow <==> id !in reached)
  {
    var blobs, at := step.reply.blobs, step.reply.at;
    if step.BulkDone? { BulkAnswers(s, blobs, at, step.rttMs, step.elapsedMs); }
    else { RealtimeAnswers(s, blobs, at, step.rttMs); }
    OriginsAppliedAt(s.hist.origins, s.eng.flight, blobs, at, s.eng.cycle, s.hist.flownAt, id);
  }

  /** One blob per read, none shorter than its region. */
  predicate InFull(rs: seq<CoalescedRead>, blobs: seq<seq<Byte>>) {
    |blobs| == |rs| && forall i :: 0 <= i < |rs| ==> |blobs[i]| >= rs[i].region.size
  }

  lemma {:induction false} FullReaches(rs: seq<CoalescedRead>, blobs: seq<seq<Byte>>)
    requires InFull(rs, blobs) && forall r :: r in rs ==> WellFormed(r)
    ensures Delivered(rs, blobs) == Ids(rs)
    decreases |rs|
  {
    if rs != [] {
      assert rs[0] in rs && rs == [rs[0]] + rs[1..];
      IdsCons(rs[0], rs[1..]);
      FullReaches(rs[1..], blobs[1..]);
      assert forall m :: m in rs[0].members ==> Reaches(blobs[0], m);
    }
  }

  predicate StepInFull(s: Sys, step: Step) {
    match step
    case RealtimeDone(Blobs(blobs, _), _) => InFull(s.eng.flight, blobs)
    case BulkDone(Blobs(blobs, _), _, _) => InFull(s.eng.flight, blobs)
    case _ => true
  }

  predicate RepliesInFull(s: Sys, steps: seq<Step>)
    decreases |steps|
  {
    steps == [] || (StepInFull(s, steps[0]) && RepliesInFull(Apply(s, steps[0]), steps[1..]))
  }

  /** What a full reply adds to the history. */
  lemma FullAnswerNotHollow(h: History, e: Engine, reply: Reply)
    requires h.hollow == {} && forall r :: r in e.flight ==> WellFormed(r)
    requires reply.Blobs? ==> InFull(e.flight, reply.blobs)
    ensures HistoryAnswered(h, e, reply).hollow == {}
  {
    if reply.Blobs? { FullReaches(e.flight, reply.blobs); }
  }

  lemma OtherStepKeepsHollow(s: Sys, step: Step)
    requires !step.RealtimeDone? && !step.BulkDone?
    ensures Apply(s, step).hist.hollow == s.hist.hollow
  {
  }

  lemma FullStepNotHollow(s: Sys, step: Step)
    requires StepInFull(s, step) && s.hist.hollow == {}
    requires step.RealtimeDone? || step.BulkDone? ==> forall r :: r in s.eng.flight ==> WellFormed(r)
    ensures Apply(s, step).hist.hollow == {}
  {
    match step {
      case RealtimeDone(reply, _) => FullAnswerNotHollow(s.hist, s.eng, reply);
      case BulkDone(reply, _, _) => FullAnswerNotHollow(s.hist, s.eng, reply);
      case _ => OtherStepKeepsHollow(s, step);
    }
  }

  lemma FlightWellFormed(dev: Device, s: Sys, step: Step)
    requires Inv(dev, s) && Enabled(dev, s, step) && (step.RealtimeDone? || step.BulkDone?)
    ensures forall r :: r in s.eng.flight ==> WellFormed(r)
  {
  }

  /** When the device answers in full, no watch is ever fulfilled without its bytes. */
  lemma {:induction false} FullRepliesNeverHollow(dev: Device, s: Sys, steps: seq<Step>)
    requires Inv(dev, s) && ValidRun(dev, s, steps) && RepliesInFull(s, steps) && s.hist.hollow == {}
    ensures Run(s, steps).hist.hollow == {}
    decreases |steps|
  {
    if steps != [] {
      if steps[0].RealtimeDone? || steps[0].BulkDone? { FlightWellFormed(dev, s, steps[0]); }
      FullStepNotHollow(s, steps[0]);
      StepKeepsInv(dev, s, steps[0]);
      FullRepliesNeverHollow(dev, Apply(s, steps[0]), steps[1..]);
    }
  }

  /** No false fulfilment, for a device that answers in full: in every such run, once the fulfilled marker of
      a live watch covers a request, its bytes were read after that request. */
  lemma FullRunsFulfilFreshly(dev: Device, cfg: PollConfig, steps: seq<Step>, id: WatchId, marker: nat)
    requires ValidRun(dev, Init(cfg), steps) && RepliesInFull(Init(cfg), steps)
    requires var s := Run(Init(cfg), steps); id in s.reg.entries && 1 <= marker <= Fulfilled(s.eng.readState, id)
    ensures var s := Run(Init(cfg), steps);
            && id in s.hist.origins && id in s.eng.builder.data && marker <= |s.hist.askedAt|
            && s.hist.askedAt[marker - 1] < s.hist.origins[id].at
            && s.eng.builder.data[id] == ReadMemory(dev(s.hist.origins[id].at), s.reg.entries[id].handle.region)
  {
    InitInv(dev, cfg);
    FullRepliesNeverHollow(dev, Init(cfg), steps);
    RunKeepsInv(dev, Init(cfg), steps);
    MarkedMeansFresh(dev, Run(Init(cfg), steps), id, marker);
  }

  // ---------------------------------------------------------------------------
  // No lost requests.

  /** A request is waiting when its marker is ahead of the fulfilled one. */
  predicate Waits(s: Sys, id: WatchId) {
    id in s.reg.entries && Fulfilled(s.eng.readState, id) < s.reg.entries[id].request
  }

  /** Only a successful reply to a read sent for a watch, carrying its very latest marker, ends its wait:
      not a failed reply, not publishing, and not the collection of old fulfilment state. */
  lemma OnlyRepliesEndWaits(dev: Device, s: Sys, step: Step, id: WatchId)
    requires Inv(dev, s) && Enabled(dev, s, step) && Waits(s, id) && id in Apply(s, step).reg.entries
    ensures Waits(Apply(s, step), id) || EndsWait(s, step, id)
  {
    if ScriptStep(step) {
      ScriptKeepsWait(dev, s, step, id);
    } else {
      EngineKeepsWait(s, step, id);
    }
  }

  predicate EndsWait(s: Sys, step: Step, id: WatchId) {
    && (step.RealtimeDone? || step.BulkDone?) && step.reply.Blobs?
    && id in Ids(s.eng.flight) && id in s.reg.entries && Requested(s.eng.requests, id) == s.reg.entries[id].request
  }

  lemma EngineKeepsWait(s: Sys, step: Step, id: WatchId)
    requires InCycle(s.eng.phase) ==> RequestsOk(s)
    requires InFlight(s.eng.phase) || !(step.RealtimeDone? || step.BulkDone?)
    requires !ScriptStep(step) && Waits(s, id)
    ensures Waits(Apply(s, step), id) || EndsWait(s, step, id)
  {
  }

  lemma ScriptKeepsWait(dev: Device, s: Sys, step: Step, id: WatchId)
    requires RegOk(s) && ScriptStep(step) && Enabled(dev, s, step) && Waits(s, id) && id in Apply(s, step).reg.entries
    ensures Waits(Apply(s, step), id)
  {
    ScriptStepRel(dev, s, step);
  }

  predicate NoCapture(steps: seq<Step>) { forall i :: 0 <= i < |steps| ==> !steps[i].Capture? }

  lemma AheadStep(dev: Device, s: Sys, step: Step, id: WatchId)
    requires RegOk(s) && Enabled(dev, s, step) && !step.Capture? && id in s.hist.issued
    requires id in s.reg.entries ==> s.reg.entries[id].request > s.hist.seen
    ensures var t := Apply(s, step);
            && id in t.hist.issued && t.hist.seen == s.hist.seen
            && (id in t.reg.entries ==> t.reg.entries[id].request > t.hist.seen)
  {
    if ScriptStep(step) { ScriptStepRel(dev, s, step); }
  }

  lemma {:induction false} StaysAhead(dev: Device, s: Sys, steps: seq<Step>, id: WatchId)
    requires Inv(dev, s) && ValidRun(dev, s, steps) && NoCapture(steps) && id in s.hist.issued
    requires id in s.reg.entries ==> s.reg.entries[id].request > s.hist.seen
    ensures var t := Run(s, steps); Inv(dev, t) && (id in t.reg.entries ==> t.reg.entries[id].request > t.hist.seen)
    decreases |steps|
  {
    if steps != [] {
      AheadStep(dev, s, steps[0], id);
      StepKeepsInv(dev, s, steps[0]);
      StaysAhead(dev, Apply(s, steps[0]), steps[1..], id);
    }
  }

  /** A touch stored at any point of a cycle, also while a read is in flight, stays waiting until the engine
      captures markers again: no reply to what was captured before can swallow it, not even if the capture came
      between drawing the touch's marker and storing it. */
  lemma TouchStaysPending(dev: Device, s: Sys, id: WatchId, clock: nat, steps: seq<Step>)
    requires Reachable(dev, s) && id in s.reg.entries && s.inHand > 0
    requires ValidRun(dev, Apply(s, Touch(id, clock)), steps) && NoCapture(steps)
    ensures var t := Run(Apply(s, Touch(id, clock)), steps);
            id in t.reg.entries ==> Fulfilled(t.eng.readState, id) < t.reg.entries[id].request
  {
    ReachableInv(dev, s);
    StepKeepsInv(dev, s, Touch(id, clock));
    StaysAhead(dev, Apply(s, Touch(id, clock)), steps, id);
  }

  // ---------------------------------------------------------------------------
  // Published snapshots.

  /** Every published snapshot is coherent: data, regions and ages have the same keys; each watch holds the
      device memory of its region at the instant of the last read that reached it; its age is the number of
      cycles since, saturating at the largest u32. */
  lemma PublishedCoherent(dev: Device, s: Sys)
    requires Reachable(dev, s)
    ensures Coherent(dev, s.eng.published.cache, s.hist.publishedOrigins, s.hist.issued, s.eng.published.cycle)
  {
    ReachableInv(dev, s);
  }

  /** No reply of the run succeeds. */
  predicate AllFail(steps: seq<Step>)
    decreases |steps|
  {
    steps == [] || ((steps[0].RealtimeDone? || steps[0].BulkDone? ==> steps[0].reply.Failed?) && AllFail(steps[1..]))
  }

  /** The watch has these bytes in the snapshot and, inside a cycle, in the builder. */
  predicate Holds(s: Sys, id: WatchId, bytes: Option<seq<Byte>>) {
    && s.eng.published.Bytes(id) == bytes
    && (InCycle(s.eng.phase) ==> Snapshot(s.eng.builder, 0, 0, 0).Bytes(id) == bytes)
    && (!s.eng.phase.Idle? ==> id in s.eng.liveIds)
  }

  /** The budget, what it is based on, and the marker fulfilled for the watch are the same. */
  predicate SameCredit(e: Engine, f: Engine, id: WatchId) {
    && e.budget == f.budget && e.throughput == f.throughput && e.latencyFloor == f.latencyFloor
    && Fulfilled(e.readState, id) == Fulfilled(f.readState, id)
  }

  lemma FailedAnswerHolds(s: Sys, step: Step, id: WatchId, bytes: Option<seq<Byte>>)
    requires (step.RealtimeDone? || step.BulkDone?) && step.reply.Failed? && InCycle(s.eng.phase) && Holds(s, id, bytes)
    ensures Holds(Apply(s, step), id, bytes) && SameCredit(Apply(s, step).eng, s.eng, id)
  {
  }

  lemma OtherStepHolds(dev: Device, s: Sys, step: Step, id: WatchId, bytes: Option<seq<Byte>>)
    requires RegOk(s) && Enabled(dev, s, step) && !step.RealtimeDone? && !step.BulkDone?
    requires id in s.reg.entries && Holds(s, id, bytes)
    ensures Holds(Apply(s, step), id, bytes) && SameCredit(Apply(s, step).eng, s.eng, id)
  {
    if step.Start? { HandlesMember(s.reg, s.reg.nextId, s.reg.entries[id].handle); }
  }

  lemma FailedStepHolds(dev: Device, s: Sys, step: Step, id: WatchId, bytes: Option<seq<Byte>>)
    requires RegOk(s) && Enabled(dev, s, step) && id in s.reg.entries && Holds(s, id, bytes)
    requires step.RealtimeDone? || step.BulkDone? ==> step.reply.Failed?
    ensures Holds(Apply(s, step), id, bytes) && SameCredit(Apply(s, step).eng, s.eng, id)
  {
    if step.RealtimeDone? || step.BulkDone? { FailedAnswerHolds(s, step, id, bytes); }
    else { OtherStepHolds(dev, s, step, id, bytes); }
  }

  /** While every read fails, however long, a watch that stays registered keeps the bytes the snapshot has for
      it and the marker it fulfilled, and the budget stays what it was. */
  lemma {:induction false} FailuresChangeNothing(dev: Device, s: Sys, steps: seq<Step>, id: WatchId,
      bytes: Option<seq<Byte>>)
    requires Inv(dev, s) && ValidRun(dev, s, steps) && AllFail(steps) && Holds(s, id, bytes)
    requires id in s.reg.entries && id in Run(s, steps).reg.entries
    ensures Holds(Run(s, steps), id, bytes) && SameCredit(Run(s, steps).eng, s.eng, id)
    decreases |steps|
  {
    if steps != [] {
      FailedStepHolds(dev, s, steps[0], id, bytes);
      StepKeepsInv(dev, s, steps[0]);
      StillThere(dev, s, steps, id);
      FailuresChangeNothing(dev, Apply(s, steps[0]), steps[1..], id, bytes);
    }
  }

  /** What is registered at the end of a run was registered after its first step. */
  lemma StillThere(dev: Device, s: Sys, steps: seq<Step>, id: WatchId)
    requires Inv(dev, s) && ValidRun(dev, s, steps) && steps != []
    requires id in s.reg.entries && id in Run(s, steps).reg.entries
    ensures id in Apply(s, steps[0]).reg.entries
  {
    var next := Apply(s, steps[0]);
    StepKeepsInv(dev, s, steps[0]);
    if id !in next.reg.entries {
      if ScriptStep(steps[0]) { ScriptStepRel(dev, s, steps[0]); }
      GoneForGood(dev, next, steps[1..], id);
    }
  }

  /** A watch that is registered and in the snapshot has its registered region there, and that many bytes,
      whatever was removed or reloaded meanwhile. */
  lemma SnapshotMatchesRegistration(dev: Device, s: Sys, id: WatchId)
    requires Reachable(dev, s) && id in s.reg.entries && s.eng.published.Bytes(id).Some?
    ensures s.eng.published.Region(id) == Some(s.reg.entries[id].handle.region)
    ensures |s.eng.published.Bytes(id).value| == s.reg.entries[id].handle.region.size
    ensures s.eng.published.WatchAge(id).Some?
  {
    ReachableInv(dev, s);
    assert EntryOk(dev, s.eng.published.cache, s.hist.publishedOrigins, s.hist.issued, s.eng.published.cycle, id);
  }

  lemma {:induction false} IssuedForever(dev: Device, s: Sys, steps: seq<Step>, id: WatchId)
    requires Inv(dev, s) && ValidRun(dev, s, steps) && id in s.hist.issued
    ensures var t := Run(s, steps); id in t.hist.issued && t.hist.issued[id] == s.hist.issued[id] && id < t.reg.nextId
    decreases |steps|
  {
    if steps != [] {
      if ScriptStep(steps[0]) { ScriptStepRel(dev, s, steps[0]); }
      StepKeepsInv(dev, s, steps[0]);
      IssuedForever(dev, Apply(s, steps[0]), steps[1..], id);
    }
  }

  /** Ids are never reused, even after `clear`: what a later registration gets differs from every id in use
      now, and a surviving id keeps its region. */
  lemma IdsNeverReused(dev: Device, s: Sys, steps: seq<Step>, region: MemRegion, priority: WatchPriority, clock: nat,
      marker: nat, id: WatchId)
    requires Reachable(dev, s) && ValidRun(dev, s, steps) && id in s.reg.entries
    ensures var t := Run(s, steps);
            && Registered(t.reg, region, priority, clock, marker).entries.Keys == t.reg.entries.Keys + {t.reg.nextId}
            && t.reg.nextId != id
            && (id in t.reg.entries ==> t.reg.entries[id].handle.region == s.reg.entries[id].handle.region)
  {
    ReachableInv(dev, s);
    IdKept(dev, s, steps, id);
  }

  lemma IdKept(dev: Device, s: Sys, steps: seq<Step>, id: WatchId)
    requires Inv(dev, s) && ValidRun(dev, s, steps) && id in s.reg.entries
    ensures var t := Run(s, steps);
            && t.reg.nextId != id
            && (id in t.reg.entries ==> t.reg.entries[id].handle.region == s.reg.entries[id].handle.region)
  {
    RunKeepsInv(dev, s, steps);
    IssuedForever(dev, s, steps, id);
  }

  /** `f` is what entry `e` may become while its watch stays registered. */
  predicate Advances(e: Entry, f: Entry) {
    && f.handle.id == e.handle.id && f.handle.region == e.handle.region
    && f.handle.priority.Rank() <= e.handle.priority.Rank()
    && e.request <= f.request && (e.pinned ==> f.pinned)
  }

  lemma EntryStep(dev: Device, s: Sys, step: Step, id: WatchId)
    requires RegOk(s) && Enabled(dev, s, step) && id in s.reg.entries && id in Apply(s, step).reg.entries
    ensures Advances(s.reg.entries[id], Apply(s, step).reg.entries[id])
  {
  }

  lemma GoneStep(dev: Device, s: Sys, step: Step, id: WatchId)
    requires RegOk(s) && Enabled(dev, s, step) && id in s.hist.issued && id !in s.reg.entries
    ensures id !in Apply(s, step).reg.entries && id in Apply(s, step).hist.issued
  {
  }

  lemma {:induction false} GoneForGood(dev: Device, s: Sys, steps: seq<Step>, id: WatchId)
    requires Inv(dev, s) && ValidRun(dev, s, steps) && id in s.hist.issued && id !in s.reg.entries
    ensures id !in Run(s, steps).reg.entries
    decreases |steps|
  {
    if steps != [] {
      GoneStep(dev, s, steps[0], id);
      StepKeepsInv(dev, s, steps[0]);
      GoneForGood(dev, Apply(s, steps[0]), steps[1..], id);
    }
  }

  /** Over every run a watch that is still registered kept its region, only became more urgent, only moved its
      marker forward, and stayed pinned if it was; a watch that was removed never comes back. */
  lemma {:induction false} EntriesOnlyAdvance(dev: Device, s: Sys, steps: seq<Step>, id: WatchId)
    requires Inv(dev, s) && ValidRun(dev, s, steps) && id in s.reg.entries
    ensures var t := Run(s, steps); id in t.reg.entries ==> Advances(s.reg.entries[id], t.reg.entries[id])
    decreases |steps|
  {
    if steps != [] {
      var next := Apply(s, steps[0]);
      StepKeepsInv(dev, s, steps[0]);
      if id in next.reg.entries {
        EntryStep(dev, s, steps[0], id);
        EntriesOnlyAdvance(dev, next, steps[1..], id);
      } else {
        if ScriptStep(steps[0]) { ScriptStepRel(dev, s, steps[0]); }
        GoneForGood(dev, next, steps[1..], id);
      }
    }
  }

  // ---------------------------------------------------------------------------
  // What a cycle takes on.

  predicate BulkEntry(v: Reg, id: WatchId) { id in v.entries && !v.entries[id].handle.priority.Realtime? }

  /** The capture takes exactly the active watches, non-realtime ones into the bulk reads, each with the
      marker it carries at that instant. */
  lemma CaptureExact(s: Sys, clock: nat, id: WatchId)
    requires RegOk(s)
    ensures var t := Apply(s, Capture(clock));
            && (id in t.eng.requests <==>
                  id in s.reg.entries && IsActive(s.reg.entries[id], clock, s.eng.cfg.demandWindow))
            && (id in t.eng.requests ==> t.eng.requests[id] == s.reg.entries[id].request)
            && (id in Ids(t.eng.bulk) <==> id in t.eng.requests && BulkEntry(s.reg, id))
  {
    var active := ActiveAt(s, clock);
    CaptureRequests(s, clock);
    CapturedIds(s, clock, id);
    CapturedTier(s, clock, id);
  }

  /** A pinned or upgraded watch is in the poll set of every later cycle for as long as it stays registered,
      whether or not a script reads it, and however the window is configured. */
  lemma PinnedAlwaysActive(dev: Device, s: Sys, pin: Step, id: WatchId, steps: seq<Step>, clock: nat)
    requires Reachable(dev, s) && id in s.reg.entries && s.inHand > 0
    requires (pin.Pin? || pin.Upgrade?) && pin.id == id && ValidRun(dev, Apply(s, pin), steps)
    ensures var t := Run(Apply(s, pin), steps);
            id in t.reg.entries ==> id in Apply(t, Capture(clock)).eng.requests
  {
    ReachableInv(dev, s);
    StepKeepsInv(dev, s, pin);
    PinnedRun(dev, Apply(s, pin), id, steps, clock);
  }

  lemma PinnedRun(dev: Device, s: Sys, id: WatchId, steps: seq<Step>, clock: nat)
    requires Inv(dev, s) && id in s.reg.entries && s.reg.entries[id].pinned && ValidRun(dev, s, steps)
    ensures var t := Run(s, steps); id in t.reg.entries ==> id in Apply(t, Capture(clock)).eng.requests
  {
    EntriesOnlyAdvance(dev, s, steps, id);
    RunKeepsInv(dev, s, steps);
    CaptureExact(Run(s, steps), clock, id);
  }

  lemma CapturedIds(s: Sys, clock: nat, id: WatchId)
    requires RegOk(s)
    ensures var req := RequestMap(ActiveAt(s, clock));
            && (id in req <==> id in s.reg.entries && IsActive(s.reg.entries[id], clock, s.eng.cfg.demandWindow))
            && (id in req ==> req[id] == s.reg.entries[id].request)
  {
    var active := ActiveAt(s, clock);
    RequestMapMember(active, id);
    if id in RequestMap(active) {
      var p :| p in active && p.0.id == id && p.1 == RequestMap(active)[id];
      assert p == (p.0, p.1);
      ActiveMember(s.reg, s.reg.nextId, clock, s.eng.cfg.demandWindow, p.0, p.1);
    }
    if id in s.reg.entries {
      var e := s.reg.entries[id];
      ActiveMember(s.reg, s.reg.nextId, clock, s.eng.cfg.demandWindow, e.handle, e.request);
    }
  }

  lemma CapturedTier(s: Sys, clock: nat, id: WatchId)
    requires RegOk(s)
    ensures id in Ids(Captured(s.eng, ActiveAt(s, clock)).bulk)
       <==> id in RequestMap(ActiveAt(s, clock)) && BulkEntry(s.reg, id)
  {
    var active := ActiveAt(s, clock);
    BR.CoalescedIds(BulkOf(active), s.eng.cfg.coalesceGap, id);
    CapturedIds(s, clock, id);
    if w :| w in BulkOf(active) && w.id == id {
      TierEntry(s, clock, w);
      TiersMember(active, w);
    }
    if id in RequestMap(active) && BulkEntry(s.reg, id) {
      var e := s.reg.entries[id];
      ActiveMember(s.reg, s.reg.nextId, clock, s.eng.cfg.demandWindow, e.handle, e.request);
      TiersMember(active, e.handle);
    }
  }

  lemma DistinctRest(active: seq<(WatchHandle, nat)>)
    requires active != [] && DistinctActive(active)
    ensures DistinctActive(active[1..]) && forall p :: p in active[1..] ==> p.0.id != active[0].0.id
  {
  }

  lemma {:induction false} TiersDistinct(active: seq<(WatchHandle, nat)>)
    requires DistinctActive(active)
    ensures DistinctIds(BulkOf(active)) && DistinctIds(RealtimeOf(active))
    decreases |active|
  {
    if active != [] {
      var head, rest := active[0].0, active[1..];
      DistinctRest(active);
      TiersDistinct(rest);
      forall w | w in BulkOf(rest) || w in RealtimeOf(rest) ensures w.id != head.id { TiersMember(rest, w); }
      CT.DistinctCons(head, BulkOf(rest));
      CT.DistinctCons(head, RealtimeOf(rest));
      assert [] + BulkOf(rest) == BulkOf(rest) && [] + RealtimeOf(rest) == RealtimeOf(rest);
    }
  }

  /** What any reachable capture takes on can be read in batches: whatever the budget, full replies read from
      one memory give every captured bulk watch the bytes of its registered region. */
  lemma CapturedReadInBatches(dev: Device, s: Sys, clock: nat, id: WatchId, budget: nat, blobs: seq<seq<Byte>>,
      mem: Memory)
    requires Reachable(dev, s) && s.eng.phase.SawAll?
    requires var t := Apply(s, Capture(clock));
             id in Ids(t.eng.bulk) && FullReply(blobs, Split.SplitReads(t.eng.bulk, budget), mem)
    ensures var t := Apply(s, Capture(clock));
            var c := Applied(t.eng.builder, Split.SplitReads(t.eng.bulk, budget), blobs);
            id in s.reg.entries && id in c.data && c.data[id] == ReadMemory(mem, s.reg.entries[id].handle.region)
  {
    ReachableInv(dev, s);
    var active := ActiveAt(s, clock);
    var ws, gap := BulkOf(active), s.eng.cfg.coalesceGap;
    ActiveDistinct(s.reg, s.reg.nextId, clock, s.eng.cfg.demandWindow);
    TiersDistinct(active);
    forall w | w in ws ensures w.region.Fits() { TierEntry(s, clock, w); }
    BR.CoalescedIds(ws, gap, id);
    var w :| w in ws && w.id == id;
    TierEntry(s, clock, w);
    BR.BatchingReadsEveryWatch(Apply(s, Capture(clock)).eng.builder, ws, gap, budget, blobs, mem, w);
  }

  /** A successful realtime read serves every captured realtime watch at once: its captured marker is fulfilled
      in this very cycle, before the drain loop begins. */
  lemma RealtimeServed(e: Engine, blobs: seq<seq<Byte>>, at: seq<nat>, rttMs: nat, w: WatchHandle)
    requires w in e.realtime && w.id in e.requests
    ensures var t := RealtimeAnswered(RealtimeIssued(e), Blobs(blobs, at), rttMs);
            && Fulfilled(t.readState, w.id) == e.requests[w.id] && Refresh(t.readState, w.id) == e.cycle
            && t.phase.Draining?
  {
    BR.CoalescedIds(e.realtime, e.cfg.coalesceGap, w.id);
  }
}
