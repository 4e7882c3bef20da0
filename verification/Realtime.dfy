/** The realtime tier over runs: each of its watches is read in every cycle. */
module RealtimeTiers {
  import opened Types
  import opened Snapshots
  import opened Registry
  import opened Cycle
  import opened System
  import opened Invariant
  import opened EngineSteps
  import opened Properties
  import BR = BatchedReads

  /** The realtime reads of the run succeed in full, and no new cycle starts in it. */
  predicate OneCycle(s: Sys, steps: seq<Step>)
    decreases |steps|
  {
    steps == [] || (WithinCycle(s, steps[0]) && OneCycle(Apply(s, steps[0]), steps[1..]))
  }

  predicate WithinCycle(s: Sys, step: Step) {
    !step.Start? && !step.Capture? && (step.RealtimeDone? ==> step.reply.Blobs? && StepInFull(s, step))
  }

  /** `id` is on its way to this cycle's snapshot, with bytes read no earlier than `since`. */
  predicate OnItsWay(s: Sys, id: WatchId, since: nat) {
    && since <= s.now && (InFlight(s.eng.phase) ==> since <= s.hist.flownAt)
    && match s.eng.phase {
         case SawAll => false
         case RealtimeReady => exists w :: w in s.eng.realtime && w.id == id
         case RealtimeInFlight => id in Ids(s.eng.flight)
         case _ => Arrived(s, id, since)
       }
  }

  predicate Arrived(s: Sys, id: WatchId, since: nat) {
    id in s.hist.origins && s.hist.origins[id].at >= since && s.hist.origins[id].cycle == s.eng.cycle
  }

  lemma SendOnItsWay(s: Sys, id: WatchId, since: nat)
    requires s.eng.phase.RealtimeReady? && OnItsWay(s, id, since)
    ensures OnItsWay(Apply(s, IssueRealtime), id, since)
  {
    BR.CoalescedIds(s.eng.realtime, s.eng.cfg.coalesceGap, id);
  }

  lemma RealtimeArrives(dev: Device, s: Sys, reply: Reply, rttMs: nat, id: WatchId, since: nat)
    requires Inv(dev, s) && Enabled(dev, s, RealtimeDone(reply, rttMs)) && WithinCycle(s, RealtimeDone(reply, rttMs))
    requires OnItsWay(s, id, since)
    ensures OnItsWay(Apply(s, RealtimeDone(reply, rttMs)), id, since)
  {
    RealtimeAnswers(s, reply.blobs, reply.at, rttMs);
    FlightWellFormed(dev, s, RealtimeDone(reply, rttMs));
    FullReaches(s.eng.flight, reply.blobs);
    OriginsAppliedAt(s.hist.origins, s.eng.flight, reply.blobs, reply.at, s.eng.cycle, s.hist.flownAt, id);
  }

  lemma BulkKeepsArrived(dev: Device, s: Sys, step: Step, id: WatchId, since: nat)
    requires Enabled(dev, s, step) && step.BulkDone? && OnItsWay(s, id, since)
    ensures OnItsWay(Apply(s, step), id, since)
  {
    if step.reply.Blobs? {
      var blobs, at := step.reply.blobs, step.reply.at;
      BulkAnswers(s, blobs, at, step.rttMs, step.elapsedMs);
      OriginsAppliedAt(s.hist.origins, s.eng.flight, blobs, at, s.eng.cycle, s.hist.flownAt, id);
    }
  }

  lemma OtherOnItsWay(dev: Device, s: Sys, step: Step, id: WatchId, since: nat)
    requires Enabled(dev, s, step) && WithinCycle(s, step) && OnItsWay(s, id, since)
    requires !step.IssueRealtime? && !step.RealtimeDone? && !step.BulkDone?
    ensures OnItsWay(Apply(s, step), id, since)
  {
  }

  lemma StepOnItsWay(dev: Device, s: Sys, step: Step, id: WatchId, since: nat)
    requires Inv(dev, s) && Enabled(dev, s, step) && WithinCycle(s, step) && OnItsWay(s, id, since)
    ensures OnItsWay(Apply(s, step), id, since)
  {
    match step {
      case IssueRealtime => SendOnItsWay(s, id, since);
      case RealtimeDone(reply, rttMs) => RealtimeArrives(dev, s, reply, rttMs, id, since);
      case BulkDone(_, _, _) => BulkKeepsArrived(dev, s, step, id, since);
      case _ => OtherOnItsWay(dev, s, step, id, since);
    }
  }

  lemma {:induction false} RunOnItsWay(dev: Device, s: Sys, steps: seq<Step>, id: WatchId, since: nat)
    requires Inv(dev, s) && ValidRun(dev, s, steps) && OneCycle(s, steps) && OnItsWay(s, id, since)
    ensures Inv(dev, Run(s, steps)) && OnItsWay(Run(s, steps), id, since)
    decreases |steps|
  {
    if steps != [] {
      StepOnItsWay(dev, s, steps[0], id, since);
      StepKeepsInv(dev, s, steps[0]);
      RunOnItsWay(dev, Apply(s, steps[0]), steps[1..], id, since);
    }
  }

  /** The snapshot holds the watch at age 0, with its region's memory at an instant from `since` on. */
  predicate FreshIn(dev: Device, s: Sys, id: WatchId, region: MemRegion, since: nat) {
    && s.eng.published.WatchAge(id) == Some(0) && s.eng.published.Region(id) == Some(region)
    && id in s.hist.publishedOrigins && s.hist.publishedOrigins[id].at >= since
    && s.hist.publishedOrigins[id].cycle == s.eng.published.cycle
    && s.eng.published.Bytes(id) == Some(ReadMemory(dev(s.hist.publishedOrigins[id].at), region))
  }

  lemma ArrivedIsPublished(dev: Device, s: Sys, id: WatchId, region: MemRegion, since: nat)
    requires Inv(dev, s) && (s.eng.phase.Published? || s.eng.phase.Idle?) && Arrived(s, id, since)
    requires id in s.hist.issued && s.hist.issued[id] == region
    ensures FreshIn(dev, s, id, region, since)
  {
    assert EntryOk(dev, s.eng.published.cache, s.hist.publishedOrigins, s.hist.issued, s.eng.published.cycle, id);
  }

  lemma CapturedIssued(dev: Device, s: Sys, w: WatchHandle)
    requires Inv(dev, s) && s.eng.phase.RealtimeReady? && w in s.eng.realtime
    ensures w.id in s.hist.issued && s.hist.issued[w.id] == w.region
  {
  }

  /** The realtime tier of a cycle is exactly the active realtime watches. */
  lemma RealtimeCaptured(s: Sys, clock: nat, w: WatchHandle)
    requires RegOk(s)
    ensures w in Apply(s, Capture(clock)).eng.realtime
       <==> w.id in s.reg.entries && s.reg.entries[w.id].handle == w && w.priority.Realtime?
            && IsActive(s.reg.entries[w.id], clock, s.eng.cfg.demandWindow)
  {
    var active := ActiveAt(s, clock);
    TiersMember(active, w);
    forall p | p in active && p.0 == w
      ensures w.id in s.reg.entries && s.reg.entries[w.id].handle == w
              && IsActive(s.reg.entries[w.id], clock, s.eng.cfg.demandWindow)
    {
      assert p == (p.0, p.1);
      ActiveMember(s.reg, s.reg.nextId, clock, s.eng.cfg.demandWindow, p.0, p.1);
    }
    if w.id in s.reg.entries {
      ActiveMember(s.reg, s.reg.nextId, clock, s.eng.cfg.demandWindow, w, s.reg.entries[w.id].request);
    }
  }

  /** Every realtime watch a cycle captures is in the snapshot that cycle publishes, at age 0 and with its region's
      memory at an instant after the capture, if the cycle's realtime read succeeds in full: whatever becomes of
      the bulk reads, and whatever the script does meanwhile, even removing the watch. */
  lemma RealtimeEveryCycle(dev: Device, s: Sys, w: WatchHandle, steps: seq<Step>)
    requires Reachable(dev, s) && s.eng.phase.RealtimeReady? && w in s.eng.realtime
    requires ValidRun(dev, s, steps) && OneCycle(s, steps)
    ensures var t := Run(s, steps);
            (t.eng.phase.Published? || t.eng.phase.Idle?) ==>
              t.eng.published.cycle == s.eng.cycle && FreshIn(dev, t, w.id, w.region, s.now)
  {
    ReachableInv(dev, s);
    CapturedIssued(dev, s, w);
    RunOnItsWay(dev, s, steps, w.id, s.now);
    IssuedForever(dev, s, steps, w.id);
    SameCycle(dev, s, steps);
    var t := Run(s, steps);
    if t.eng.phase.Published? || t.eng.phase.Idle? { ArrivedIsPublished(dev, t, w.id, w.region, s.now); }
  }

  lemma CycleKept(s: Sys, step: Step)
    requires !step.Start?
    ensures Apply(s, step).eng.cycle == s.eng.cycle
  {
  }

  lemma {:induction false} SameCycle(dev: Device, s: Sys, steps: seq<Step>)
    requires Inv(dev, s) && ValidRun(dev, s, steps) && OneCycle(s, steps)
    ensures var t := Run(s, steps);
            t.eng.cycle == s.eng.cycle
            && (t.eng.phase.Published? || t.eng.phase.Idle? ==> t.eng.published.cycle == s.eng.cycle)
    decreases |steps|
  {
    if steps != [] {
      CycleKept(s, steps[0]);
      StepKeepsInv(dev, s, steps[0]);
      SameCycle(dev, Apply(s, steps[0]), steps[1..]);
    }
  }

  // ---------------------------------------------------------------------------
  // Touches.

  lemma {:induction false} TimePasses(s: Sys, steps: seq<Step>)
    ensures Run(s, steps).now == s.now + |steps|
    decreases |steps|
  {
    if steps != [] { TimePasses(Apply(s, steps[0]), steps[1..]); }
  }

  /** Every touch of a realtime watch is answered by the next cycle that captures it: with that cycle's realtime
      read answered in full, its snapshot holds the watch at age 0, read after the touch. */
  lemma RealtimeTouchAnswered(dev: Device, s: Sys, id: WatchId, clock: nat, before: seq<Step>, w: WatchHandle,
      steps: seq<Step>)
    requires Reachable(dev, s) && s.inHand > 0 && id in s.reg.entries
    requires ValidRun(dev, Apply(s, Touch(id, clock)), before)
    requires var u := Run(Apply(s, Touch(id, clock)), before);
             && u.eng.phase.RealtimeReady? && w in u.eng.realtime && w.id == id
             && ValidRun(dev, u, steps) && OneCycle(u, steps)
    ensures var t := Run(Run(Apply(s, Touch(id, clock)), before), steps);
            (t.eng.phase.Published? || t.eng.phase.Idle?) ==> FreshIn(dev, t, id, w.region, s.now + 1)
  {
    var touched := Apply(s, Touch(id, clock));
    ReachStep(dev, s, Touch(id, clock));
    ReachRun(dev, touched, before);
    TimePasses(touched, before);
    RealtimeEveryCycle(dev, Run(touched, before), w, steps);
  }
}
