/** What a running engine keeps in order: the latency it observed, the ages it reports, and watches that are gone. */
module Housekeeping {
  import opened Types
  import opened Coalesce
  import opened Fulfil
  import opened Budget
  import opened Snapshots
  import opened Registry
  import opened Cycle
  import opened System
  import opened Drain
  import opened Invariant
  import opened EngineSteps
  import opened Properties

  // ---------------------------------------------------------------------------
  // Latency.

  predicate Succeeds(step: Step) { (step.RealtimeDone? || step.BulkDone?) && step.reply.Blobs? }

  function Sample(step: Step): real
    requires Succeeds(step)
  {
    if step.rttMs >= 1 then step.rttMs as real else 1.0
  }

  /** `f` is the least of `from`, if there is one, and the round trips of the successful reads of `steps`. */
  predicate LeastOf(f: Option<real>, from: Option<real>, steps: seq<Step>) {
    && (f.None? <==> from.None? && forall i :: 0 <= i < |steps| ==> !Succeeds(steps[i]))
    && (f.Some? && from.Some? ==> f.value <= from.value)
    && (f.Some? ==> forall i :: 0 <= i < |steps| && Succeeds(steps[i]) ==> f.value <= Sample(steps[i]))
    && (f.Some? ==> f == from || exists i :: 0 <= i < |steps| && Succeeds(steps[i]) && f.value == Sample(steps[i]))
  }

  lemma FloorStep(s: Sys, step: Step)
    ensures LeastOf(Apply(s, step).eng.latencyFloor, s.eng.latencyFloor, [step])
  {
    var f := Apply(s, step).eng.latencyFloor;
    assert [step][0] == step;
    if Succeeds(step) { assert f == ObserveLatencyFloor(s.eng.latencyFloor, step.rttMs); }
    else { assert f == s.eng.latencyFloor; }
  }

  lemma LeastOn(f: Option<real>, mid: Option<real>, from: Option<real>, step: Step, rest: seq<Step>)
    requires LeastOf(mid, from, [step]) && LeastOf(f, mid, rest)
    ensures LeastOf(f, from, [step] + rest)
  {
    var all := [step] + rest;
    assert all[0] == step == [step][0];
    assert forall i :: 0 <= i < |rest| ==> all[i + 1] == rest[i];
    forall i | 0 <= i < |all| && Succeeds(all[i]) && f.Some? ensures f.value <= Sample(all[i]) {
      if i > 0 { assert all[i] == rest[i - 1]; }
    }
    if f.None? { forall i | 0 <= i < |all| ensures !Succeeds(all[i]) { if i > 0 { assert all[i] == rest[i - 1]; } } }
  }

  /** In every run, the latency floor is the least round trip of all successful reads so far, in both tiers. */
  lemma {:induction false} FloorIsLeast(s: Sys, steps: seq<Step>)
    ensures LeastOf(Run(s, steps).eng.latencyFloor, s.eng.latencyFloor, steps)
    decreases |steps|
  {
    if steps != [] {
      FloorStep(s, steps[0]);
      FloorIsLeast(Apply(s, steps[0]), steps[1..]);
      LeastOn(Run(s, steps).eng.latencyFloor, Apply(s, steps[0]).eng.latencyFloor, s.eng.latencyFloor, steps[0],
          steps[1..]);
      assert steps == [steps[0]] + steps[1..];
    }
  }

  /** `m` is the greatest of `from` and the round trips of the bulk reads of `steps`. */
  predicate WorstOf(m: nat, from: nat, steps: seq<Step>)
    decreases |steps|
  {
    if steps == [] then m == from
    else if steps[0].BulkDone? && steps[0].rttMs > from then WorstOf(m, steps[0].rttMs, steps[1..])
    else WorstOf(m, from, steps[1..])
  }

  lemma WorstStep(s: Sys, step: Step)
    requires !step.Start?
    ensures Apply(s, step).eng.worstRtt
         == if step.BulkDone? && step.rttMs > s.eng.worstRtt then step.rttMs else s.eng.worstRtt
  {
  }

  /** Within a cycle, the round trip that will be published is the worst of its bulk reads, failed ones included. */
  lemma {:induction false} WorstIsGreatest(s: Sys, steps: seq<Step>)
    requires NoStart(steps)
    ensures WorstOf(Run(s, steps).eng.worstRtt, s.eng.worstRtt, steps)
    decreases |steps|
  {
    if steps != [] {
      WorstStep(s, steps[0]);
      WorstIsGreatest(Apply(s, steps[0]), steps[1..]);
    }
  }

  // ---------------------------------------------------------------------------
  // Retention.

  /** A cycle begins with exactly the registered watches. */
  lemma StartSeesAll(s: Sys, cfg: PollConfig)
    requires RegOk(s)
    ensures Apply(s, Start(cfg)).eng.liveIds == s.reg.entries.Keys
  {
    var ws := HandlesBelow(s.reg.entries, s.reg.nextId);
    forall id ensures id in IdsOf(ws) <==> id in s.reg.entries {
      if id in s.reg.entries { HandlesMember(s.reg, s.reg.nextId, s.reg.entries[id].handle); }
      if id in IdsOf(ws) {
        var w :| w in ws && w.id == id;
        HandlesMember(s.reg, s.reg.nextId, w);
      }
    }
  }

  lemma {:induction false} DeliveredFlew(rs: seq<CoalescedRead>, blobs: seq<seq<Byte>>, id: WatchId)
    requires id in Delivered(rs, blobs)
    ensures id in Ids(rs)
    decreases |rs|
  {
    assert rs[0] in rs;
    if id in Delivered(rs[1..], blobs[1..]) {
      DeliveredFlew(rs[1..], blobs[1..], id);
      var r, m :| r in rs[1..] && m in r.members && m.id == id;
      assert r in rs;
    }
  }

  /** `id` was removed before the cycle began, and is on its way out. */
  predicate Leaving(s: Sys, id: WatchId) {
    && id in s.hist.issued && id !in s.reg.entries
    && match s.eng.phase {
         case SawAll => id !in s.eng.liveIds
         case _ => id !in s.hist.origins && (InCycle(s.eng.phase) ==> id !in s.eng.requests)
       }
  }

  lemma CaptureLeaves(s: Sys, clock: nat, id: WatchId)
    requires RegOk(s) && s.eng.phase.SawAll? && Leaving(s, id)
    ensures Leaving(Apply(s, Capture(clock)), id)
  {
    CaptureExact(s, clock, id);
  }

  lemma AnswerLeaves(dev: Device, s: Sys, step: Step, id: WatchId)
    requires Inv(dev, s) && Enabled(dev, s, step) && (step.RealtimeDone? || step.BulkDone?) && Leaving(s, id)
    ensures Leaving(Apply(s, step), id)
  {
    if step.reply.Blobs? {
      var blobs, at := step.reply.blobs, step.reply.at;
      if step.BulkDone? { BulkAnswers(s, blobs, at, step.rttMs, step.elapsedMs); }
      else { RealtimeAnswers(s, blobs, at, step.rttMs); }
      OriginsAppliedAt(s.hist.origins, s.eng.flight, blobs, at, s.eng.cycle, s.hist.flownAt, id);
      if id in Delivered(s.eng.flight, blobs) { DeliveredFlew(s.eng.flight, blobs, id); }
    }
  }

  lemma OtherLeaves(dev: Device, s: Sys, step: Step, id: WatchId)
    requires RegOk(s) && Enabled(dev, s, step) && Leaving(s, id)
    requires !step.Start? && !step.Capture? && !step.RealtimeDone? && !step.BulkDone?
    ensures Leaving(Apply(s, step), id)
  {
    GoneStep(dev, s, step, id);
  }

  lemma LeavingStep(dev: Device, s: Sys, step: Step, id: WatchId)
    requires Inv(dev, s) && Enabled(dev, s, step) && Leaving(s, id) && !step.Start?
    ensures Leaving(Apply(s, step), id)
  {
    match step {
      case Capture(clock) => CaptureLeaves(s, clock, id);
      case RealtimeDone(_, _) => AnswerLeaves(dev, s, step, id);
      case BulkDone(_, _, _) => AnswerLeaves(dev, s, step, id);
      case _ => OtherLeaves(dev, s, step, id);
    }
  }

  predicate NoStart(steps: seq<Step>)
    decreases |steps|
  {
    steps == [] || (!steps[0].Start? && NoStart(steps[1..]))
  }

  lemma {:induction false} LeavingRun(dev: Device, s: Sys, steps: seq<Step>, id: WatchId)
    requires Inv(dev, s) && ValidRun(dev, s, steps) && NoStart(steps) && Leaving(s, id)
    ensures Inv(dev, Run(s, steps)) && Leaving(Run(s, steps), id)
    decreases |steps|
  {
    if steps != [] {
      LeavingStep(dev, s, steps[0], id);
      StepKeepsInv(dev, s, steps[0]);
      LeavingRun(dev, Apply(s, steps[0]), steps[1..], id);
    }
  }

  lemma StartLeaving(s: Sys, cfg: PollConfig, id: WatchId)
    requires RegOk(s) && id in s.hist.issued && id !in s.reg.entries
    ensures Leaving(Apply(s, Start(cfg)), id)
  {
    StartSeesAll(s, cfg);
  }

  predicate AbsentFrom(p: Snapshot, id: WatchId) {
    p.Bytes(id) == None && p.Region(id) == None && p.WatchAge(id) == None
  }

  lemma LeftSnapshot(dev: Device, s: Sys, id: WatchId)
    requires Inv(dev, s) && Leaving(s, id) && (s.eng.phase.Published? || s.eng.phase.Idle?)
    ensures AbsentFrom(s.eng.published, id)
  {
  }

  /** A watch removed before a cycle begins is gone from the snapshot that cycle publishes, whatever happens. */
  lemma RemovedLeavesSnapshot(dev: Device, s: Sys, cfg: PollConfig, steps: seq<Step>, id: WatchId)
    requires Reachable(dev, s) && Enabled(dev, s, Start(cfg)) && id in s.hist.issued && id !in s.reg.entries
    requires ValidRun(dev, Apply(s, Start(cfg)), steps) && NoStart(steps)
    ensures var t := Run(Apply(s, Start(cfg)), steps);
            t.eng.phase.Published? || t.eng.phase.Idle? ==> AbsentFrom(t.eng.published, id)
  {
    ReachableInv(dev, s);
    StartLeaving(s, cfg, id);
    StepKeepsInv(dev, s, Start(cfg));
    LeavingRun(dev, Apply(s, Start(cfg)), steps, id);
    var t := Run(Apply(s, Start(cfg)), steps);
    if t.eng.phase.Published? || t.eng.phase.Idle? { LeftSnapshot(dev, t, id); }
  }

  // ---------------------------------------------------------------------------
  // Ages.

  /** The cycle in which a watch counts as refreshed is the one its bytes are from. */
  predicate RefreshIsOrigin(s: Sys) {
    forall id :: id in s.eng.readState && id in s.hist.origins && id !in s.hist.hollow ==>
      s.hist.origins[id].cycle == s.eng.readState[id].refresh
  }

  lemma AnswerRefreshes(dev: Device, s: Sys, step: Step)
    requires Inv(dev, s) && Enabled(dev, s, step) && (step.RealtimeDone? || step.BulkDone?) && step.reply.Blobs?
    requires RefreshIsOrigin(s)
    ensures RefreshIsOrigin(Apply(s, step))
  {
    var t, blobs, at := Apply(s, step), step.reply.blobs, step.reply.at;
    if step.BulkDone? { BulkAnswers(s, blobs, at, step.rttMs, step.elapsedMs); }
    else { RealtimeAnswers(s, blobs, at, step.rttMs); }
    forall id | id in t.eng.readState && id in t.hist.origins && id !in t.hist.hollow
      ensures t.hist.origins[id].cycle == t.eng.readState[id].refresh
    {
      OriginsAppliedAt(s.hist.origins, s.eng.flight, blobs, at, s.eng.cycle, s.hist.flownAt, id);
      if id in Delivered(s.eng.flight, blobs) { DeliveredFlew(s.eng.flight, blobs, id); }
    }
  }

  lemma FewerRefreshes(s: Sys, t: Sys)
    requires RefreshIsOrigin(s) && t.hist.hollow == s.hist.hollow
    requires forall id :: id in t.eng.readState ==> id in s.eng.readState && t.eng.readState[id] == s.eng.readState[id]
    requires forall id :: id in t.hist.origins ==> id in s.hist.origins && t.hist.origins[id] == s.hist.origins[id]
    ensures RefreshIsOrigin(t)
  {
  }

  lemma OtherRefreshes(dev: Device, s: Sys, step: Step)
    requires CacheOk(dev, s) && Enabled(dev, s, step) && RefreshIsOrigin(s)
    requires step.RealtimeDone? || step.BulkDone? ==> step.reply.Failed?
    ensures RefreshIsOrigin(Apply(s, step))
  {
    FewerRefreshes(s, Apply(s, step));
  }

  lemma {:induction false} RunRefreshes(dev: Device, s: Sys, steps: seq<Step>)
    requires Inv(dev, s) && ValidRun(dev, s, steps) && RefreshIsOrigin(s)
    ensures RefreshIsOrigin(Run(s, steps))
    decreases |steps|
  {
    if steps != [] {
      if Succeeds(steps[0]) { AnswerRefreshes(dev, s, steps[0]); } else { OtherRefreshes(dev, s, steps[0]); }
      StepKeepsInv(dev, s, steps[0]);
      RunRefreshes(dev, Apply(s, steps[0]), steps[1..]);
    }
  }

  lemma ReachableRefreshes(dev: Device, s: Sys)
    requires Reachable(dev, s)
    ensures RefreshIsOrigin(s)
  {
    var cfg, steps :| ValidRun(dev, Init(cfg), steps) && Run(Init(cfg), steps) == s;
    InitInv(dev, cfg);
    RunRefreshes(dev, Init(cfg), steps);
  }

  /** The age the backlog report gives a registered watch is the age scripts see in the snapshot of that cycle, if its
      last reply reached it. */
  lemma BacklogAgesAgree(dev: Device, s: Sys, id: WatchId)
    requires Reachable(dev, s) && s.eng.phase.Drained?
    requires id in s.eng.readState && id in s.reg.entries && id !in s.hist.hollow
    ensures Apply(s, Publish).eng.published.WatchAge(id) == Some(Min(Age(s.eng.readState, s.eng.cycle, id), U32_MAX))
  {
    ReachableInv(dev, s);
    ReachableRefreshes(dev, s);
    AgeFromOrigin(dev, s, id);
  }

  lemma AgeFromOrigin(dev: Device, s: Sys, id: WatchId)
    requires CacheOk(dev, s) && FreshOk(s) && RefreshIsOrigin(s) && s.eng.phase.Drained?
    requires id in s.eng.readState && id in s.reg.entries && id !in s.hist.hollow
    ensures id in s.eng.builder.ages && s.eng.builder.ages[id] == Min(Age(s.eng.readState, s.eng.cycle, id), U32_MAX)
  {
    assert EntryOk(dev, s.eng.builder, s.hist.origins, s.hist.issued, BuilderCycle(s.eng), id);
  }
}
