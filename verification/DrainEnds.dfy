/** In every interleaving: a drain loop that leaves a watch waiting had a reason. */
module DrainEnds {
  import opened Types
  import opened Coalesce
  import opened Fulfil
  import opened Snapshots
  import opened Cycle
  import opened System
  import opened Drain
  import opened DrainReasons
  import opened Invariant
  import opened EngineSteps
  import opened Properties

  /** The read failed, or its answer came when the frame was over, or the engine was out of time at the head. */
  ghost predicate Reason(e: Engine, step: Step) {
    match step
    case BulkTurn(elapsedMs) => OutOfTime(e, elapsedMs)
    case BulkDone(reply, rttMs, elapsedMs) => reply.Failed? || elapsedMs + rttMs >= Max(e.cfg.frameBudgetMs, 1)
    case _ => false
  }

  predicate InLoop(p: Phase) { InCycle(p) && !p.Drained? }

  lemma LeavesByTurn(s: Sys, elapsedMs: nat)
    requires Loopable(s.eng) && s.eng.phase.Draining?
    ensures var t := Apply(s, BulkTurn(elapsedMs)).eng;
            t.phase.Drained? && WaitingSet(t) != {} ==> OutOfTime(s.eng, elapsedMs)
  {
    HeadExact(s.eng, elapsedMs);
    SameWaiting(s.eng, Turned(s.eng, elapsedMs));
  }

  lemma SameWaiting(e: Engine, t: Engine)
    ensures t == e.(phase := Drained) ==> WaitingSet(t) == WaitingSet(e)
  {
  }

  lemma LeavesFor(dev: Device, s: Sys, step: Step)
    requires InCycleOk(s) && Enabled(dev, s, step) && InLoop(s.eng.phase)
    requires Apply(s, step).eng.phase.Drained? && WaitingSet(Apply(s, step).eng) != {}
    ensures Reason(s.eng, step)
  {
    match step {
      case BulkTurn(elapsedMs) => LeavesByTurn(s, elapsedMs);
      case BulkDone(reply, rttMs, elapsedMs) => AnswerExact(s.eng, reply, rttMs, elapsedMs);
      case _ => OthersStay(dev, s, step);
    }
  }

  /** No other step leaves the loop. */
  lemma OthersStay(dev: Device, s: Sys, step: Step)
    requires Enabled(dev, s, step) && InLoop(s.eng.phase) && !step.BulkTurn? && !step.BulkDone?
    ensures InLoop(Apply(s, step).eng.phase)
  {
  }

  predicate NoPublish(steps: seq<Step>)
    decreases |steps|
  {
    steps == [] || (!steps[0].Publish? && NoPublish(steps[1..]))
  }

  lemma DrainedKept(dev: Device, s: Sys, step: Step)
    requires Enabled(dev, s, step) && s.eng.phase.Drained? && !step.Publish?
    ensures Apply(s, step).eng == s.eng
  {
  }

  lemma {:induction false} DrainedStays(dev: Device, s: Sys, steps: seq<Step>)
    requires ValidRun(dev, s, steps) && NoPublish(steps) && s.eng.phase.Drained?
    ensures Run(s, steps).eng == s.eng
    decreases |steps|
  {
    if steps != [] {
      DrainedKept(dev, s, steps[0]);
      DrainedStays(dev, Apply(s, steps[0]), steps[1..]);
    }
  }

  lemma StepInLoop(dev: Device, s: Sys, step: Step)
    requires Enabled(dev, s, step) && InLoop(s.eng.phase)
    ensures InLoop(Apply(s, step).eng.phase) || Apply(s, step).eng.phase.Drained?
  {
  }

  /** Over every run from inside a cycle to the end of its drain loop, with a watch still waiting there: some step of
      the run left the loop, and it had a reason in plain arithmetic. */
  lemma {:induction false} EndsForAReason(dev: Device, s: Sys, steps: seq<Step>) returns (n: nat)
    requires Inv(dev, s) && ValidRun(dev, s, steps) && NoPublish(steps) && InLoop(s.eng.phase)
    requires Run(s, steps).eng.phase.Drained? && WaitingSet(Run(s, steps).eng) != {}
    ensures n < |steps| && InLoop(Run(s, steps[..n]).eng.phase) && Reason(Run(s, steps[..n]).eng, steps[n])
    decreases |steps|
  {
    var next := Apply(s, steps[0]);
    StepInLoop(dev, s, steps[0]);
    if next.eng.phase.Drained? {
      DrainedStays(dev, next, steps[1..]);
      LeavesFor(dev, s, steps[0]);
      n := 0;
    } else {
      StepKeepsInv(dev, s, steps[0]);
      var m := EndsForAReason(dev, next, steps[1..]);
      n := m + 1;
      assert steps[..n][1..] == steps[1..][..m];
    }
  }
}
