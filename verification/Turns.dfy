/** One cycle sends a bounded number of bulk reads, in every interleaving. */
module Turns {
  import opened Types
  import opened Fulfil
  import opened Snapshots
  import opened Cycle
  import opened System
  import opened Drain
  import opened Properties
  import ST = Starvation

  predicate BeforeDrained(p: Phase) { p.RealtimeReady? || p.RealtimeInFlight? || p.Draining? }

  /** How often the drain loop of this cycle may still get to its head. */
  function TurnsLeft(e: Engine): nat {
    if BeforeDrained(e.phase) then |WaitingSet(e)| + 1 else if e.phase.BulkInFlight? then |WaitingSet(e)| else 0
  }

  /** The read in flight serves a waiting watch. */
  predicate FlightServes(e: Engine) {
    e.phase.BulkInFlight? ==> exists id :: id in Ids(e.flight) && id in WaitingSet(e)
  }

  function TurnCount(steps: seq<Step>): nat
    decreases |steps|
  {
    if steps == [] then 0 else (if steps[0].BulkTurn? then 1 else 0) + TurnCount(steps[1..])
  }

  lemma TurnServes(s: Sys, elapsedMs: nat)
    requires s.eng.phase.Draining?
    ensures var e := Turned(s.eng, elapsedMs); FlightServes(e) && TurnsLeft(e) + 1 <= TurnsLeft(s.eng)
  {
    var e := Turned(s.eng, elapsedMs);
    assert WaitingSet(e) == WaitingSet(s.eng);
    if TurnAt(s.eng, elapsedMs).Issue? { BatchServes(s.eng, elapsedMs); }
  }

  /** Marking only ends waits, and a watch that is done waits no more. */
  lemma MarkingSpends(e: Engine, t: Engine, ids: set<WatchId>)
    requires t.bulk == e.bulk && t.requests == e.requests && e.done <= t.done
    requires t.readState == Marked(e.readState, ids, e.requests, e.cycle)
    ensures |WaitingSet(t)| <= |WaitingSet(e)|
    ensures (exists id :: id in WaitingSet(e) && id in t.done) ==> |WaitingSet(t)| < |WaitingSet(e)|
  {
    assert forall id :: id in WaitingSet(t) ==> id in WaitingSet(e);
    ST.SubsetCard(WaitingSet(t), WaitingSet(e));
  }

  lemma BulkAnswerShape(e: Engine, blobs: seq<seq<Byte>>, at: seq<nat>, rttMs: nat, elapsedMs: nat)
    ensures var t := BulkAnswered(e, Blobs(blobs, at), rttMs, elapsedMs);
            && t.bulk == e.bulk && t.requests == e.requests && t.done == e.done + Ids(e.flight)
            && t.readState == Marked(e.readState, Ids(e.flight), e.requests, e.cycle)
            && (t.phase.Draining? || t.phase.Drained?)
  {
  }

  lemma BulkAnswerSpends(e: Engine, reply: Reply, rttMs: nat, elapsedMs: nat)
    requires e.phase.BulkInFlight? && FlightServes(e)
    ensures var t := BulkAnswered(e, reply, rttMs, elapsedMs); TurnsLeft(t) <= TurnsLeft(e) && FlightServes(t)
  {
    if reply.Blobs? {
      BulkAnswerShape(e, reply.blobs, reply.at, rttMs, elapsedMs);
      MarkingSpends(e, BulkAnswered(e, reply, rttMs, elapsedMs), Ids(e.flight));
    }
  }

  lemma RealtimeAnswerSpends(e: Engine, reply: Reply, rttMs: nat)
    requires e.phase.RealtimeInFlight?
    ensures var t := RealtimeAnswered(e, reply, rttMs); TurnsLeft(t) <= TurnsLeft(e) && FlightServes(t)
  {
    var t := RealtimeAnswered(e, reply, rttMs);
    if reply.Blobs? {
      MarkingSpends(e, t, Ids(e.flight));
    } else {
      assert WaitingSet(t) == WaitingSet(e);
    }
  }

  lemma QuietStep(dev: Device, s: Sys, step: Step)
    requires Enabled(dev, s, step) && FlightServes(s.eng)
    requires !step.Capture? && !step.RealtimeDone? && !step.BulkTurn? && !step.BulkDone?
    ensures TurnsLeft(Apply(s, step).eng) <= TurnsLeft(s.eng) && FlightServes(Apply(s, step).eng)
  {
    if step.IssueRealtime? { assert WaitingSet(Apply(s, step).eng) == WaitingSet(s.eng); }
  }

  lemma TurnsStep(dev: Device, s: Sys, step: Step)
    requires Enabled(dev, s, step) && FlightServes(s.eng) && !step.Capture?
    ensures FlightServes(Apply(s, step).eng)
    ensures TurnsLeft(Apply(s, step).eng) + (if step.BulkTurn? then 1 else 0) <= TurnsLeft(s.eng)
  {
    match step {
      case BulkTurn(elapsedMs) => TurnServes(s, elapsedMs);
      case BulkDone(reply, rttMs, elapsedMs) => BulkAnswerSpends(s.eng, reply, rttMs, elapsedMs);
      case RealtimeDone(reply, rttMs) => RealtimeAnswerSpends(s.eng, reply, rttMs);
      case _ => QuietStep(dev, s, step);
    }
  }

  lemma {:induction false} TurnsRun(dev: Device, s: Sys, steps: seq<Step>)
    requires ValidRun(dev, s, steps) && FlightServes(s.eng) && NoCapture(steps)
    ensures TurnCount(steps) <= TurnsLeft(s.eng)
    decreases |steps|
  {
    if steps != [] {
      TurnsStep(dev, s, steps[0]);
      TurnsRun(dev, Apply(s, steps[0]), steps[1..]);
    }
  }

  /** In every interleaving, until markers are captured again the drain loop gets to its head at most once more
      than there were waiting watches, whatever the clock shows and the script does meanwhile. */
  lemma CycleTurnsBounded(dev: Device, s: Sys, clock: nat, steps: seq<Step>)
    requires s.eng.phase.SawAll? && ValidRun(dev, Apply(s, Capture(clock)), steps) && NoCapture(steps)
    ensures TurnCount(steps) <= |WaitingSet(Apply(s, Capture(clock)).eng)| + 1
  {
    TurnsRun(dev, Apply(s, Capture(clock)), steps);
  }
}
