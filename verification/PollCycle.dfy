/** One whole poll cycle of the engine object (crates/sni-cache/src/engine.rs, the body of the loop in `spawn`) is
    a run of the interleaved system, the one in which the script does nothing meanwhile. */
module PollCycles {
  import opened Fulfil
  import opened Budget
  import opened Registry
  import opened Cycle
  import Y = System
  import opened Drain
  import opened Invariant
  import opened EngineSteps
  import opened PollEngines
  import opened Turns

  /** What a cycle gets from the outside. */
  datatype CycleIo = CycleIo(cfg: PollConfig, clock: nat, realtime: Reply, realtimeRttMs: nat, drain: nat -> DrainIo)

  // ---------------------------------------------------------------------------
  // The steps of a cycle.

  function RoundSteps(e: Engine, a: DrainIo): seq<Y.Step> {
    if Turned(e, a.elapsedMs).phase.BulkInFlight?
    then [Y.BulkTurn(a.elapsedMs), Y.BulkDone(a.reply, a.rttMs, a.laterMs)]
    else [Y.BulkTurn(a.elapsedMs)]
  }

  function RealtimeSteps(e: Engine, io: CycleIo): seq<Y.Step> {
    if e.phase.RealtimeReady? then [Y.IssueRealtime, Y.RealtimeDone(io.realtime, io.realtimeRttMs)] else []
  }

  function OpeningSteps(io: CycleIo): seq<Y.Step> { [Y.Start(io.cfg), Y.Capture(io.clock)] }

  // ---------------------------------------------------------------------------
  // Every step in its turn.

  /** Replies are as the device gives them. */
  predicate HonestStep(dev: Y.Device, s: Y.Sys, step: Y.Step) {
    match step
    case RealtimeDone(reply, _) => Y.HonestReply(dev, s.eng.flight, reply, s.hist.flownAt, s.now)
    case BulkDone(reply, _, _) => Y.HonestReply(dev, s.eng.flight, reply, s.hist.flownAt, s.now)
    case _ => true
  }

  predicate HonestRun(dev: Y.Device, s: Y.Sys, steps: seq<Y.Step>)
    decreases |steps|
  {
    steps == [] || (HonestStep(dev, s, steps[0]) && HonestRun(dev, Y.Apply(s, steps[0]), steps[1..]))
  }

  /** The engine's `steps` lead from `s` to `t` and are a valid run whenever the replies in them are honest. */
  ghost predicate Leads(s: Y.Sys, steps: seq<Y.Step>, t: Y.Sys) {
    && Y.Run(s, steps) == t
    && (forall i :: 0 <= i < |steps| ==> !Y.ScriptStep(steps[i]))
    && forall dev :: HonestRun(dev, s, steps) ==> Y.ValidRun(dev, s, steps)
  }

  lemma {:induction false} LeadsOn(s: Y.Sys, a: seq<Y.Step>, t: Y.Sys, b: seq<Y.Step>, u: Y.Sys)
    requires Leads(s, a, t) && Leads(t, b, u)
    ensures Leads(s, a + b, u)
    decreases |a|
  {
    RunAppend(s, a, b);
    forall dev | HonestRun(dev, s, a + b) ensures Y.ValidRun(dev, s, a + b) { ValidAppend(dev, s, a, b); }
  }

  lemma {:induction false} RunAppend(s: Y.Sys, a: seq<Y.Step>, b: seq<Y.Step>)
    ensures Y.Run(s, a + b) == Y.Run(Y.Run(s, a), b)
    decreases |a|
  {
    if a == [] {
      assert a + b == b;
    } else {
      assert (a + b)[1..] == a[1..] + b;
      RunAppend(Y.Apply(s, a[0]), a[1..], b);
    }
  }

  lemma {:induction false} ValidAppend(dev: Y.Device, s: Y.Sys, a: seq<Y.Step>, b: seq<Y.Step>)
    ensures HonestRun(dev, s, a + b) <==> HonestRun(dev, s, a) && HonestRun(dev, Y.Run(s, a), b)
    ensures Y.ValidRun(dev, s, a + b) <==> Y.ValidRun(dev, s, a) && Y.ValidRun(dev, Y.Run(s, a), b)
    decreases |a|
  {
    if a == [] {
      assert a + b == b;
    } else {
      assert (a + b)[1..] == a[1..] + b;
      ValidAppend(dev, Y.Apply(s, a[0]), a[1..], b);
    }
  }

  lemma OneStep(s: Y.Sys, step: Y.Step)
    requires !Y.ScriptStep(step) && forall dev :: HonestStep(dev, s, step) ==> Y.Enabled(dev, s, step)
    ensures Leads(s, [step], Y.Apply(s, step))
  {
    assert Y.Run(Y.Apply(s, step), []) == Y.Apply(s, step);
  }

  lemma TwoSteps(s: Y.Sys, a: Y.Step, b: Y.Step)
    requires !Y.ScriptStep(a) && !Y.ScriptStep(b)
    requires forall dev :: HonestStep(dev, s, a) ==> Y.Enabled(dev, s, a)
    requires forall dev :: HonestStep(dev, Y.Apply(s, a), b) ==> Y.Enabled(dev, Y.Apply(s, a), b)
    ensures Leads(s, [a, b], Y.Apply(Y.Apply(s, a), b))
  {
    OneStep(s, a);
    OneStep(Y.Apply(s, a), b);
    LeadsOn(s, [a], Y.Apply(s, a), [b], Y.Apply(Y.Apply(s, a), b));
    assert [a] + [b] == [a, b];
  }

  // ---------------------------------------------------------------------------
  // The parts of a cycle.

  lemma OpeningLeads(s: Y.Sys, io: CycleIo)
    requires s.eng.phase.Idle? && io.cfg.Sane()
    ensures Leads(s, OpeningSteps(io), Captured(s, io)) && Captured(s, io).reg == s.reg
  {
    TwoSteps(s, Y.Start(io.cfg), Y.Capture(io.clock));
  }

  lemma RealtimeLeads(s: Y.Sys, io: CycleIo)
    requires s.eng.phase.RealtimeReady? || s.eng.phase.Draining?
    ensures var t := Y.Run(s, RealtimeSteps(s.eng, io));
            && Leads(s, RealtimeSteps(s.eng, io), t) && t.eng.phase.Draining?
            && t.eng == if s.eng.phase.Draining? then s.eng
                        else RealtimeAnswered(RealtimeIssued(s.eng), io.realtime, io.realtimeRttMs)
  {
    if s.eng.phase.RealtimeReady? { TwoSteps(s, Y.IssueRealtime, Y.RealtimeDone(io.realtime, io.realtimeRttMs)); }
  }

  lemma SentLeads(s: Y.Sys, a: DrainIo)
    requires s.eng.phase.Draining? && Turned(s.eng, a.elapsedMs).phase.BulkInFlight?
    ensures var steps := [Y.BulkTurn(a.elapsedMs), Y.BulkDone(a.reply, a.rttMs, a.laterMs)];
            Leads(s, steps, Y.Run(s, steps))
            && Y.Run(s, steps).eng == BulkAnswered(Turned(s.eng, a.elapsedMs), a.reply, a.rttMs, a.laterMs)
  {
    var sent, done := Y.BulkTurn(a.elapsedMs), Y.BulkDone(a.reply, a.rttMs, a.laterMs);
    var t := Y.Apply(s, sent);
    assert t.eng == Turned(s.eng, a.elapsedMs);
    TwoSteps(s, sent, done);
  }

  lemma RoundLeads(s: Y.Sys, a: DrainIo)
    requires s.eng.phase.Draining?
    ensures var t := Y.Run(s, RoundSteps(s.eng, a)); Leads(s, RoundSteps(s.eng, a), t) && t.eng == Round(s.eng, a)
  {
    if Turned(s.eng, a.elapsedMs).phase.BulkInFlight? {
      SentLeads(s, a);
    } else {
      OneStep(s, Y.BulkTurn(a.elapsedMs));
    }
  }

  lemma OneMoreRound(s: Y.Sys, steps: seq<Y.Step>, t: Y.Sys, a: DrainIo) returns (more: seq<Y.Step>, u: Y.Sys)
    requires Leads(s, steps, t) && t.eng.phase.Draining?
    ensures Leads(s, more, u) && u.eng == Round(t.eng, a) && more == steps + RoundSteps(t.eng, a)
  {
    more, u := steps + RoundSteps(t.eng, a), Y.Run(t, RoundSteps(t.eng, a));
    RoundLeads(t, a);
    LeadsOn(s, steps, t, RoundSteps(t.eng, a), u);
  }

  lemma DrainsAt(e: Engine, io: nat -> DrainIo, n: nat, k: nat)
    requires Drains(e, io, n) && k < n
    ensures Rounds(e, io, k).phase.Draining? && Rounds(e, io, k + 1) == Round(Rounds(e, io, k), io(k))
  {
  }

  predicate DrainStep(step: Y.Step) { step.BulkTurn? || step.BulkDone? }

  /** Steps of the drain loop alone, which was at its head `n` times. */
  predicate DrainOnly(steps: seq<Y.Step>, n: nat) {
    (forall i :: 0 <= i < |steps| ==> DrainStep(steps[i])) && TurnCount(steps) == n
  }

  lemma {:induction false} TurnCountAppend(a: seq<Y.Step>, b: seq<Y.Step>)
    ensures TurnCount(a + b) == TurnCount(a) + TurnCount(b)
    decreases |a|
  {
    if a == [] {
      assert a + b == b;
    } else {
      assert (a + b)[1..] == a[1..] + b;
      TurnCountAppend(a[1..], b);
    }
  }

  lemma DrainMore(steps: seq<Y.Step>, n: nat, e: Engine, a: DrainIo)
    requires DrainOnly(steps, n)
    ensures DrainOnly(steps + RoundSteps(e, a), n + 1)
  {
    TurnCountAppend(steps, RoundSteps(e, a));
    var sent, done := Y.BulkTurn(a.elapsedMs), Y.BulkDone(a.reply, a.rttMs, a.laterMs);
    assert TurnCount([done]) == 0 + TurnCount([done][1..]) && TurnCount([done][1..]) == 0;
    assert TurnCount([sent]) == 1 + TurnCount([sent][1..]) && TurnCount([sent][1..]) == 0;
    TurnCountAppend([sent], [done]);
    assert [sent] + [done] == [sent, done];
  }

  lemma DrainLeads(s: Y.Sys, io: nat -> DrainIo, n: nat) returns (steps: seq<Y.Step>, t: Y.Sys)
    requires Drains(s.eng, io, n)
    ensures Leads(s, steps, t) && t.eng == Rounds(s.eng, io, n) && DrainOnly(steps, n)
  {
    steps, t := [], s;
    var k := 0;
    while k < n
      invariant k <= n && Leads(s, steps, t) && t.eng == Rounds(s.eng, io, k) && DrainOnly(steps, k)
    {
      DrainsAt(s.eng, io, n, k);
      DrainMore(steps, k, t.eng, io(k));
      steps, t := OneMoreRound(s, steps, t, io(k));
      k := k + 1;
    }
  }

  lemma ClosingLeads(s: Y.Sys)
    requires s.eng.phase.Drained?
    ensures var t := Y.Run(s, [Y.Publish, Y.Finish]);
            Leads(s, [Y.Publish, Y.Finish], t) && t.eng == Finished(PublishedNow(s.eng))
  {
    TwoSteps(s, Y.Publish, Y.Finish);
  }

  // ---------------------------------------------------------------------------
  // The cycle.

  function Captured(s: Y.Sys, io: CycleIo): Y.Sys { Y.Apply(Y.Apply(s, Y.Start(io.cfg)), Y.Capture(io.clock)) }

  lemma CapturedState(dev: Y.Device, s: Y.Sys, io: CycleIo)
    requires Inv(dev, s) && s.eng.phase.Idle? && io.cfg.Sane()
    ensures var t := Captured(s, io);
            && Loopable(t.eng) && (t.eng.phase.RealtimeReady? || t.eng.phase.Draining?)
            && forall w :: w in t.eng.realtime ==> w.region.Fits()
  {
    StartKeepsInv(dev, s, io.cfg);
    CaptureCycle(Y.Apply(s, Y.Start(io.cfg)), io.clock);
  }

  lemma RealtimeKeepsLoopable(e: Engine, reply: Reply, rttMs: nat)
    requires Loopable(e)
    ensures Loopable(RealtimeAnswered(RealtimeIssued(e), reply, rttMs))
  {
  }

  /** The realtime tier, if there is one. */
  method PollRealtime(engine: PollEngine, io: CycleIo)
    requires engine.phase.RealtimeReady? || engine.phase.Draining?
    requires Loopable(engine.View()) && forall w :: w in engine.realtime ==> w.region.Fits()
    modifies engine, engine.builder
    ensures engine.builder == old(engine.builder) && engine.phase.Draining? && Loopable(engine.View())
    ensures engine.View() == if old(engine.phase).Draining? then old(engine.View())
                             else RealtimeAnswered(RealtimeIssued(old(engine.View())), io.realtime, io.realtimeRttMs)
  {
    if engine.phase.RealtimeReady? {
      RealtimeKeepsLoopable(engine.View(), io.realtime, io.realtimeRttMs);
      engine.IssueRealtime();
      engine.RealtimeDone(io.realtime, io.realtimeRttMs);
    }
  }

  /** What comes before the drain loop. */
  function HeadSteps(s: Y.Sys, io: CycleIo): seq<Y.Step> { OpeningSteps(io) + RealtimeSteps(Captured(s, io).eng, io) }

  /** The engine at the first head of the drain loop. */
  function Head(s: Y.Sys, io: CycleIo): Engine {
    var e := Captured(s, io).eng;
    if e.phase.RealtimeReady? then RealtimeAnswered(RealtimeIssued(e), io.realtime, io.realtimeRttMs) else e
  }

  /** One whole cycle, in this order: start, capture, the realtime tier if there is one, `turns` rounds of the
      drain loop, publishing and finishing. */
  predicate WholeCycle(s: Y.Sys, io: CycleIo, turns: nat, steps: seq<Y.Step>) {
    var head := HeadSteps(s, io);
    && |steps| >= |head| + 2 && steps[..|head|] == head
    && DrainOnly(steps[|head|..|steps| - 2], turns)
    && steps[|steps| - 2..] == [Y.Publish, Y.Finish]
  }

  /** The steps of a cycle whose drain loop took `turns` rounds. */
  lemma CycleLeads(s: Y.Sys, io: CycleIo, draining: Y.Sys, turns: nat) returns (steps: seq<Y.Step>, t: Y.Sys)
    requires s.eng.phase.Idle? && io.cfg.Sane()
    requires Leads(Captured(s, io), RealtimeSteps(Captured(s, io).eng, io), draining)
    requires Drains(draining.eng, io.drain, turns) && Rounds(draining.eng, io.drain, turns).phase.Drained?
    ensures Leads(s, steps, t) && t.eng == Finished(PublishedNow(Rounds(draining.eng, io.drain, turns)))
    ensures WholeCycle(s, io, turns, steps)
  {
    var captured := Captured(s, io);
    OpeningLeads(s, io);
    LeadsOn(s, OpeningSteps(io), captured, RealtimeSteps(captured.eng, io), draining);
    var before := OpeningSteps(io) + RealtimeSteps(captured.eng, io);
    var rounds, drained := DrainLeads(draining, io.drain, turns);
    LeadsOn(s, before, draining, rounds, drained);
    ClosingLeads(drained);
    steps, t := before + rounds + [Y.Publish, Y.Finish], Y.Run(drained, [Y.Publish, Y.Finish]);
    LeadsOn(s, before + rounds, drained, [Y.Publish, Y.Finish], t);
    assert steps[..|before|] == before && steps[|before|..|steps| - 2] == rounds;
  }

  /** A cycle counts itself, and publishes under its number what its builder held. */
  lemma CycleNumber(s: Y.Sys, io: CycleIo, turns: nat)
    ensures var e := Rounds(Head(s, io), io.drain, turns);
            var t := Finished(PublishedNow(e));
            e.cycle == s.eng.cycle + 1 && t.cycle == s.eng.cycle + 1 && t.published.cycle == s.eng.cycle + 1
            && t.published.cache == e.builder
  {
    RoundsKeepCycle(Head(s, io), io.drain, turns);
  }

  lemma RoundKeepsCycle(e: Engine, a: DrainIo)
    ensures Round(e, a).cycle == e.cycle
  {
  }

  lemma RoundsKeepCycle(e: Engine, io: nat -> DrainIo, n: nat)
    ensures Rounds(e, io, n).cycle == e.cycle
  {
    var k := 0;
    while k < n
      invariant k <= n && Rounds(e, io, k).cycle == e.cycle
    {
      RoundKeepsCycle(Rounds(e, io, k), io(k));
      k := k + 1;
    }
  }

  method OpenCycle(engine: PollEngine, registry: WatchRegistry, io: CycleIo, ghost dev: Y.Device, ghost s: Y.Sys)
    requires Inv(dev, s) && s.eng == engine.View() && s.reg == registry.View() && engine.phase.Idle? && io.cfg.Sane()
    modifies engine
    ensures fresh(engine.builder) && engine.View() == Captured(s, io).eng
  {
    engine.StartCycle(io.cfg, registry);
    engine.CapturePollSet(registry, io.clock);
  }

  /** What was drained is published, and the backlog report is about the watches that are left waiting. */
  ghost predicate Closes(drained: Engine, after: Engine, backlog: PendingSummary) {
    && drained.phase.Drained? && after == Finished(PublishedNow(drained))
    && Reports(backlog, Backlog(drained.bulk, drained.requests, drained.readState), drained.readState, drained.cycle)
    && (backlog.watches == 0 <==> WaitingSet(drained) == {})
  }

  method CloseCycle(engine: PollEngine) returns (backlog: PendingSummary)
    requires engine.phase.Drained? && Loopable(engine.View())
    modifies engine
    ensures Closes(old(engine.View()), engine.View(), backlog)
  {
    backlog := engine.ReportBacklog();
    engine.Publish();
    engine.Finish();
  }

  /** The body of the poll loop, from one cycle's start to the next. The object ends where `turns` rounds, the last
      of them the first to leave the drain loop, and publishing take it; the next snapshot carries the cycle's
      number, and the backlog report counts the watches still waiting. That is the engine state at the end of a
      run of the system with exactly these steps, so what holds of every run holds of the object. */
  method PollCycle(engine: PollEngine, registry: WatchRegistry, io: CycleIo, ghost dev: Y.Device, ghost s: Y.Sys)
    returns (turns: nat, backlog: PendingSummary, ghost steps: seq<Y.Step>, ghost t: Y.Sys)
    requires Inv(dev, s) && s.eng == engine.View() && s.reg == registry.View() && engine.phase.Idle? && io.cfg.Sane()
    modifies engine, engine.builder
    ensures Drains(Head(s, io), io.drain, turns) && Closes(Rounds(Head(s, io), io.drain, turns), engine.View(), backlog)
    ensures engine.phase.Idle? && engine.cycle == old(engine.cycle) + 1 == engine.current.cycle
    ensures Leads(s, steps, t) && engine.View() == t.eng && WholeCycle(s, io, turns, steps)
  {
    turns := PollTiers(engine, registry, io, dev, s);
    CycleNumber(s, io, turns);
    steps, t := CycleRun(dev, s, io, turns);
    backlog := CloseCycle(engine);
  }

  /** The two tiers, from the start of a cycle to the end of its drain loop. */
  method PollTiers(engine: PollEngine, registry: WatchRegistry, io: CycleIo, ghost dev: Y.Device, ghost s: Y.Sys)
    returns (turns: nat)
    requires Inv(dev, s) && s.eng == engine.View() && s.reg == registry.View() && engine.phase.Idle? && io.cfg.Sane()
    modifies engine, engine.builder
    ensures engine.View() == Rounds(Head(s, io), io.drain, turns) && Drains(Head(s, io), io.drain, turns)
    ensures engine.phase.Drained? && Loopable(engine.View())
  {
    CapturedState(dev, s, io);
    OpenCycle(engine, registry, io, dev, s);
    PollRealtime(engine, io);
    turns := engine.DrainBulk(io.drain);
  }

  lemma CycleRun(dev: Y.Device, s: Y.Sys, io: CycleIo, turns: nat) returns (steps: seq<Y.Step>, t: Y.Sys)
    requires Inv(dev, s) && s.eng.phase.Idle? && io.cfg.Sane()
    requires Drains(Head(s, io), io.drain, turns) && Rounds(Head(s, io), io.drain, turns).phase.Drained?
    ensures Leads(s, steps, t) && t.eng == Finished(PublishedNow(Rounds(Head(s, io), io.drain, turns)))
    ensures WholeCycle(s, io, turns, steps)
  {
    var captured := Captured(s, io);
    CapturedState(dev, s, io);
    RealtimeLeads(captured, io);
    steps, t := CycleLeads(s, io, Y.Run(captured, RealtimeSteps(captured.eng, io)), turns);
  }
}
