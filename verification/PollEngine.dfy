/** The poll engine as the object it is: its fields, updated step by step (crates/sni-cache/src/engine.rs).
    Each method is one step of a cycle; what the step means is the function it is proved against. */
module PollEngines {
  import opened Types
  import opened Coalesce
  import opened Split
  import opened Select
  import opened Fulfil
  import opened Budget
  import opened Snapshots
  import opened Registry
  import opened Cycle
  import opened BatchedReads
  import opened Drain
  import DR = DrainReasons

  method FilterPending(rs: seq<CoalescedRead>, req: Requests, st: ReadStates, done: set<WatchId>)
      returns (pending: seq<CoalescedRead>)
    ensures pending == PendingReads(rs, req, st, done)
  {
    pending := [];
    var rest := rs;
    while rest != []
      invariant pending + PendingReads(rest, req, st, done) == PendingReads(rs, req, st, done)
      decreases |rest|
    {
      ghost var tail := PendingReads(rest[1..], req, st, done);
      var p := IsPending(rest[0], req, st, done);
      AppendAssoc(pending, rest[0], tail);
      assert PendingReads(rest, req, st, done) == if p then [rest[0]] + tail else tail;
      if p {
        pending := pending + [rest[0]];
      }
      rest := rest[1..];
    }
  }

  method SumSizes(rs: seq<CoalescedRead>) returns (bytes: nat)
    ensures bytes == TotalSize(rs)
  {
    bytes := 0;
    var rest := rs;
    while rest != []
      invariant bytes + TotalSize(rest) == TotalSize(rs)
      decreases |rest|
    {
      bytes, rest := bytes + rest[0].region.size, rest[1..];
    }
  }

  /** The last snapshot, a cycle older, without the watches that are gone. */
  method SeedBuilder(prev: Snapshot, live: set<WatchId>) returns (b: SnapshotBuilder)
    ensures fresh(b) && b.View() == Retained(Aged(prev.cache), live)
  {
    b := new SnapshotBuilder.FromPrev(prev);
    b.RetainOnly(live);
  }

  /** What one iteration of the drain loop gets from the outside. */
  datatype DrainIo = DrainIo(elapsedMs: nat, reply: Reply, rttMs: nat, laterMs: nat)

  /** One iteration of the drain loop. */
  function Round(e: Engine, a: DrainIo): Engine {
    var t := Turned(e, a.elapsedMs);
    if t.phase.BulkInFlight? then BulkAnswered(t, a.reply, a.rttMs, a.laterMs) else t
  }

  function Rounds(e: Engine, io: nat -> DrainIo, n: nat): Engine {
    if n == 0 then e else Round(Rounds(e, io, n - 1), io(n - 1))
  }

  /** None of the first `n` rounds left the loop early. */
  predicate Drains(e: Engine, io: nat -> DrainIo, n: nat) {
    forall k :: 0 <= k < n ==> Rounds(e, io, k).phase.Draining?
  }

  lemma DrainsOn(e: Engine, io: nat -> DrainIo, n: nat)
    requires Drains(e, io, n) && Rounds(e, io, n).phase.Draining?
    ensures Drains(e, io, n + 1) && Rounds(e, io, n + 1) == Round(Rounds(e, io, n), io(n))
  {
  }

  class PollEngine {
    var cycle: nat
    var budget: nat
    var throughput: Option<real>
    var latencyFloor: Option<real>
    var readState: ReadStates
    var current: Snapshot
    var phase: Phase
    var cfg: PollConfig
    var liveIds: set<WatchId>
    var requests: Requests
    var realtime: seq<WatchHandle>
    var bulk: seq<CoalescedRead>
    var builder: SnapshotBuilder
    var done: set<WatchId>
    var readsIssued: nat
    var worstRtt: nat
    var lastError: Option<Tier>
    var flight: seq<CoalescedRead>
    var flightBytes: nat

    function View(): Engine
      reads this, builder
    {
      Engine(cycle, budget, throughput, latencyFloor, readState, current, phase, cfg, liveIds, requests, realtime, bulk,
             builder.View(), done, readsIssued, worstRtt, lastError, flight, flightBytes)
    }

    constructor (config: PollConfig)
      ensures View() == Booted(config) && fresh(builder)
      ensures config.Sane() ==> config.minByteBudget <= budget <= config.maxByteBudget
      ensures config.minByteBudget <= 2048 <= config.maxByteBudget ==> budget == 2048
    {
      cycle, budget, throughput, latencyFloor := 0, InitialBudget(config), None, None;
      readState, current, phase, cfg := map[], EMPTY, Idle, config;
      liveIds, requests, realtime, bulk := {}, map[], [], [];
      builder := new SnapshotBuilder.FromPrev(EMPTY);
      done, readsIssued, worstRtt, lastError, flight, flightBytes := {}, 0, 0, None, [], 0;
      new;
      assert Aged(EMPTY.cache) == EMPTY.cache;
    }

    method StartCycle(config: PollConfig, registry: WatchRegistry)
      modifies this
      ensures View() == Started(old(View()), config, HandlesBelow(registry.entries, registry.nextId))
      ensures builder == old(builder)
    {
      var all := registry.All();
      Begin(config, all);
    }

    method Begin(config: PollConfig, all: seq<WatchHandle>)
      modifies this`cycle, this`cfg, this`liveIds, this`phase, this`done, this`readsIssued, this`worstRtt,
          this`lastError
      ensures cycle == old(cycle) + 1 && cfg == config && liveIds == IdsOf(all) && phase == SawAll
      ensures done == {} && readsIssued == 0 && worstRtt == 0 && lastError == None
    {
      cycle, cfg, liveIds := cycle + 1, config, IdsOf(all);
      phase, done, readsIssued, worstRtt, lastError := SawAll, {}, 0, 0, None;
    }

    method CapturePollSet(registry: WatchRegistry, clock: nat)
      requires registry.View().Valid()
      modifies this`requests, this`realtime, this`bulk, this`phase, this`builder
      ensures View() == Captured(old(View()), ActiveBelow(registry.entries, registry.nextId, clock, cfg.demandWindow))
      ensures fresh(builder)
    {
      var active := registry.ActiveWithRequests(clock, cfg.demandWindow);
      BulkFits(registry.View(), registry.nextId, clock, cfg.demandWindow);
      var merged := CoalesceWatches(BulkOf(active), cfg.coalesceGap);
      builder := SeedBuilder(current, liveIds);
      Adopt(active, merged);
    }

    method Adopt(active: seq<(WatchHandle, nat)>, merged: seq<CoalescedRead>)
      modifies this`requests, this`realtime, this`bulk, this`phase
      ensures requests == RequestMap(active) && realtime == RealtimeOf(active) && bulk == merged
      ensures phase == if RealtimeOf(active) == [] then Draining else RealtimeReady
    {
      requests, realtime, bulk := RequestMap(active), RealtimeOf(active), merged;
      phase := if realtime == [] then Draining else RealtimeReady;
    }

    method IssueRealtime()
      requires forall w :: w in realtime ==> w.region.Fits()
      modifies this
      ensures View() == RealtimeIssued(old(View())) && builder == old(builder)
    {
      var merged := CoalesceWatches(realtime, cfg.coalesceGap);
      flight, phase := merged, RealtimeInFlight;
    }

    method RealtimeDone(reply: Reply, rttMs: nat)
      modifies this, builder
      ensures View() == RealtimeAnswered(old(View()), reply, rttMs) && builder == old(builder)
    {
      match reply {
        case Failed =>
          lastError, flight, phase := Some(RealtimeTier), [], Draining;
        case Blobs(blobs, at) =>
          RealtimeArrived(blobs, at, rttMs);
      }
    }

    method RealtimeArrived(blobs: seq<seq<Byte>>, ghost at: seq<nat>, rttMs: nat)
      modifies this, builder
      ensures View() == RealtimeAnswered(old(View()), Blobs(blobs, at), rttMs) && builder == old(builder)
    {
      ApplyReads(flight, blobs, builder);
      TakeInRealtime(rttMs);
    }

    method TakeInRealtime(rttMs: nat)
      modifies this`latencyFloor, this`readState, this`flight, this`phase
      ensures latencyFloor == ObserveLatencyFloor(old(latencyFloor), rttMs)
      ensures readState == Marked(old(readState), Ids(old(flight)), requests, cycle)
      ensures flight == [] && phase == Draining
    {
      latencyFloor := ObserveLatencyFloor(latencyFloor, rttMs);
      readState := MarkFulfilled(flight, requests, cycle, readState);
      flight, phase := [], Draining;
    }

    /** The batch an iteration's budget buys: split, keep what is pending, select. */
    method NextBatch(iterBudget: nat) returns (pending: seq<CoalescedRead>, batch: seq<CoalescedRead>, bytes: nat)
      requires forall r :: r in bulk ==> WellFormed(r)
      ensures pending == PendingChunks(View(), iterBudget) && batch == Batch(View(), iterBudget)
               && bytes == TotalSize(batch)
    {
      var chunked := SplitToBudget(bulk, iterBudget);
      pending := FilterPending(chunked, requests, readState, done);
      var capped;
      batch, capped := SelectBulk(pending, iterBudget, readState, cycle);
      bytes := SumSizes(batch);
    }

    /** What the head of the drain loop decides. */
    method NextTurn(elapsedMs: nat) returns (turn: Turn, bytes: nat)
      requires forall r :: r in bulk ==> WellFormed(r)
      ensures turn == TurnAt(View(), elapsedMs)
      ensures turn.Issue? ==> bytes == TotalSize(turn.selected)
    {
      var frameMs := Max(cfg.frameBudgetMs, 1);
      var forceProgress := readsIssued == 0;
      if elapsedMs >= frameMs && !forceProgress {
        return WindowSpent, 0;
      }
      var fitted := BudgetForRemainingTime(budget, throughput, latencyFloor, elapsedMs, frameMs);
      if fitted.None? && !forceProgress {
        return NoBudget, 0;
      }
      var iterBudget := if fitted.Some? then fitted.value else budget;
      var pending, batch;
      pending, batch, bytes := NextBatch(iterBudget);
      if pending == [] {
        turn := CaughtUp;
      } else if batch == [] {
        turn := NothingSelected;
      } else if !forceProgress && !BatchFitsRemainingTime(bytes, throughput, latencyFloor, elapsedMs, frameMs) {
        turn := WouldOverrun(batch, iterBudget);
      } else {
        turn := Issue(batch);
      }
    }

    /** Give up, or send the next batch. */
    method BulkTurn(elapsedMs: nat)
      requires forall r :: r in bulk ==> WellFormed(r)
      modifies this`flight, this`flightBytes, this`phase
      ensures View() == Turned(old(View()), elapsedMs)
    {
      var turn, bytes := NextTurn(elapsedMs);
      match turn {
        case Issue(batch) => flight, flightBytes, phase := batch, bytes, BulkInFlight;
        case _ => phase := Drained;
      }
    }

    method BulkDone(reply: Reply, rttMs: nat, elapsedMs: nat)
      modifies this, builder
      ensures View() == BulkAnswered(old(View()), reply, rttMs, elapsedMs) && builder == old(builder)
    {
      match reply {
        case Failed => BulkFailed(rttMs);
        case Blobs(blobs, at) => BulkArrived(blobs, at, rttMs, elapsedMs);
      }
    }

    method BulkFailed(rttMs: nat)
      modifies this`worstRtt, this`lastError, this`flight, this`phase
      ensures worstRtt == Max(old(worstRtt), rttMs) && lastError == Some(BulkTier) && flight == [] && phase == Drained
    {
      worstRtt, lastError, flight, phase := Max(worstRtt, rttMs), Some(BulkTier), [], Drained;
    }

    method BulkArrived(blobs: seq<seq<Byte>>, ghost at: seq<nat>, rttMs: nat, elapsedMs: nat)
      modifies this, builder
      ensures View() == BulkAnswered(old(View()), Blobs(blobs, at), rttMs, elapsedMs) && builder == old(builder)
    {
      ghost var e := View();
      ApplyReads(flight, blobs, builder);
      TakeIn(rttMs, elapsedMs);
      ghost var to := BulkAnswered(e, Blobs(blobs, at), rttMs, elapsedMs);
      assert builder.View() == to.builder;
      assert throughput == to.throughput && budget == to.budget && latencyFloor == to.latencyFloor;
      assert readState == to.readState && done == to.done && phase == to.phase;
    }

    /** Mark what the batch fulfilled, adapt the budget, and see whether the window is spent. */
    method TakeIn(rttMs: nat, elapsedMs: nat)
      modifies this`latencyFloor, this`throughput, this`budget, this`readState, this`done, this`readsIssued
      modifies this`worstRtt, this`flight, this`phase
      ensures latencyFloor == ObserveLatencyFloor(old(latencyFloor), rttMs)
      ensures throughput
           == Some(Smoothed(old(throughput), cfg.rttAlpha, flightBytes, BudgetedTransferMs(rttMs, old(latencyFloor))))
      ensures budget
           == NextBudget(old(budget), BudgetedTransferMs(rttMs, old(latencyFloor)), throughput, latencyFloor, cfg)
      ensures readState == Marked(old(readState), Ids(old(flight)), requests, cycle)
      ensures done == old(done) + Ids(old(flight)) && readsIssued == old(readsIssued) + 1
      ensures worstRtt == Max(old(worstRtt), rttMs) && flight == []
      ensures phase == if elapsedMs + rttMs >= Max(cfg.frameBudgetMs, 1) then Drained else Draining
    {
      Adapt(rttMs);
      readState := MarkFulfilled(flight, requests, cycle, readState);
      done := MarkDone(flight, done);
      readsIssued, worstRtt, flight := readsIssued + 1, Max(worstRtt, rttMs), [];
      phase := if elapsedMs + rttMs >= Max(cfg.frameBudgetMs, 1) then Drained else Draining;
    }

    /** Fit the latency floor, the throughput and the budget to how long the batch took. */
    method Adapt(rttMs: nat)
      modifies this`latencyFloor, this`throughput, this`budget
      ensures latencyFloor == ObserveLatencyFloor(old(latencyFloor), rttMs)
      ensures throughput
           == Some(Smoothed(old(throughput), cfg.rttAlpha, flightBytes, BudgetedTransferMs(rttMs, old(latencyFloor))))
      ensures budget
           == NextBudget(old(budget), BudgetedTransferMs(rttMs, old(latencyFloor)), throughput, latencyFloor, cfg)
    {
      var transferMs := BudgetedTransferMs(rttMs, latencyFloor);
      latencyFloor := ObserveLatencyFloor(latencyFloor, rttMs);
      throughput := Some(Smoothed(throughput, cfg.rttAlpha, flightBytes, transferMs));
      budget := NextBudget(budget, transferMs, throughput, latencyFloor, cfg);
    }

    /** The backlog report of the finished cycle: taken over chunks, it is about the waiting watches. */
    method ReportBacklog() returns (p: PendingSummary)
      requires phase.Drained? && Loopable(View())
      ensures Reports(p, Backlog(bulk, requests, readState), readState, cycle)
      ensures var chunks := SplitReads(bulk, budget);
              p.bytes == Min(PendingBytes(chunks, |chunks|, requests, readState), U32_MAX)
      ensures p.watches == 0 <==> WaitingSet(View()) == {}
    {
      var chunked := SplitToBudget(bulk, budget);
      p := SummarizePending(chunked, requests, readState, cycle);
      SplitIds(bulk, budget);
      assert Backlog(bulk, requests, readState) == WaitingSet(View());
    }

    method Publish()
      modifies this
      ensures View() == PublishedNow(old(View())) && builder == old(builder)
      ensures current == Snapshot(builder.View(), cycle, worstRtt, worstRtt)
    {
      current := builder.Build(cycle, worstRtt, worstRtt);
      phase := Published;
    }

    method Finish()
      modifies this
      ensures View() == Finished(old(View())) && builder == old(builder)
      ensures cycle % 256 != 0 ==> readState == old(readState)
      ensures cycle % 256 == 0 ==> readState.Keys == old(readState).Keys * liveIds
      ensures forall id :: id in readState ==> readState[id] == old(readState)[id]
    {
      if cycle % 256 == 0 {
        readState := map id | id in readState && id in liveIds :: readState[id];
      }
      phase := Idle;
    }

    /** The drain loop takes rounds until the first one that leaves it. That one comes whatever the clock shows,
        because each successful batch serves some waiting watch for good; no watch starts to wait. */
    method DrainBulk(io: nat -> DrainIo) returns (turns: nat)
      requires phase.Draining? && Loopable(View())
      modifies this, builder
      ensures phase.Drained? && Loopable(View()) && builder == old(builder)
      ensures View() == Rounds(old(View()), io, turns)
      ensures Drains(old(View()), io, turns)
      ensures WaitingSet(View()) <= WaitingSet(old(View()))
      ensures WaitingSet(View()) != {} && lastError != Some(BulkTier) ==>
                turns > 0 && TimeWasUp(View(), io(turns - 1))
      ensures turns <= |WaitingSet(old(View()))| + 1
    {
      turns := 0;
      ghost var start := View();
      while phase.Draining?
        invariant phase.Draining? || phase.Drained?
        invariant Loopable(View()) && builder == old(builder)
        invariant View() == Rounds(start, io, turns) && Drains(start, io, turns)
        invariant WaitingSet(View()) <= WaitingSet(start)
        invariant phase.Drained? && WaitingSet(View()) != {} && lastError != Some(BulkTier) ==>
                    turns > 0 && TimeWasUp(View(), io(turns - 1))
        invariant turns + |WaitingSet(View())| <= |WaitingSet(start)| + (if phase.Draining? then 0 else 1)
        decreases phase.Draining?, |WaitingSet(View())|
      {
        RoundProgress(View(), io(turns));
        RoundEndsFor(View(), io(turns));
        DrainsOn(start, io, turns);
        DrainRound(io(turns));
        turns := turns + 1;
      }
    }

    method DrainRound(a: DrainIo)
      requires Loopable(View())
      modifies this, builder
      ensures View() == Round(old(View()), a) && builder == old(builder)
    {
      BulkTurn(a.elapsedMs);
      if phase.BulkInFlight? {
        BulkDone(a.reply, a.rttMs, a.laterMs);
      }
    }
  }

  /** The last answer came at the end of the frame or later, or the engine was out of time at the head. */
  ghost predicate TimeWasUp(e: Engine, a: DrainIo) {
    a.laterMs + a.rttMs >= Max(e.cfg.frameBudgetMs, 1) || DR.OutOfTime(e, a.elapsedMs)
  }

  /** A round that leaves the loop with a watch waiting, and no failed read, does so because time is up. */
  lemma RoundEndsFor(e: Engine, a: DrainIo)
    requires Loopable(e) && e.phase.Draining?
    ensures var t := Round(e, a);
            t.phase.Drained? && WaitingSet(t) != {} && t.lastError != Some(BulkTier) ==> TimeWasUp(t, a)
  {
    DR.HeadExact(e, a.elapsedMs);
    if !Turned(e, a.elapsedMs).phase.BulkInFlight? { DR.OutOfTimeKept(e, Round(e, a), a.elapsedMs); }
  }

  /** A round leaves the loop, or serves a waiting watch for good. */
  lemma RoundProgress(e: Engine, a: DrainIo)
    requires Loopable(e)
    ensures var t := Round(e, a);
            && Loopable(t) && (t.phase.Draining? || t.phase.Drained?)
            && WaitingSet(t) <= WaitingSet(e)
            && |WaitingSet(t)| + 1 <= |WaitingSet(e)| + (if t.phase.Draining? then 0 else 1)
  {
    if Turned(e, a.elapsedMs).phase.BulkInFlight? { RoundShrinks(e, a); } else { RoundEnds(e, a.elapsedMs); }
  }

  lemma RoundEnds(e: Engine, elapsedMs: nat)
    requires Loopable(e) && !Turned(e, elapsedMs).phase.BulkInFlight?
    ensures var t := Turned(e, elapsedMs);
            && t.phase.Drained? && Loopable(t) && WaitingSet(t) == WaitingSet(e)
            && t.bulk == e.bulk && t.requests == e.requests
  {
  }

  lemma RoundShrinks(e: Engine, a: DrainIo)
    requires Loopable(e) && Turned(e, a.elapsedMs).phase.BulkInFlight?
    ensures var t := BulkAnswered(Turned(e, a.elapsedMs), a.reply, a.rttMs, a.laterMs);
            && Loopable(t) && (t.phase.Draining? || t.phase.Drained?) && t.bulk == e.bulk && t.requests == e.requests
            && WaitingSet(t) <= WaitingSet(e)
            && |WaitingSet(t)| + 1 <= |WaitingSet(e)| + (if t.phase.Draining? then 0 else 1)
  {
    var t := BulkAnswered(Turned(e, a.elapsedMs), a.reply, a.rttMs, a.laterMs);
    match a.reply {
      case Failed =>
        assert WaitingSet(t) == WaitingSet(e);
      case Blobs(blobs, at) =>
        BatchShrinks(e, a.elapsedMs, blobs, at, a.rttMs, a.laterMs);
        ProperSubset(WaitingSet(t), WaitingSet(e));
    }
  }

  lemma ProperSubset(a: set<WatchId>, b: set<WatchId>)
    requires a < b
    ensures |a| < |b|
  {
    assert b == a + (b - a) && b - a != {};
  }

  lemma {:induction false} BulkOfMember(active: seq<(WatchHandle, nat)>, w: WatchHandle)
    requires w in BulkOf(active)
    ensures exists p :: p in active && p.0 == w
    decreases |active|
  {
    if active[0].0 == w {
      assert active[0] in active;
    } else {
      BulkOfMember(active[1..], w);
      var p :| p in active[1..] && p.0 == w;
      assert p in active;
    }
  }

  lemma BulkFits(v: Reg, n: nat, clock: nat, window: nat)
    requires v.Valid()
    ensures forall w :: w in BulkOf(ActiveBelow(v.entries, n, clock, window)) ==> w.region.Fits()
  {
    var active := ActiveBelow(v.entries, n, clock, window);
    forall w | w in BulkOf(active) ensures w.region.Fits() {
      BulkOfMember(active, w);
      var p :| p in active && p.0 == w;
      assert p == (p.0, p.1);
      ActiveMember(v, n, clock, window, p.0, p.1);
    }
  }
}
