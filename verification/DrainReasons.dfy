/** Why the drain loop goes on, and why it ends, in plain arithmetic. */
module DrainReasons {
  import opened Types
  import opened Coalesce
  import opened Split
  import ST = SplitTheorems
  import opened BatchedReads
  import opened Select
  import opened Fulfil
  import opened Budget
  import opened BudgetLaws
  import opened Snapshots
  import opened Cycle
  import opened Drain

  /** A waiting watch is so long that the throughput does not move it in the time left. */
  ghost predicate TooLongWaits(e: Engine, movable: real) {
    exists x :: x in AllSlots(e.bulk) && x.id in WaitingSet(e) && x.region.size as real > movable
  }

  /** At the head of the loop, with a batch already sent in this cycle: the frame is over, or no time is left above the
      request latency, or with a known throughput not one byte fits 80% of the time left, or a waiting watch is
      too long for it. */
  ghost predicate OutOfTime(e: Engine, elapsedMs: nat)
  {
    var left := TimeLeft(e.latencyFloor, elapsedMs, Max(e.cfg.frameBudgetMs, 1));
    && e.readsIssued > 0
    && (|| elapsedMs >= Max(e.cfg.frameBudgetMs, 1)
        || left <= 0
        || (e.throughput.Some? && e.throughput.value > 0.0
            && (Share(e.throughput.value, left) < 1.0 || TooLongWaits(e, e.throughput.value * left as real))))
  }

  /** There is time for `bytes` more. */
  predicate InTime(e: Engine, elapsedMs: nat, bytes: nat) {
    var left := TimeLeft(e.latencyFloor, elapsedMs, Max(e.cfg.frameBudgetMs, 1));
    && elapsedMs < Max(e.cfg.frameBudgetMs, 1) && left > 0
    && (e.throughput.Some? && e.throughput.value > 0.0 ==>
          Share(e.throughput.value, left) >= 1.0 && bytes as real <= e.throughput.value * left as real)
  }

  lemma KnownSame(e: Engine)
    ensures Known(e.throughput) <==> UsableThroughput(e.throughput).Some?
  {
  }

  /** No budget is left exactly when time is. */
  lemma NoBudgetIff(e: Engine, elapsedMs: nat)
    ensures var left := TimeLeft(e.latencyFloor, elapsedMs, FrameMs(e));
            IterBudget(e, elapsedMs).None?
            <==> e.readsIssued > 0 && (left <= 0 || (Known(e.throughput) && Share(e.throughput.value, left) < 1.0))
  {
    RemainingExact(e.budget, e.throughput, e.latencyFloor, elapsedMs, FrameMs(e));
  }

  /** A lone chunk of one watch is as long as the watch. */
  lemma LoneSize(r: CoalescedRead)
    requires WellFormed(r) && |r.members| == 1
    ensures SlotAt(r.region, r.members[0]).region.size == r.region.size
    ensures SlotAt(r.region, r.members[0]) in MemberSlots(r)
  {
    SlotsInMember(r.region, r.members, SlotAt(r.region, r.members[0]));
  }

  lemma SmallArrives(bytes: nat, throughput: real, left: int)
    requires throughput > 0.0 && left > 0 && Share(throughput, left) >= 1.0 && bytes <= 1
    ensures bytes as real <= throughput * left as real
  {
    var whole := throughput * left as real;
    assert Share(throughput, left) == whole * 0.8;
  }

  /** With some budget left, what the time check refuses is more than the throughput moves, and not a single byte. */
  lemma RefusedBytes(e: Engine, elapsedMs: nat, bytes: nat)
    requires e.readsIssued > 0 && IterBudget(e, elapsedMs).Some?
    requires !BatchFitsRemainingTime(bytes, e.throughput, e.latencyFloor, elapsedMs, FrameMs(e))
    ensures Known(e.throughput) && bytes >= 2
    ensures bytes as real > e.throughput.value * TimeLeft(e.latencyFloor, elapsedMs, FrameMs(e)) as real
  {
    NoBudgetIff(e, elapsedMs);
    FitsExact(bytes, e.throughput, e.latencyFloor, elapsedMs, FrameMs(e));
    if Known(e.throughput) && bytes <= 1 {
      SmallArrives(bytes, e.throughput.value, TimeLeft(e.latencyFloor, elapsedMs, FrameMs(e)));
    }
  }

  lemma RefusedTurn(e: Engine, elapsedMs: nat)
    requires TurnAt(e, elapsedMs).WouldOverrun?
    ensures var turn := TurnAt(e, elapsedMs);
            && e.readsIssued > 0 && IterBudget(e, elapsedMs) == Some(turn.iterBudget)
            && turn.selected == Batch(e, turn.iterBudget)
            && !BatchFitsRemainingTime(TotalSize(turn.selected), e.throughput, e.latencyFloor, elapsedMs, FrameMs(e))
  {
  }

  /** What the time check refuses is a waiting watch too long for the time left. */
  lemma RefusedTooLong(e: Engine, elapsedMs: nat)
    requires Loopable(e) && TurnAt(e, elapsedMs).WouldOverrun?
    ensures Known(e.throughput)
    ensures TooLongWaits(e, e.throughput.value * TimeLeft(e.latencyFloor, elapsedMs, FrameMs(e)) as real)
  {
    var turn := TurnAt(e, elapsedMs);
    OnlyOversizedRefused(e, elapsedMs);
    RefusedTurn(e, elapsedMs);
    LoneTotal(turn.selected);
    RefusedBytes(e, elapsedMs, turn.selected[0].region.size);
    LoneWaits(e, turn.iterBudget, turn.selected[0]);
  }

  lemma LoneTotal(batch: seq<CoalescedRead>)
    requires |batch| == 1
    ensures TotalSize(batch) == batch[0].region.size
  {
    assert TotalSize(batch) == batch[0].region.size + TotalSize(batch[1..]);
  }

  lemma LoneWaits(e: Engine, budget: nat, c: CoalescedRead)
    requires Loopable(e) && c in Batch(e, budget) && |c.members| == 1
    ensures exists x :: x in AllSlots(e.bulk) && x.id in WaitingSet(e) && x.region.size == c.region.size
  {
    var x := SlotAt(c.region, c.members[0]);
    BatchPending(e, budget, c);
    ST.SplitBounds(e.bulk, budget, c);
    LoneSize(c);
    AllSlotsMember(SplitReads(e.bulk, budget), x);
    SplitSlots(e.bulk, budget, x);
    IdsSlots(e.bulk, x.id);
  }

  /** The turns that are not sent. */
  lemma UnsentTurn(e: Engine, elapsedMs: nat)
    requires !TurnAt(e, elapsedMs).Issue?
    ensures Turned(e, elapsedMs) == e.(phase := Drained)
  {
  }

  lemma UnsentCases(e: Engine, elapsedMs: nat)
    requires Loopable(e) && !TurnAt(e, elapsedMs).Issue?
    ensures || (e.readsIssued > 0 && elapsedMs >= FrameMs(e)) || IterBudget(e, elapsedMs).None?
            || TurnAt(e, elapsedMs).WouldOverrun? || WaitingSet(e) == {}
  {
    TurnOutcomes(e, elapsedMs);
    if TurnAt(e, elapsedMs).CaughtUp? { PendingIff(e, IterBudget(e, elapsedMs).value); }
  }

  lemma WindowOver(e: Engine, elapsedMs: nat)
    requires e.readsIssued > 0 && elapsedMs >= FrameMs(e)
    ensures OutOfTime(e, elapsedMs)
  {
  }

  lemma BudgetGone(e: Engine, elapsedMs: nat)
    requires IterBudget(e, elapsedMs).None?
    ensures OutOfTime(e, elapsedMs)
  {
    NoBudgetIff(e, elapsedMs);
  }

  lemma TooLong(e: Engine, elapsedMs: nat)
    requires e.readsIssued > 0 && Known(e.throughput)
    requires TooLongWaits(e, e.throughput.value * TimeLeft(e.latencyFloor, elapsedMs, FrameMs(e)) as real)
    ensures OutOfTime(e, elapsedMs)
  {
  }

  lemma RefusedOutOfTime(e: Engine, elapsedMs: nat)
    requires Loopable(e) && TurnAt(e, elapsedMs).WouldOverrun?
    ensures OutOfTime(e, elapsedMs)
  {
    RefusedTurn(e, elapsedMs);
    RefusedTooLong(e, elapsedMs);
    TooLong(e, elapsedMs);
  }

  /** At its head the loop gives up only because nothing waits or because it is out of time. */
  lemma GivesUpFor(e: Engine, elapsedMs: nat)
    requires Loopable(e) && !TurnAt(e, elapsedMs).Issue?
    ensures WaitingSet(e) == {} || OutOfTime(e, elapsedMs)
  {
    UnsentCases(e, elapsedMs);
    if e.readsIssued > 0 && elapsedMs >= FrameMs(e) { WindowOver(e, elapsedMs); }
    else if IterBudget(e, elapsedMs).None? { BudgetGone(e, elapsedMs); }
    else if TurnAt(e, elapsedMs).WouldOverrun? { RefusedOutOfTime(e, elapsedMs); }
  }

  lemma IssuedTurn(e: Engine, elapsedMs: nat)
    requires Loopable(e) && TurnAt(e, elapsedMs).Issue?
    ensures IterBudget(e, elapsedMs).Some? && WaitingSet(e) != {} && Turned(e, elapsedMs).phase.BulkInFlight?
    ensures e.readsIssued > 0 ==> elapsedMs < FrameMs(e)
    ensures var bytes := Turned(e, elapsedMs).flightBytes;
            e.readsIssued > 0 ==>
              BatchFitsRemainingTime(bytes, e.throughput, e.latencyFloor, elapsedMs, FrameMs(e))
  {
    TurnOutcomes(e, elapsedMs);
  }

  lemma EnoughTime(e: Engine, elapsedMs: nat, bytes: nat)
    requires e.readsIssued > 0 && IterBudget(e, elapsedMs).Some? && elapsedMs < FrameMs(e)
    requires BatchFitsRemainingTime(bytes, e.throughput, e.latencyFloor, elapsedMs, FrameMs(e))
    ensures InTime(e, elapsedMs, bytes)
  {
    NoBudgetIff(e, elapsedMs);
    FitsExact(bytes, e.throughput, e.latencyFloor, elapsedMs, FrameMs(e));
  }

  /** A batch is sent only while something waits, and after the first one of a cycle only in time. */
  lemma SendsOnlyInTime(e: Engine, elapsedMs: nat)
    requires Loopable(e) && TurnAt(e, elapsedMs).Issue?
    ensures WaitingSet(e) != {}
    ensures e.readsIssued > 0 ==> InTime(e, elapsedMs, Turned(e, elapsedMs).flightBytes)
  {
    IssuedTurn(e, elapsedMs);
    if e.readsIssued > 0 { EnoughTime(e, elapsedMs, Turned(e, elapsedMs).flightBytes); }
  }

  /** The batch sent by a turn is justified. */
  predicate Justified(e: Engine, elapsedMs: nat, bytes: nat) {
    WaitingSet(e) != {} && (e.readsIssued > 0 ==> InTime(e, elapsedMs, bytes))
  }

  /** The head of the drain loop, in plain arithmetic. Either it sends a batch: then something waits, and after the
      first batch of a cycle there is time for its bytes. Or it leaves the loop: then nothing else changes, and
      nothing waits or it is out of time. */
  lemma HeadExact(e: Engine, elapsedMs: nat)
    requires Loopable(e) && e.phase.Draining?
    ensures var t := Turned(e, elapsedMs);
            || (t.phase.BulkInFlight? && Justified(e, elapsedMs, t.flightBytes))
            || (t == e.(phase := Drained) && (WaitingSet(e) == {} || OutOfTime(e, elapsedMs)))
  {
    if TurnAt(e, elapsedMs).Issue? {
      IssuedTurn(e, elapsedMs);
      SendsOnlyInTime(e, elapsedMs);
    } else {
      UnsentTurn(e, elapsedMs);
      GivesUpFor(e, elapsedMs);
    }
  }

  /** The budget an iteration works with: that of the controller, or the whole bytes that 80% of a known throughput
      moves in the time left, if that is less but at least one. */
  function WorkingBudget(e: Engine, elapsedMs: nat): int {
    var left := TimeLeft(e.latencyFloor, elapsedMs, Max(e.cfg.frameBudgetMs, 1));
    if e.throughput.Some? && e.throughput.value > 0.0 && left > 0
       && 1.0 <= Share(e.throughput.value, left) < e.budget as real
    then Share(e.throughput.value, left).Floor
    else e.budget
  }

  lemma WorkingBudgetIs(e: Engine, elapsedMs: nat)
    requires e.budget <= U32_MAX && IterBudget(e, elapsedMs).Some?
    ensures IterBudget(e, elapsedMs).value == WorkingBudget(e, elapsedMs)
  {
    RemainingExact(e.budget, e.throughput, e.latencyFloor, elapsedMs, FrameMs(e));
    if e.throughput.Some? {
      var left := TimeLeft(e.latencyFloor, elapsedMs, FrameMs(e));
      ShareFloor(IterBudget(e, elapsedMs).value, Share(e.throughput.value, left));
    }
  }

  lemma ShareFloor(v: nat, x: real)
    ensures v as real <= x < (v + 1) as real ==> x.Floor == v
  {
  }

  /** The batch a turn sends is what selection takes, with that budget, of what is pending after cutting to it. */
  lemma BatchExact(e: Engine, elapsedMs: nat)
    requires e.budget <= U32_MAX && TurnAt(e, elapsedMs).Issue?
    ensures WorkingBudget(e, elapsedMs) >= 0
    ensures var b: nat := WorkingBudget(e, elapsedMs);
            Turned(e, elapsedMs).flight
            == Selected(PendingReads(SplitReads(e.bulk, b), e.requests, e.readState, e.done), b, e.readState, e.cycle)
  {
    WorkingBudgetIs(e, elapsedMs);
  }

  lemma TooLongKept(e: Engine, t: Engine, movable: real)
    requires t.bulk == e.bulk && WaitingSet(t) == WaitingSet(e)
    ensures TooLongWaits(e, movable) ==> TooLongWaits(t, movable)
  {
  }

  /** Leaving the loop changes none of the numbers. */
  lemma OutOfTimeKept(e: Engine, t: Engine, elapsedMs: nat)
    requires t == e.(phase := Drained) && (WaitingSet(e) == {} || OutOfTime(e, elapsedMs))
    ensures WaitingSet(t) == {} || OutOfTime(t, elapsedMs)
  {
    assert WaitingSet(t) == WaitingSet(e);
    if OutOfTime(e, elapsedMs) {
      var left := TimeLeft(e.latencyFloor, elapsedMs, Max(e.cfg.frameBudgetMs, 1));
      if e.throughput.Some? { TooLongKept(e, t, e.throughput.value * left as real); }
    }
  }

  /** A batch that arrives ends the loop exactly when another round trip like it would reach the end of the frame; a
      failed one always does. */
  lemma AnswerExact(e: Engine, reply: Reply, rttMs: nat, elapsedMs: nat)
    ensures var t := BulkAnswered(e, reply, rttMs, elapsedMs);
            && (t.phase.Draining? || t.phase.Drained?)
            && (t.phase.Draining? <==> reply.Blobs? && elapsedMs + rttMs < Max(e.cfg.frameBudgetMs, 1))
            && (reply.Failed? ==> t.lastError == Some(BulkTier))
  {
  }
}
