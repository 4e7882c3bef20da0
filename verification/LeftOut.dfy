/** When a batch leaves no waiting watch out, and what that means for refreshing every cycle. */
module LeftOut {
  import opened Types
  import opened Coalesce
  import opened Split
  import CT = CoalesceTheorems
  import ST = SplitTheorems
  import opened Select
  import opened Fulfil
  import opened Snapshots
  import opened BatchedReads
  import opened Registry
  import opened Cycle
  import opened System
  import opened Drain
  import opened Invariant
  import opened EngineSteps
  import opened Properties
  import SV = Starvation

  // ---------------------------------------------------------------------------
  // Every watch is in one chunk.

  /** No slot occurs twice, and no watch has two. */
  ghost predicate OneEach(slots: seq<Slot>) {
    && (forall x :: x in slots ==> multiset(slots)[x] <= 1)
    && (forall x, y :: x in slots && y in slots && x.id == y.id ==> x == y)
  }

  lemma {:induction false} DistinctOnce(ws: seq<WatchHandle>, x: Slot)
    requires DistinctIds(ws)
    ensures multiset(WatchSlots(ws))[x] <= 1
    decreases |ws|
  {
    if ws != [] {
      DistinctOnce(ws[1..], x);
      WatchSlotsMember(ws[1..], SlotOf(ws[0]));
      assert WatchSlots(ws) == [SlotOf(ws[0])] + WatchSlots(ws[1..]);
      assert forall w :: w in ws[1..] ==> w.id != ws[0].id;
    }
  }

  lemma {:induction false} DistinctOneEach(ws: seq<WatchHandle>)
    requires DistinctIds(ws)
    ensures OneEach(WatchSlots(ws))
  {
    forall x | x in WatchSlots(ws) ensures multiset(WatchSlots(ws))[x] <= 1 { DistinctOnce(ws, x); }
    forall x, y | x in WatchSlots(ws) && y in WatchSlots(ws) && x.id == y.id ensures x == y {
      WatchSlotsMember(ws, x);
      WatchSlotsMember(ws, y);
    }
  }

  lemma {:induction false} SameBagOneEach(a: seq<Slot>, b: seq<Slot>)
    requires OneEach(a) && multiset(b) <= multiset(a)
    ensures OneEach(b)
  {
    forall x | x in b ensures x in a && multiset(b)[x] <= multiset(a)[x] {
      assert x in multiset(b) && x in multiset(a);
    }
  }

  lemma {:induction false} TwoCarriers(rs: seq<CoalescedRead>, i: nat, j: nat, x: Slot)
    requires i < j < |rs| && x in MemberSlots(rs[i]) && x in MemberSlots(rs[j])
    ensures multiset(AllSlots(rs))[x] >= 2
  {
    var front, back := rs[..j], rs[j..];
    assert rs == front + back && front[i] == rs[i] && back[0] == rs[j];
    AllSlotsAppend(front, back);
    assert rs[i] in front && rs[j] in back;
    AllSlotsMember(front, x);
    AllSlotsMember(back, x);
    assert multiset(AllSlots(rs)) == multiset(AllSlots(front)) + multiset(AllSlots(back));
  }

  /** Two places of a list of reads do not carry the same watch. */
  lemma {:induction false} OneCarrier(rs: seq<CoalescedRead>, i: nat, j: nat, id: WatchId)
    requires OneEach(AllSlots(rs)) && i < j < |rs| && id in MemberIds(rs[i].members)
    ensures id !in MemberIds(rs[j].members)
  {
    if id in MemberIds(rs[j].members) {
      var x := SlotFor(rs[i], id);
      var y := SlotFor(rs[j], id);
      AllSlotsMember(rs, x);
      AllSlotsMember(rs, y);
      TwoCarriers(rs, i, j, x);
    }
  }

  lemma {:induction false} SlotFor(r: CoalescedRead, id: WatchId) returns (x: Slot)
    requires id in MemberIds(r.members)
    ensures x in MemberSlots(r) && x.id == id
  {
    var m :| m in r.members && m.id == id;
    x := SlotAt(r.region, m);
    SlotsInMember(r.region, r.members, x);
  }

  lemma {:induction false} ConsBag(r: CoalescedRead, rs: seq<CoalescedRead>)
    ensures multiset(AllSlots([r] + rs)) == multiset(MemberSlots(r)) + multiset(AllSlots(rs))
  {
    assert ([r] + rs)[1..] == rs;
  }

  lemma {:induction false} BagGrows(r: CoalescedRead, a: seq<CoalescedRead>, b: seq<CoalescedRead>)
    requires multiset(AllSlots(a)) <= multiset(AllSlots(b))
    ensures multiset(AllSlots([r] + a)) <= multiset(AllSlots([r] + b))
    ensures multiset(AllSlots(a)) <= multiset(AllSlots([r] + b))
  {
    ConsBag(r, a);
    ConsBag(r, b);
  }

  lemma {:induction false} PendingSub(rs: seq<CoalescedRead>, req: Requests, st: ReadStates, done: set<WatchId>)
    ensures multiset(AllSlots(PendingReads(rs, req, st, done))) <= multiset(AllSlots(rs))
    decreases |rs|
  {
    if rs != [] {
      var r, rest := rs[0], rs[1..];
      var tail := PendingReads(rest, req, st, done);
      PendingSub(rest, req, st, done);
      BagGrows(r, tail, rest);
      assert rs == [r] + rest;
      assert PendingReads(rs, req, st, done) == (if IsPending(r, req, st, done) then [r] else []) + tail;
      assert [] + tail == tail;
    }
  }

  lemma {:induction false} PendingOneEach(e: Engine, budget: nat)
    requires OneEach(AllSlots(e.bulk))
    ensures OneEach(AllSlots(PendingChunks(e, budget)))
  {
    ST.SplitConserves(e.bulk, budget);
    PendingSub(SplitReads(e.bulk, budget), e.requests, e.readState, e.done);
    SameBagOneEach(AllSlots(e.bulk), AllSlots(PendingChunks(e, budget)));
  }

  // ---------------------------------------------------------------------------
  // Who is left out.

  /** A chunk that is short in the batch carries a waiting watch that the batch does not carry at all. */
  lemma {:induction false} ShortChunk(e: Engine, budget: nat, r: CoalescedRead) returns (id: WatchId)
    requires OneEach(AllSlots(e.bulk))
    requires multiset(Batch(e, budget))[r] < multiset(PendingChunks(e, budget))[r]
    ensures id in WaitingSet(e) && id !in Ids(Batch(e, budget))
  {
    var pending, batch := PendingChunks(e, budget), Batch(e, budget);
    PendingOneEach(e, budget);
    assert r in multiset(pending) && r in pending;
    PendingReadsMember(SplitReads(e.bulk, budget), e.requests, e.readState, e.done, r);
    var m :| m in r.members && m.id !in e.done && Unfulfilled(e.requests, e.readState, m.id);
    id := m.id;
    SplitIds(e.bulk, budget);
    assert id in Ids(SplitReads(e.bulk, budget));
    var k :| 0 <= k < |pending| && pending[k] == r;
    OnlyPlace(pending, k, id);
    SelectedSub(pending, budget, e.readState, e.cycle);
    assert multiset(batch)[r] == 0 && r !in batch;
    forall q, n | q in batch && n in q.members ensures n.id != id {
      assert q in multiset(batch) && q in multiset(pending) && q in pending && q != r;
      assert n.id in MemberIds(q.members);
    }
  }

  /** The only read that carries the watch, and it occurs once. */
  lemma {:induction false} OnlyPlace(rs: seq<CoalescedRead>, k: nat, id: WatchId)
    requires OneEach(AllSlots(rs)) && k < |rs| && id in MemberIds(rs[k].members)
    ensures multiset(rs)[rs[k]] == 1
    ensures forall q :: q in rs && id in MemberIds(q.members) ==> q == rs[k]
  {
    forall j | 0 <= j < |rs| && j != k ensures id !in MemberIds(rs[j].members) {
      if k < j { OneCarrier(rs, k, j, id); }
      else if id in MemberIds(rs[j].members) { OneCarrier(rs, j, k, id); }
    }
    assert rs == rs[..k] + [rs[k]] + rs[k + 1..];
    assert rs[k] !in rs[..k] && rs[k] !in rs[k + 1..];
  }

  predicate OneBatchHolds(e: Engine, budget: nat) {
    var pending := PendingChunks(e, budget);
    TotalSize(pending) <= budget || |pending| <= 1
  }

  /** A batch leaves no waiting watch out, of whatever priority, exactly when the pending chunks together fit the
      budget of the iteration, or are one chunk. */
  lemma {:induction false} NoneLeftOutIff(e: Engine, budget: nat)
    requires OneEach(AllSlots(e.bulk))
    ensures (forall id :: id in WaitingSet(e) ==> id in Ids(Batch(e, budget))) <==> OneBatchHolds(e, budget)
  {
    var pending, batch := PendingChunks(e, budget), Batch(e, budget);
    AllSelectedIff(pending, budget, e.readState, e.cycle);
    SelectedSub(pending, budget, e.readState, e.cycle);
    if multiset(batch) == multiset(pending) {
      forall id | id in WaitingSet(e) ensures id in Ids(batch) { InPending(e, budget, id); }
    } else {
      var r := ShortOf(batch, pending);
      var id := ShortChunk(e, budget, r);
    }
  }

  lemma {:induction false} InPending(e: Engine, budget: nat, id: WatchId)
    requires id in WaitingSet(e) && multiset(Batch(e, budget)) == multiset(PendingChunks(e, budget))
    ensures id in Ids(Batch(e, budget))
  {
    var r, m := ChunkOf(e, budget, id);
    assert IsPending(r, e.requests, e.readState, e.done);
    PendingReadsMember(SplitReads(e.bulk, budget), e.requests, e.readState, e.done, r);
    assert r in multiset(PendingChunks(e, budget)) && r in multiset(Batch(e, budget));
    assert r in Batch(e, budget);
  }

  lemma {:induction false} SameBag(a: multiset<CoalescedRead>, b: multiset<CoalescedRead>)
    requires a <= b && forall x :: a[x] >= b[x]
    ensures a == b
  {
  }

  lemma {:induction false} ShortOf(a: seq<CoalescedRead>, b: seq<CoalescedRead>) returns (r: CoalescedRead)
    requires multiset(a) <= multiset(b) && multiset(a) != multiset(b)
    ensures multiset(a)[r] < multiset(b)[r]
  {
    if forall x :: multiset(a)[x] >= multiset(b)[x] { SameBag(multiset(a), multiset(b)); }
    r :| multiset(a)[r] < multiset(b)[r];
  }

  // ---------------------------------------------------------------------------
  // In every reachable cycle.

  ghost predicate BulkOnce(s: Sys) { InCycle(s.eng.phase) ==> OneEach(AllSlots(s.eng.bulk)) }

  lemma {:induction false} CaptureOnce(s: Sys, clock: nat)
    requires RegOk(s)
    ensures OneEach(AllSlots(Apply(s, Capture(clock)).eng.bulk))
  {
    var active := ActiveAt(s, clock);
    var ws := BulkOf(active);
    ActiveDistinct(s.reg, s.reg.nextId, clock, s.eng.cfg.demandWindow);
    TiersDistinct(active);
    DistinctOneEach(ws);
    CT.CoalesceConserves(ws, s.eng.cfg.coalesceGap);
    SameBagOneEach(WatchSlots(ws), AllSlots(Coalesced(ws, s.eng.cfg.coalesceGap)));
  }

  lemma {:induction false} StepOnce(dev: Device, s: Sys, step: Step)
    requires RegOk(s) && Enabled(dev, s, step) && BulkOnce(s)
    ensures BulkOnce(Apply(s, step))
  {
    if step.Capture? {
      CaptureOnce(s, step.clock);
    } else if InCycle(Apply(s, step).eng.phase) {
      if !ScriptStep(step) { SV.PhaseOrder(dev, s, step); }
      if InCycle(s.eng.phase) { SV.CaptureKept(dev, s, step); }
    }
  }

  lemma {:induction false} RunOnce(dev: Device, s: Sys, steps: seq<Step>)
    requires Inv(dev, s) && ValidRun(dev, s, steps) && BulkOnce(s)
    ensures BulkOnce(Run(s, steps))
    decreases |steps|
  {
    if steps != [] {
      StepOnce(dev, s, steps[0]);
      StepKeepsInv(dev, s, steps[0]);
      RunOnce(dev, Apply(s, steps[0]), steps[1..]);
    }
  }

  lemma {:induction false} ReachableOnce(dev: Device, s: Sys)
    requires Reachable(dev, s)
    ensures BulkOnce(s)
  {
    var cfg, steps :| ValidRun(dev, Init(cfg), steps) && Run(Init(cfg), steps) == s;
    InitInv(dev, cfg);
    RunOnce(dev, Init(cfg), steps);
  }

  /** What waits after a successful batch is what waited and was not in it. */
  lemma {:induction false} AnswerServes(e: Engine, elapsedMs: nat, blobs: seq<seq<Byte>>, at: seq<nat>, rttMs: nat,
      later: nat)
    requires Loopable(e) && TurnAt(e, elapsedMs).Issue?
    ensures var t := BulkAnswered(Turned(e, elapsedMs), Blobs(blobs, at), rttMs, later);
            && WaitingSet(t) == WaitingSet(e) - Ids(TurnAt(e, elapsedMs).selected)
            && (later >= FrameMs(e) ==> t.phase.Drained?)
  {
    var batch := TurnAt(e, elapsedMs).selected;
    BatchIds(e, IterBudget(e, elapsedMs).value);
    MarkedElsewhere(e, Ids(batch));
  }

  lemma {:induction false} MarkedElsewhere(e: Engine, ids: set<WatchId>)
    ensures forall id :: id !in ids ==>
              (Unfulfilled(e.requests, Marked(e.readState, ids, e.requests, e.cycle), id)
               <==> Unfulfilled(e.requests, e.readState, id))
  {
  }

  /** The batch of this turn, once answered, leaves nothing waiting when the loop ends with it. */
  ghost predicate EndsServed(e: Engine, elapsedMs: nat) {
    forall blobs, at, rttMs, later ::
      var t := BulkAnswered(Turned(e, elapsedMs), Blobs(blobs, at), rttMs, later);
      t.phase.Drained? ==> WaitingSet(t) == {}
  }

  /** When a cycle surely refreshes all that was asked for. At the head of the drain loop, with a batch to
      send, in any reachable cycle: however slow the answer is, a successful batch leaves no captured request of any
      priority unfulfilled when the loop ends with it, if and only if the pending chunks fit the iteration's
      budget or are one chunk. When they do not fit, a slow answer ends the cycle with a watch left waiting. */
  lemma {:induction false} RefreshEveryCycleIff(dev: Device, s: Sys, elapsedMs: nat)
    requires Reachable(dev, s) && s.eng.phase.Draining? && TurnAt(s.eng, elapsedMs).Issue?
    ensures EndsServed(s.eng, elapsedMs) <==> OneBatchHolds(s.eng, IterBudget(s.eng, elapsedMs).value)
  {
    var e := s.eng;
    var budget := IterBudget(e, elapsedMs).value;
    ReachableInv(dev, s);
    ReachableOnce(dev, s);
    NoneLeftOutIff(e, budget);
    ServedIff(e, elapsedMs);
  }

  lemma {:induction false} ServedWhenHeld(e: Engine, elapsedMs: nat)
    requires Loopable(e) && TurnAt(e, elapsedMs).Issue?
    requires forall id :: id in WaitingSet(e) ==> id in Ids(TurnAt(e, elapsedMs).selected)
    ensures EndsServed(e, elapsedMs)
  {
    forall blobs, at, rttMs, later
      ensures WaitingSet(BulkAnswered(Turned(e, elapsedMs), Blobs(blobs, at), rttMs, later)) == {}
    {
      AnswerServes(e, elapsedMs, blobs, at, rttMs, later);
    }
  }

  lemma {:induction false} UnservedWhenLeftOut(e: Engine, elapsedMs: nat, id: WatchId)
    requires Loopable(e) && TurnAt(e, elapsedMs).Issue?
    requires id in WaitingSet(e) && id !in Ids(TurnAt(e, elapsedMs).selected)
    ensures !EndsServed(e, elapsedMs)
  {
    AnswerServes(e, elapsedMs, [], [], 0, FrameMs(e));
    var t := BulkAnswered(Turned(e, elapsedMs), Blobs([], []), 0, FrameMs(e));
    assert t.phase.Drained? && id in WaitingSet(t);
  }

  lemma {:induction false} ServedIff(e: Engine, elapsedMs: nat)
    requires Loopable(e) && TurnAt(e, elapsedMs).Issue?
    ensures EndsServed(e, elapsedMs)
       <==> forall id :: id in WaitingSet(e) ==> id in Ids(TurnAt(e, elapsedMs).selected)
  {
    if id :| id in WaitingSet(e) && id !in Ids(TurnAt(e, elapsedMs).selected) {
      UnservedWhenLeftOut(e, elapsedMs, id);
    } else {
      ServedWhenHeld(e, elapsedMs);
    }
  }
}
