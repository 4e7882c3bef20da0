/** Reachable states that show what is not promised. */
module Witnesses {
  import opened Types
  import opened Coalesce
  import opened Select
  import opened Fulfil
  import opened Budget
  import opened Snapshots
  import opened Registry
  import opened Cycle
  import opened System
  import opened Drain
  import opened Invariant
  import opened EngineSteps
  import opened Properties
  import ST = Starvation
  import BR = BatchedReads

  lemma ReachInit(dev: Device, cfg: PollConfig)
    ensures Reachable(dev, Init(cfg))
  {
    assert ValidRun(dev, Init(cfg), []) && Run(Init(cfg), []) == Init(cfg);
  }

  // ---------------------------------------------------------------------------
  // A cycle's first batch, when no watch is realtime.

  predicate NoRealtime(v: Reg) { forall id :: id in v.entries ==> !v.entries[id].handle.priority.Realtime? }

  lemma NoRealtimeTier(s: Sys, clock: nat)
    requires RegOk(s) && NoRealtime(s.reg)
    ensures RealtimeOf(ActiveAt(s, clock)) == []
  {
    var ws := RealtimeOf(ActiveAt(s, clock));
    if ws != [] {
      TierEntry(s, clock, ws[0]);
      TiersMember(ActiveAt(s, clock), ws[0]);
    }
  }

  /** The head of a cycle with a waiting watch and no realtime tier, up to the first batch in flight. */
  function Opened(s: Sys, cfg: PollConfig, clock: nat): Sys { Apply(Apply(s, Start(cfg)), Capture(clock)) }

  function Sent(s: Sys, cfg: PollConfig, clock: nat): Sys { Apply(Opened(s, cfg, clock), BulkTurn(0)) }

  lemma OpenedFacts(dev: Device, s: Sys, cfg: PollConfig, clock: nat, id: WatchId)
    requires Reachable(dev, s) && s.eng.phase.Idle? && cfg.Sane() && NoRealtime(s.reg)
    requires id in s.reg.entries && IsActive(s.reg.entries[id], clock, cfg.demandWindow)
    ensures var t := Opened(s, cfg, clock);
            && Reachable(dev, t) && t.eng.phase.Draining? && Loopable(t.eng)
            && t.eng.readsIssued == 0 && t.eng.done == {}
            && id in Ids(t.eng.bulk) && id in t.eng.requests && t.eng.requests[id] == s.reg.entries[id].request
            && t.eng.budget == s.eng.budget && t.eng.readState == s.eng.readState && t.eng.cycle == s.eng.cycle + 1
  {
    var started := Apply(s, Start(cfg));
    ReachStep(dev, s, Start(cfg));
    ReachableInv(dev, started);
    NoRealtimeTier(started, clock);
    CaptureExact(started, clock, id);
    CaptureCycle(started, clock);
    ReachStep(dev, started, Capture(clock));
  }

  lemma OpenedKeeps(s: Sys, cfg: PollConfig, clock: nat)
    ensures var t := Opened(s, cfg, clock);
            && t.reg == s.reg && t.inHand == s.inHand && t.now == s.now + 2
            && t.eng.published == s.eng.published && t.eng.cfg == cfg
            && t.hist.issued == s.hist.issued && t.hist.publishedOrigins == s.hist.publishedOrigins
            && (forall id :: id in t.hist.origins ==> id in s.hist.publishedOrigins)
  {
  }

  lemma FirstTurnIssues(dev: Device, s: Sys, cfg: PollConfig, clock: nat, id: WatchId)
    requires Reachable(dev, s) && s.eng.phase.Idle? && cfg.Sane() && NoRealtime(s.reg)
    requires id in s.reg.entries && IsActive(s.reg.entries[id], clock, cfg.demandWindow)
    requires Fulfilled(s.eng.readState, id) < s.reg.entries[id].request
    ensures TurnAt(Opened(s, cfg, clock).eng, 0).Issue? && id in WaitingSet(Opened(s, cfg, clock).eng)
    ensures Reachable(dev, Sent(s, cfg, clock)) && Sent(s, cfg, clock).eng.phase.BulkInFlight?
  {
    var t := Opened(s, cfg, clock);
    OpenedFacts(dev, s, cfg, clock, id);
    assert id in WaitingSet(t.eng);
    TurnOutcomes(t.eng, 0);
    ReachStep(dev, t, BulkTurn(0));
  }

  /** Only registered watches are captured and sent for. */
  lemma OnlyRegistered(dev: Device, s: Sys, cfg: PollConfig, clock: nat)
    requires Reachable(dev, s) && s.eng.phase.Idle? && cfg.Sane()
    ensures var e := Opened(s, cfg, clock).eng;
            e.requests.Keys <= s.reg.entries.Keys && Ids(e.bulk) <= s.reg.entries.Keys
  {
    var started := Apply(s, Start(cfg));
    ReachStep(dev, s, Start(cfg));
    ReachableInv(dev, started);
    var e := Opened(s, cfg, clock).eng;
    forall id ensures (id in e.requests ==> id in s.reg.entries) && (id in Ids(e.bulk) ==> id in s.reg.entries) {
      CaptureExact(started, clock, id);
    }
  }

  lemma IssueFacts(t: Sys)
    requires TurnAt(t.eng, 0).Issue?
    ensures var u := Apply(t, BulkTurn(0));
            && u.reg == t.reg && u.inHand == t.inHand && u.now == t.now + 1
            && u.hist.origins == t.hist.origins && u.hist.flownAt == t.now
            && u.eng.requests == t.eng.requests && u.eng.budget == t.eng.budget && u.eng.readState == t.eng.readState
            && u.eng.cycle == t.eng.cycle && u.eng.cfg == t.eng.cfg && u.eng.bulk == t.eng.bulk
            && exists id :: id in Ids(u.eng.flight) && id in Ids(t.eng.bulk)
  {
    BatchServes(t.eng, 0);
  }

  /** What the state with the first batch in flight is made of. */
  lemma SentFacts(dev: Device, s: Sys, cfg: PollConfig, clock: nat, id: WatchId)
    requires Reachable(dev, s) && s.eng.phase.Idle? && cfg.Sane() && NoRealtime(s.reg)
    requires id in s.reg.entries && IsActive(s.reg.entries[id], clock, cfg.demandWindow)
    requires Fulfilled(s.eng.readState, id) < s.reg.entries[id].request
    ensures var t := Sent(s, cfg, clock);
            && t.reg == s.reg && id in t.eng.requests && t.eng.requests[id] == s.reg.entries[id].request
            && t.eng.budget == s.eng.budget && t.eng.readState == s.eng.readState && t.eng.cycle == s.eng.cycle + 1
            && (exists x :: x in Ids(t.eng.flight) && x in s.reg.entries)
            && (forall x :: x in t.hist.origins ==> x in s.hist.publishedOrigins) && t.inHand == s.inHand
            && t.hist.flownAt < t.now && t.eng.cfg == cfg && t.eng.requests.Keys <= s.reg.entries.Keys
  {
    FirstTurnIssues(dev, s, cfg, clock, id);
    OpenedFacts(dev, s, cfg, clock, id);
    OpenedKeeps(s, cfg, clock);
    OnlyRegistered(dev, s, cfg, clock);
    IssueFacts(Opened(s, cfg, clock));
  }

  // ---------------------------------------------------------------------------
  // A short reply.

  function OneWatch(cfg: PollConfig, g: MemRegion, clock: nat): Sys {
    Apply(Apply(Init(cfg), Draw), Register(g, High, clock))
  }

  lemma OneWatchFacts(dev: Device, cfg: PollConfig, g: MemRegion, clock: nat)
    requires g.Fits()
    ensures var s := OneWatch(cfg, g, clock);
            && Reachable(dev, s) && s.eng == Booted(cfg) && s.hist.publishedOrigins == map[] && s.inHand == 0
            && s.reg == Reg(1, 1, map[0 := Entry(WatchHandle(0, g, High), clock, 1, false)])
  {
    ReachInit(dev, cfg);
    ReachStep(dev, Init(cfg), Draw);
    ReachStep(dev, Apply(Init(cfg), Draw), Register(g, High, clock));
  }

  lemma OneWatchSent(dev: Device, s: Sys, cfg: PollConfig, clock: nat)
    requires Reachable(dev, s) && s.eng.phase.Idle? && cfg.Sane() && NoRealtime(s.reg) && s.reg.entries.Keys == {0}
    requires IsActive(s.reg.entries[0], clock, cfg.demandWindow)
             && Fulfilled(s.eng.readState, 0) < s.reg.entries[0].request
    ensures var t := Sent(s, cfg, clock);
            && Reachable(dev, t) && t.eng.phase.BulkInFlight? && 0 in Ids(t.eng.flight) && 0 in t.eng.requests
            && t.eng.requests[0] == s.reg.entries[0].request && t.reg == s.reg
  {
    FirstTurnIssues(dev, s, cfg, clock, 0);
    SentFacts(dev, s, cfg, clock, 0);
  }

  lemma EmptyBlobReaches(rs: seq<CoalescedRead>, id: WatchId, issued: map<WatchId, MemRegion>)
    requires SlotsIssued(AllSlots(rs), issued) && id in issued && issued[id].size > 0
    ensures id !in Delivered(rs, [[]])
  {
    if rs != [] {
      assert Delivered(rs[1..], []) == {};
      forall m | m in rs[0].members && Reaches([], m) ensures m.id != id {
        SlotsInMember(rs[0].region, rs[0].members, SlotAt(rs[0].region, m));
        AllSlotsMember(rs, SlotAt(rs[0].region, m));
        assert rs[0] in rs;
      }
    }
  }

  function FrameOf(cfg: PollConfig): nat { Max(cfg.frameBudgetMs, 1) }

  /** The batch comes back with an empty blob, and the cycle's time is up. */
  function EmptyAnswer(s: Sys): Step { BulkDone(Blobs([[]], [s.now]), 0, FrameOf(s.eng.cfg)) }

  lemma EmptyUnread(dev: Device, s: Sys, id: WatchId)
    requires Inv(dev, s) && s.eng.phase.BulkInFlight? && s.hist.flownAt < s.now
    requires id in s.reg.entries && s.reg.entries[id].handle.region.size > 0 && id !in s.hist.origins
    ensures id !in OriginsApplied(s.hist.origins, s.eng.flight, [[]], [s.now], s.eng.cycle)
  {
    EmptyBlobReaches(s.eng.flight, id, s.hist.issued);
    OriginsAppliedAt(s.hist.origins, s.eng.flight, [[]], [s.now], s.eng.cycle, s.hist.flownAt, id);
  }

  lemma EmptyAnswerShape(s: Sys)
    requires s.eng.phase.BulkInFlight?
    ensures var t := Apply(s, EmptyAnswer(s));
            && t.eng.phase.Drained? && t.reg == s.reg
            && t.eng.readState == Marked(s.eng.readState, Ids(s.eng.flight), s.eng.requests, s.eng.cycle)
            && t.hist.origins == OriginsApplied(s.hist.origins, s.eng.flight, [[]], [s.now], s.eng.cycle)
  {
  }

  lemma NoOriginNoBytes(dev: Device, s: Sys, id: WatchId)
    requires Reachable(dev, s) && id !in s.hist.origins
    ensures id !in s.eng.builder.data
  {
    ReachableInv(dev, s);
  }

  lemma EmptyReach(dev: Device, s: Sys)
    requires Reachable(dev, s) && s.eng.phase.BulkInFlight? && s.hist.flownAt < s.now
    ensures Reachable(dev, Apply(s, EmptyAnswer(s)))
  {
    ReachStep(dev, s, EmptyAnswer(s));
  }

  lemma EmptyReply(dev: Device, s: Sys, id: WatchId)
    requires Reachable(dev, s) && s.eng.phase.BulkInFlight? && s.hist.flownAt < s.now
    requires id in Ids(s.eng.flight) && id in s.eng.requests && id !in s.hist.origins
    requires id in s.reg.entries && s.reg.entries[id].handle.region.size > 0
    ensures var t := Apply(s, EmptyAnswer(s));
            && Reachable(dev, t) && t.eng.phase.Drained? && t.reg == s.reg
            && Fulfilled(t.eng.readState, id) == s.eng.requests[id] && id !in t.eng.builder.data
  {
    ReachableInv(dev, s);
    EmptyUnread(dev, s, id);
    EmptyAnswerShape(s);
    EmptyReach(dev, s);
    NoOriginNoBytes(dev, Apply(s, EmptyAnswer(s)), id);
  }

  /** Why full replies are assumed: on every device a run leads to a published snapshot without any bytes for a
      registered watch whose request counts as fulfilled. */
  lemma ShortReplyFulfilsNothing(dev: Device, cfg: PollConfig, g: MemRegion, clock: nat) returns (s: Sys)
    requires cfg.Sane() && cfg.demandWindow > 0 && g.Fits() && g.size > 0
    ensures Reachable(dev, s) && s.eng.phase.Published? && 0 in s.reg.entries && s.reg.entries[0].handle.region == g
    ensures Fulfilled(s.eng.readState, 0) == s.reg.entries[0].request && s.eng.published.Bytes(0) == None
  {
    var one := OneWatch(cfg, g, clock);
    var sent := Sent(one, cfg, clock);
    OneWatchFacts(dev, cfg, g, clock);
    OneWatchSent(dev, one, cfg, clock);
    SentFacts(dev, one, cfg, clock, 0);
    EmptyReply(dev, sent, 0);
    var answered := Apply(sent, EmptyAnswer(sent));
    ReachStep(dev, answered, Publish);
    s := Apply(answered, Publish);
  }

  // ---------------------------------------------------------------------------
  // A stale low-priority watch goes before a high-priority one.

  function FullBlobs(mem: Memory, rs: seq<CoalescedRead>): (blobs: seq<seq<Byte>>)
    ensures FullReply(blobs, rs, mem)
  {
    if rs == [] then [] else [ReadMemory(mem, rs[0].region)] + FullBlobs(mem, rs[1..])
  }

  function Instants(now: nat, n: nat): (at: seq<nat>)
    ensures |at| == n && forall i :: 0 <= i < n ==> at[i] == now
  {
    if n == 0 then [] else [now] + Instants(now, n - 1)
  }

  /** The batch comes back in full, and the cycle's time is up. */
  function FullAnswer(dev: Device, s: Sys): Step {
    BulkDone(Blobs(FullBlobs(dev(s.now), s.eng.flight), Instants(s.now, |s.eng.flight|)), 0, FrameOf(s.eng.cfg))
  }

  lemma FullAnswerShape(dev: Device, s: Sys)
    requires s.eng.phase.BulkInFlight?
    ensures var t := Apply(s, FullAnswer(dev, s));
            && t.eng.phase.Drained? && t.reg == s.reg && t.inHand == s.inHand && t.eng.cycle == s.eng.cycle
            && t.eng.readState == Marked(s.eng.readState, Ids(s.eng.flight), s.eng.requests, s.eng.cycle)
            && t.eng.builder == Applied(s.eng.builder, s.eng.flight, FullBlobs(dev(s.now), s.eng.flight))
            && (s.eng.cfg.minByteBudget == s.eng.cfg.maxByteBudget ==> t.eng.budget == s.eng.cfg.minByteBudget)
  {
  }

  /** In a cache after a full reply, the watches in flight are new, and the others as they were. */
  predicate Renewed(c: Cache, d: Cache, ids: set<WatchId>) {
    && (forall id :: id in ids ==> id in d.ages && d.ages[id] == 0)
    && (forall id :: id in c.ages && id !in ids ==> id in d.ages && d.ages[id] == c.ages[id])
  }

  lemma IssuedConsistent(slots: seq<Slot>, issued: map<WatchId, MemRegion>)
    requires SlotsIssued(slots, issued)
    ensures BR.Consistent(slots)
  {
  }

  lemma FullReplyRenews(c: Cache, rs: seq<CoalescedRead>, issued: map<WatchId, MemRegion>, mem: Memory)
    requires SlotsIssued(AllSlots(rs), issued) && forall r :: r in rs ==> WellFormed(r)
    ensures Renewed(c, Applied(c, rs, FullBlobs(mem, rs)), Ids(rs))
  {
    var slots := AllSlots(rs);
    AppliedDirect(c, rs, FullBlobs(mem, rs), mem);
    IssuedConsistent(slots, issued);
    var d := DirectReads(c, slots, mem);
    forall id | id in Ids(rs) ensures id in d.ages && d.ages[id] == 0 {
      IdsSlots(rs, id);
      var x :| x in slots && x.id == id;
      BR.DirectNamed(c, slots, mem, x);
    }
    forall id | id in c.ages && id !in Ids(rs) ensures id in d.ages && d.ages[id] == c.ages[id] {
      IdsSlots(rs, id);
      BR.DirectUnnamed(c, slots, mem, id);
    }
  }

  lemma FullAnswerRenews(dev: Device, s: Sys)
    requires Reachable(dev, s) && s.eng.phase.BulkInFlight?
    ensures Renewed(s.eng.builder, Apply(s, FullAnswer(dev, s)).eng.builder, Ids(s.eng.flight))
  {
    ReachableInv(dev, s);
    FullAnswerShape(dev, s);
    FullReplyRenews(s.eng.builder, s.eng.flight, s.hist.issued, dev(s.now));
  }

  /** The first cycle answered, published and finished. */
  function Rested(dev: Device, s: Sys): Sys { Apply(Apply(Apply(s, FullAnswer(dev, s)), Publish), Finish) }

  lemma ClosedFacts(dev: Device, s: Sys)
    requires Reachable(dev, s) && s.eng.phase.Drained? && s.eng.cycle == 1
    ensures var t := Apply(Apply(s, Publish), Finish);
            && Reachable(dev, t) && t.eng.phase.Idle? && t.reg == s.reg && t.inHand == s.inHand && t.eng.cycle == 1
            && t.eng.budget == s.eng.budget && t.eng.readState == s.eng.readState
            && t.eng.published.cache == s.eng.builder
  {
    ReachStep(dev, s, Publish);
    ReachStep(dev, Apply(s, Publish), Finish);
  }

  lemma FullAnswerEnabled(dev: Device, s: Sys)
    requires Reachable(dev, s) && s.eng.phase.BulkInFlight? && s.hist.flownAt < s.now
    ensures Reachable(dev, Apply(s, FullAnswer(dev, s)))
  {
    ReachStep(dev, s, FullAnswer(dev, s));
  }

  lemma RestedFacts(dev: Device, s: Sys)
    requires Reachable(dev, s) && s.eng.phase.BulkInFlight? && s.hist.flownAt < s.now
    requires s.eng.cycle == 1 && s.eng.cfg.minByteBudget == s.eng.cfg.maxByteBudget
    ensures var t := Rested(dev, s);
            && Reachable(dev, t) && t.eng.phase.Idle? && t.reg == s.reg && t.inHand == s.inHand && t.eng.cycle == 1
            && t.eng.budget == s.eng.cfg.minByteBudget
            && t.eng.readState == Marked(s.eng.readState, Ids(s.eng.flight), s.eng.requests, 1)
            && Renewed(s.eng.builder, t.eng.published.cache, Ids(s.eng.flight))
  {
    FullAnswerShape(dev, s);
    FullAnswerEnabled(dev, s);
    FullAnswerRenews(dev, s);
    ClosedFacts(dev, Apply(s, FullAnswer(dev, s)));
  }

  /** A second watch arrives, of low priority, and the first is asked for again. */
  function Joined(s: Sys, g: MemRegion, clock: nat): Sys { Retouched(Lower(s, g, clock), clock) }

  function Lower(s: Sys, g: MemRegion, clock: nat): Sys { Apply(Apply(s, Draw), Register(g, Low, clock)) }

  function Retouched(s: Sys, clock: nat): Sys { Apply(Apply(s, Draw), Touch(0, clock)) }

  lemma JoinedFacts(dev: Device, s: Sys, a: MemRegion, b: MemRegion, clock: nat)
    requires Reachable(dev, s) && a.Fits() && s.inHand == 0
    requires s.reg == Reg(1, 1, map[0 := Entry(WatchHandle(0, b, High), clock, 1, false)])
    ensures var t := Joined(s, a, clock);
            && Reachable(dev, t) && t.eng == s.eng
            && t.reg == Reg(2, 3, map[0 := Entry(WatchHandle(0, b, High), clock, 3, false),
                                      1 := Entry(WatchHandle(1, a, Low), clock, 2, false)])
  {
    var lower := Lower(s, a, clock);
    ReachStep(dev, s, Draw);
    ReachStep(dev, Apply(s, Draw), Register(a, Low, clock));
    ReachStep(dev, lower, Draw);
    ReachStep(dev, Apply(lower, Draw), Touch(0, clock));
  }

  lemma TwoReads(rs: seq<CoalescedRead>, i: nat, j: nat)
    requires i < j < |rs|
    ensures rs[i].region.size + rs[j].region.size <= TotalSize(rs)
  {
    TotalSplit(rs, i);
    var rest := rs[..i] + rs[i + 1..];
    assert rest[j - 1] == rs[j];
    TotalSplit(rest, j - 1);
  }

  /** A chunk that carries `id` lies in its space and is at least as long. */
  lemma CarrierOf(rs: seq<CoalescedRead>, issued: map<WatchId, MemRegion>, id: WatchId) returns (k: nat)
    requires SlotsIssued(AllSlots(rs), issued) && (forall r :: r in rs ==> WellFormed(r)) && id in Ids(rs)
    ensures k < |rs| && id in issued && rs[k].region.SameSpace(issued[id]) && issued[id].size <= rs[k].region.size
  {
    var r, m :| r in rs && m in r.members && m.id == id;
    k :| 0 <= k < |rs| && rs[k] == r;
    SlotsInMember(r.region, r.members, SlotAt(r.region, m));
    AllSlotsMember(rs, SlotAt(r.region, m));
  }

  /** Two watches in different spaces, each as long as the budget, do not share a batch. */
  lemma NotBoth(e: Engine, budget: nat, issued: map<WatchId, MemRegion>, a: WatchId, b: WatchId)
    requires Loopable(e) && SlotsIssued(AllSlots(e.bulk), issued)
    requires a in issued && b in issued && !issued[a].SameSpace(issued[b])
    requires 0 < issued[a].size && 0 < issued[b].size && budget <= issued[a].size && budget <= issued[b].size
    requires a in Ids(Batch(e, budget))
    ensures b !in Ids(Batch(e, budget))
  {
    var batch := Batch(e, budget);
    BatchFlight(e, budget, issued);
    BatchBounds(e, budget);
    if b in Ids(batch) {
      var i := CarrierOf(batch, issued, a);
      var j := CarrierOf(batch, issued, b);
      if i < j { TwoReads(batch, i, j); } else if j < i { TwoReads(batch, j, i); }
    }
  }

  lemma IterBudgetBelow(e: Engine, elapsedMs: nat)
    requires IterBudget(e, elapsedMs).Some?
    ensures IterBudget(e, elapsedMs).value <= e.budget
  {
  }

  /** Whatever their priorities: of two such watches the one never read is sent for, and the other is not. */
  lemma StalerAlone(e: Engine, issued: map<WatchId, MemRegion>, a: WatchId, b: WatchId)
    requires Loopable(e) && SlotsIssued(AllSlots(e.bulk), issued) && Ids(e.bulk) <= {a, b}
    requires TurnAt(e, 0).Issue? && a in WaitingSet(e)
    requires Refresh(e.readState, a) < Refresh(e.readState, b) && Refresh(e.readState, a) < e.cycle
    requires a in issued && b in issued && !issued[a].SameSpace(issued[b])
    requires 0 < issued[a].size && 0 < issued[b].size && e.budget <= issued[a].size && e.budget <= issued[b].size
    ensures a in Ids(Turned(e, 0).flight) && b !in Ids(Turned(e, 0).flight)
  {
    var budget := IterBudget(e, 0).value;
    IterBudgetBelow(e, 0);
    var m := ST.StalestInBatch(e, budget, a);
    NotBoth(e, budget, issued, a, b);
  }

  predicate TwoWatches(v: Reg, a: MemRegion, b: MemRegion, clock: nat) {
    v == Reg(2, 3, map[0 := Entry(WatchHandle(0, b, High), clock, 3, false),
                       1 := Entry(WatchHandle(1, a, Low), clock, 2, false)])
  }

  lemma RegisteredIssued(dev: Device, s: Sys)
    requires Reachable(dev, s)
    ensures forall id :: id in s.reg.entries ==>
              id in s.hist.issued && s.hist.issued[id] == s.reg.entries[id].handle.region
    ensures InCycle(s.eng.phase) ==> Loopable(s.eng) && SlotsIssued(AllSlots(s.eng.bulk), s.hist.issued)
  {
    ReachableInv(dev, s);
  }

  /** Both watches wait at the head of the second cycle. */
  lemma BothWait(dev: Device, v: Sys, cfg: PollConfig, a: MemRegion, b: MemRegion, clock: nat)
    requires Reachable(dev, v) && v.eng.phase.Idle? && cfg.Sane() && cfg.demandWindow > 0
    requires TwoWatches(v.reg, a, b, clock) && v.eng.readState == map[0 := ReadState(1, 1)]
    ensures var e := Opened(v, cfg, clock).eng;
            0 in WaitingSet(e) && 1 in WaitingSet(e) && TurnAt(e, 0).Issue?
    ensures Reachable(dev, Sent(v, cfg, clock)) && Sent(v, cfg, clock).eng.phase.BulkInFlight?
  {
    FirstTurnIssues(dev, v, cfg, clock, 0);
    FirstTurnIssues(dev, v, cfg, clock, 1);
  }

  lemma SecondHead(dev: Device, v: Sys, cfg: PollConfig, a: MemRegion, b: MemRegion, clock: nat)
    requires Reachable(dev, v) && v.eng.phase.Idle? && cfg.Sane() && cfg.demandWindow > 0
    requires TwoWatches(v.reg, a, b, clock)
    ensures var t := Opened(v, cfg, clock);
            && Reachable(dev, t) && InCycle(t.eng.phase) && t.reg == v.reg && t.eng.budget == v.eng.budget
            && t.eng.readState == v.eng.readState && t.eng.cycle == v.eng.cycle + 1 && Ids(t.eng.bulk) <= {1, 0}
  {
    OpenedFacts(dev, v, cfg, clock, 0);
    OpenedKeeps(v, cfg, clock);
    OnlyRegistered(dev, v, cfg, clock);
  }

  /** The second cycle sends for the low-priority watch and leaves the high-priority one waiting. */
  lemma SecondCycle(dev: Device, v: Sys, cfg: PollConfig, a: MemRegion, b: MemRegion, clock: nat)
    requires Reachable(dev, v) && v.eng.phase.Idle? && cfg.Sane() && cfg.demandWindow > 0
    requires TwoWatches(v.reg, a, b, clock) && v.eng.cycle == 1 && v.eng.readState == map[0 := ReadState(1, 1)]
    requires !a.SameSpace(b) && 0 < a.size && 0 < b.size && v.eng.budget <= a.size && v.eng.budget <= b.size
    ensures var t := Sent(v, cfg, clock);
            && Reachable(dev, t) && t.eng.phase.BulkInFlight? && t.reg == v.reg
            && 1 in Ids(t.eng.flight) && 0 !in Ids(t.eng.flight) && 0 in WaitingSet(t.eng)
  {
    var t := Opened(v, cfg, clock);
    BothWait(dev, v, cfg, a, b, clock);
    SecondHead(dev, v, cfg, a, b, clock);
    RegisteredIssued(dev, t);
    LowGoesFirst(t, a, b, clock);
  }

  lemma LowGoesFirst(t: Sys, a: MemRegion, b: MemRegion, clock: nat)
    requires Loopable(t.eng) && SlotsIssued(AllSlots(t.eng.bulk), t.hist.issued) && TwoWatches(t.reg, a, b, clock)
    requires forall id :: id in t.reg.entries ==>
               id in t.hist.issued && t.hist.issued[id] == t.reg.entries[id].handle.region
    requires t.eng.cycle == 2 && t.eng.readState == map[0 := ReadState(1, 1)] && Ids(t.eng.bulk) <= {1, 0}
    requires TurnAt(t.eng, 0).Issue? && 0 in WaitingSet(t.eng) && 1 in WaitingSet(t.eng)
    requires !a.SameSpace(b) && 0 < a.size && 0 < b.size && t.eng.budget <= a.size && t.eng.budget <= b.size
    ensures var u := Apply(t, BulkTurn(0));
            u.reg == t.reg && 1 in Ids(u.eng.flight) && 0 !in Ids(u.eng.flight) && 0 in WaitingSet(u.eng)
  {
    assert 0 in t.reg.entries && 1 in t.reg.entries;
    StalerAlone(t.eng, t.hist.issued, 1, 0);
    SameWaiting(t.eng);
    assert Apply(t, BulkTurn(0)).eng == Turned(t.eng, 0);
  }

  lemma SameWaiting(e: Engine)
    ensures WaitingSet(Turned(e, 0)) == WaitingSet(e)
  {
  }

  lemma FirstSent(dev: Device, cfg: PollConfig, b: MemRegion, clock: nat) returns (s: Sys)
    requires cfg.Sane() && cfg.demandWindow > 0 && b.Fits()
    ensures Reachable(dev, s) && s.eng.phase.BulkInFlight? && s.eng.cycle == 1
    ensures s.hist.flownAt < s.now && s.inHand == 0
    ensures s.reg == Reg(1, 1, map[0 := Entry(WatchHandle(0, b, High), clock, 1, false)])
    ensures 0 in Ids(s.eng.flight) && s.eng.requests == map[0 := 1] && s.eng.readState == map[] && s.eng.cfg == cfg
  {
    var one := OneWatch(cfg, b, clock);
    OneWatchFacts(dev, cfg, b, clock);
    OneWatchSent(dev, one, cfg, clock);
    SentFacts(dev, one, cfg, clock, 0);
    s := Sent(one, cfg, clock);
  }

  /** The first cycle reads the high-priority watch alone. */
  lemma FirstCycle(dev: Device, cfg: PollConfig, b: MemRegion, clock: nat) returns (s: Sys)
    requires cfg.Sane() && cfg.demandWindow > 0 && b.Fits() && cfg.minByteBudget == cfg.maxByteBudget
    ensures Reachable(dev, s) && s.eng.phase.Idle? && s.eng.cycle == 1 && s.eng.budget == cfg.minByteBudget
    ensures s.inHand == 0
    ensures s.reg == Reg(1, 1, map[0 := Entry(WatchHandle(0, b, High), clock, 1, false)])
    ensures s.eng.readState == map[0 := ReadState(1, 1)] && s.eng.published.WatchAge(0) == Some(0)
  {
    var sent := FirstSent(dev, cfg, b, clock);
    RestedFacts(dev, sent);
    OneMarked(sent.eng);
    s := Rested(dev, sent);
  }

  lemma OneMarked(e: Engine)
    requires 0 in Ids(e.flight) && e.requests == map[0 := 1] && e.readState == map[]
    ensures Marked(e.readState, Ids(e.flight), e.requests, 1) == map[0 := ReadState(1, 1)]
  {
  }

  lemma OpenedBuilder(s: Sys, cfg: PollConfig, clock: nat)
    ensures Opened(s, cfg, clock).eng.builder
         == Retained(Aged(s.eng.published.cache), IdsOf(HandlesBelow(s.reg.entries, s.reg.nextId)))
  {
  }

  lemma RegistryOk(dev: Device, s: Sys)
    requires Reachable(dev, s)
    ensures s.reg.Valid()
  {
    ReachableInv(dev, s);
  }

  /** A watch that is still registered keeps its age in a new cycle, plus one. */
  lemma OpenedAge(dev: Device, s: Sys, cfg: PollConfig, clock: nat, id: WatchId)
    requires Reachable(dev, s) && id in s.reg.entries && id in s.eng.published.cache.ages
    requires s.eng.published.cache.ages[id] < U32_MAX
    ensures var c := Opened(s, cfg, clock).eng.builder; id in c.ages && c.ages[id] == s.eng.published.cache.ages[id] + 1
  {
    RegistryOk(dev, s);
    HandlesMember(s.reg, s.reg.nextId, s.reg.entries[id].handle);
    OpenedBuilder(s, cfg, clock);
  }

  lemma SentBuilder(t: Sys)
    ensures Apply(t, BulkTurn(0)).eng.builder == t.eng.builder
    ensures Apply(t, BulkTurn(0)).hist.flownAt < Apply(t, BulkTurn(0)).now
  {
  }

  lemma NoErrorYet(s: Sys, cfg: PollConfig, clock: nat)
    requires TurnAt(Opened(s, cfg, clock).eng, 0).Issue?
    ensures Sent(s, cfg, clock).eng.lastError == None
  {
  }

  lemma SecondRequests(dev: Device, v: Sys, cfg: PollConfig, a: MemRegion, b: MemRegion, clock: nat)
    requires Reachable(dev, v) && v.eng.phase.Idle? && cfg.Sane() && cfg.demandWindow > 0
    requires TwoWatches(v.reg, a, b, clock) && v.eng.readState == map[0 := ReadState(1, 1)]
    ensures var e := Sent(v, cfg, clock).eng;
            && 0 in Ids(e.bulk) && 0 in e.requests && e.requests[0] == 3 && e.lastError == None
            && Fulfilled(e.readState, 0) == 1
  {
    BothWait(dev, v, cfg, a, b, clock);
    OpenedFacts(dev, v, cfg, clock, 0);
    IssueFacts(Opened(v, cfg, clock));
    NoErrorYet(v, cfg, clock);
  }

  lemma FullAnswerKeeps(dev: Device, s: Sys)
    requires s.eng.phase.BulkInFlight?
    ensures var e := Apply(Apply(s, FullAnswer(dev, s)), Publish).eng;
            e.bulk == s.eng.bulk && e.requests == s.eng.requests && e.lastError == s.eng.lastError
  {
  }

  /** The second cycle with its one batch answered in full, published. */
  lemma SecondPublished(dev: Device, s: Sys)
    requires Reachable(dev, s) && s.eng.phase.BulkInFlight? && s.hist.flownAt < s.now
    requires 1 in Ids(s.eng.flight) && 0 !in Ids(s.eng.flight)
    requires 0 in s.eng.builder.ages && s.eng.builder.ages[0] == 1
    ensures var t := Apply(Apply(s, FullAnswer(dev, s)), Publish);
            && Reachable(dev, t) && t.eng.phase.Published? && t.reg == s.reg
            && t.eng.published.WatchAge(1) == Some(0) && t.eng.published.WatchAge(0) == Some(1)
            && Fulfilled(t.eng.readState, 0) == Fulfilled(s.eng.readState, 0)
            && t.eng.bulk == s.eng.bulk && t.eng.requests == s.eng.requests && t.eng.lastError == s.eng.lastError
  {
    FullAnswerKeeps(dev, s);
    FullAnswerShape(dev, s);
    FullAnswerEnabled(dev, s);
    FullAnswerRenews(dev, s);
    ReachStep(dev, Apply(s, FullAnswer(dev, s)), Publish);
  }

  /** The documented periods are not kept: on every device a run leads to a published snapshot whose cycle
      refreshed a low-priority watch (age 0) and not a high-priority one (age 1), although that one was
      requested before the cycle began, was polled by it, no read failed, and its request still waits. */
  lemma StaleLowBeforeHigh(dev: Device, cfg: PollConfig, a: MemRegion, b: MemRegion, clock: nat) returns (s: Sys)
    requires cfg.Sane() && cfg.demandWindow > 0 && a.Fits() && b.Fits() && !a.SameSpace(b)
    requires cfg.minByteBudget == cfg.maxByteBudget && a.size == b.size == cfg.minByteBudget > 0
    ensures Reachable(dev, s) && s.eng.phase.Published? && 0 in s.reg.entries && 1 in s.reg.entries
    ensures s.reg.entries[0].handle == WatchHandle(0, b, High) && s.reg.entries[1].handle == WatchHandle(1, a, Low)
    ensures s.eng.published.WatchAge(1) == Some(0) && s.eng.published.WatchAge(0) == Some(1)
    ensures Fulfilled(s.eng.readState, 0) < s.reg.entries[0].request && s.eng.lastError == None
    ensures 0 in Ids(s.eng.bulk) && 0 in s.eng.requests && s.eng.requests[0] == s.reg.entries[0].request
  {
    var rested := FirstCycle(dev, cfg, b, clock);
    var joined := Joined(rested, a, clock);
    JoinedFacts(dev, rested, a, b, clock);
    SecondCycle(dev, joined, cfg, a, b, clock);
    OpenedAge(dev, joined, cfg, clock, 0);
    SentBuilder(Opened(joined, cfg, clock));
    SecondRequests(dev, joined, cfg, a, b, clock);
    var sent := Sent(joined, cfg, clock);
    SecondPublished(dev, sent);
    s := Apply(Apply(sent, FullAnswer(dev, sent)), Publish);
  }
}
