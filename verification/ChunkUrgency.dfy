/** What urgency a chunk has: that of the read it was cut from, so that of the most urgent watch linked to its own. */
module ChunkUrgency {
  import opened Types
  import opened Sorting
  import opened Coalesce
  import opened CoalesceTheorems
  import opened Split
  import ST = SplitTheorems
  import opened Fulfil
  import opened Registry
  import opened Cycle
  import opened System
  import opened Invariant
  import opened EngineSteps
  import opened Properties

  predicate SamePriority(cs: seq<CoalescedRead>, p: WatchPriority) { forall c :: c in cs ==> c.priority == p }

  lemma ConsPriority(c: CoalescedRead, cs: seq<CoalescedRead>, p: WatchPriority)
    requires c.priority == p && SamePriority(cs, p)
    ensures SamePriority([c] + cs, p)
  {
  }

  lemma {:induction false} ChunksPriority(r: CoalescedRead, start: nat, end: nat, acc: seq<Member>, rest: seq<Member>,
      b: nat)
    requires start <= end && Ahead(r, start, rest)
    ensures SamePriority(Chunks(r, start, end, acc, rest, b), r.priority)
    decreases |rest|, 1
  {
    if rest == [] {
      assert Chunks(r, start, end, acc, rest, b) == [Chunk(r, start, end, acc)];
    } else {
      var m := rest[0];
      var at := r.region.address + m.off;
      Unfold(r, start, end, acc, rest, b);
      if Max(end, at + m.size) - start > b {
        ChunksFromPriority(r, rest, b);
        ConsPriority(Chunk(r, start, end, acc), ChunksFrom(r, rest, b), r.priority);
      } else {
        ChunksPriority(r, start, Max(end, at + m.size), acc + [Member(m.id, at - start, m.size)], rest[1..], b);
      }
    }
  }

  lemma {:induction false} ChunksFromPriority(r: CoalescedRead, ms: seq<Member>, b: nat)
    requires Sorted(ms, OffsetLe)
    ensures SamePriority(ChunksFrom(r, ms, b), r.priority)
    decreases |ms|, 0
  {
    if ms != [] {
      var at := r.region.address + ms[0].off;
      OpensAhead(r, ms);
      ChunksPriority(r, at, at + ms[0].size, [Member(ms[0].id, 0, ms[0].size)], ms[1..], b);
    }
  }

  lemma SplitOnePriority(r: CoalescedRead, b: nat)
    ensures SamePriority(SplitOne(r, b), r.priority)
  {
    if r.region.size > b {
      OffsetOrder(); SortSorted(r.members, OffsetLe);
      ChunksFromPriority(r, Sort(r.members, OffsetLe), b);
    }
  }

  lemma SplitOneCarries(r: CoalescedRead, b: nat, c: CoalescedRead)
    requires c in SplitOne(r, b)
    ensures forall x :: x in MemberSlots(c) ==> x in MemberSlots(r)
  {
    ST.SplitOneSlots(r, b);
    forall x | x in MemberSlots(c) ensures x in MemberSlots(r) {
      AllSlotsMember(SplitOne(r, b), x);
      assert x in multiset(AllSlots(SplitOne(r, b)));
    }
  }

  lemma {:induction false} SplitAllSource(rs: seq<CoalescedRead>, b: nat, c: CoalescedRead) returns (r: CoalescedRead)
    requires c in SplitAll(rs, b)
    ensures r in rs && c.priority == r.priority && forall x :: x in MemberSlots(c) ==> x in MemberSlots(r)
    decreases |rs|
  {
    if c in SplitOne(rs[0], b) {
      r := rs[0];
      SplitOnePriority(r, b);
      SplitOneCarries(r, b, c);
    } else {
      r := SplitAllSource(rs[1..], b, c);
    }
  }

  /** Every chunk has the priority of a read that carries all the chunk's watches. */
  lemma SplitPriority(rs: seq<CoalescedRead>, budget: nat, c: CoalescedRead) returns (r: CoalescedRead)
    requires c in SplitReads(rs, budget)
    ensures r in rs && c.priority == r.priority && forall x :: x in MemberSlots(c) ==> x in MemberSlots(r)
  {
    r := SplitAllSource(rs, Max(budget, 1), c);
  }

  /** `p` is the urgency of the watches linked to `x` by a chain within the gap: one has it, and none is more urgent. */
  ghost predicate UrgencyAround(ws: seq<WatchHandle>, gap: nat, x: Slot, p: WatchPriority) {
    && (forall v :: v in ws && Linked(WatchSlots(ws), gap, x, SlotOf(v)) ==> p.Rank() <= v.priority.Rank())
    && (exists v :: v in ws && Linked(WatchSlots(ws), gap, x, SlotOf(v)) && v.priority == p)
  }

  /** However the reads are cut, a chunk is exactly as urgent as the most urgent watch linked to any watch in it. */
  lemma ChunkUrgencyExact(ws: seq<WatchHandle>, gap: nat, budget: nat, c: CoalescedRead, x: Slot)
    requires DistinctIds(ws) && forall w :: w in ws ==> w.region.Fits()
    requires c in SplitReads(Coalesced(ws, gap), budget) && x in MemberSlots(c)
    ensures UrgencyAround(ws, gap, x, c.priority)
  {
    var r := SplitPriority(Coalesced(ws, gap), budget, c);
    CoalescePriority(ws, gap, r);
    forall v | v in ws
      ensures SlotOf(v) in MemberSlots(r) <==> Linked(WatchSlots(ws), gap, x, SlotOf(v))
    {
      ComponentOf(ws, gap, r, x, SlotOf(v));
      WatchSlotsMember(ws, SlotOf(v));
    }
  }

  /** In every cycle of every run: at any budget, a pending chunk is as urgent as the most urgent captured bulk watch
      linked to a watch in it. */
  lemma PendingUrgency(dev: Device, s: Sys, clock: nat, budget: nat, c: CoalescedRead, x: Slot)
    requires Reachable(dev, s) && s.eng.phase.SawAll?
    requires c in PendingChunks(Apply(s, Capture(clock)).eng, budget) && x in MemberSlots(c)
    ensures UrgencyAround(BulkOf(ActiveAt(s, clock)), s.eng.cfg.coalesceGap, x, c.priority)
  {
    var active := ActiveAt(s, clock);
    var ws, e := BulkOf(active), Apply(s, Capture(clock)).eng;
    ReachableInv(dev, s);
    ActiveDistinct(s.reg, s.reg.nextId, clock, s.eng.cfg.demandWindow);
    TiersDistinct(active);
    forall w | w in ws ensures w.region.Fits() { TierEntry(s, clock, w); }
    PendingReadsMember(SplitReads(e.bulk, budget), e.requests, e.readState, e.done, c);
    ChunkUrgencyExact(ws, s.eng.cfg.coalesceGap, budget, c, x);
  }
}
