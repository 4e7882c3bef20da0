/** Coalescing, splitting and slicing back against the simple form: one read per watch. */
module BatchedReads {
  import opened Types
  import opened Coalesce
  import CT = CoalesceTheorems
  import opened Split
  import ST = SplitTheorems
  import opened Fulfil
  import opened Snapshots

  /** The reads a drain iteration starts from. */
  function Chunked(ws: seq<WatchHandle>, gap: nat, budget: nat): seq<CoalescedRead> {
    SplitReads(Coalesced(ws, gap), budget)
  }

  lemma CoalescedWellFormed(ws: seq<WatchHandle>, gap: nat)
    requires forall w :: w in ws ==> w.region.Fits()
    ensures forall r :: r in Coalesced(ws, gap) ==> WellFormed(r)
  {
    CT.CoalesceHulls(ws, gap);
  }

  lemma ChunkedWellFormed(ws: seq<WatchHandle>, gap: nat, budget: nat)
    requires forall w :: w in ws ==> w.region.Fits()
    ensures forall r :: r in Chunked(ws, gap, budget) ==> WellFormed(r)
  {
    CoalescedWellFormed(ws, gap);
    forall r | r in Chunked(ws, gap, budget) ensures WellFormed(r) {
      ST.SplitBounds(Coalesced(ws, gap), budget, r);
    }
  }

  lemma SplitSlots(rs: seq<CoalescedRead>, budget: nat, s: Slot)
    ensures s in AllSlots(SplitReads(rs, budget)) <==> s in AllSlots(rs)
  {
    ST.SplitConserves(rs, budget);
    assert s in multiset(AllSlots(SplitReads(rs, budget))) <==> s in multiset(AllSlots(rs));
  }

  lemma ChunkedSlots(ws: seq<WatchHandle>, gap: nat, budget: nat, s: Slot)
    ensures s in AllSlots(Chunked(ws, gap, budget)) <==> s in WatchSlots(ws)
  {
    SplitSlots(Coalesced(ws, gap), budget, s);
    CT.CoalesceConserves(ws, gap);
    assert s in multiset(AllSlots(Coalesced(ws, gap))) <==> s in multiset(WatchSlots(ws));
  }

  /** No two slots give one watch two regions. */
  predicate Consistent(slots: seq<Slot>) { forall a, b :: a in slots && b in slots && a.id == b.id ==> a == b }

  lemma DistinctConsistent(ws: seq<WatchHandle>)
    requires DistinctIds(ws)
    ensures Consistent(WatchSlots(ws))
  {
    forall a, b | a in WatchSlots(ws) && b in WatchSlots(ws) && a.id == b.id ensures a == b {
      WatchSlotsMember(ws, a);
      WatchSlotsMember(ws, b);
    }
  }

  predicate Names(slots: seq<Slot>, id: WatchId) { exists s :: s in slots && s.id == id }

  predicate ReadAs(c: Cache, s: Slot, mem: Memory) {
    && s.id in c.data && c.data[s.id] == ReadMemory(mem, s.region)
    && s.id in c.regions && c.regions[s.id] == s.region
    && s.id in c.ages && c.ages[s.id] == 0
  }

  predicate Unchanged(c: Cache, d: Cache, id: WatchId) {
    && (id in c.data <==> id in d.data) && (id in c.data ==> c.data[id] == d.data[id])
    && (id in c.regions <==> id in d.regions) && (id in c.regions ==> c.regions[id] == d.regions[id])
    && (id in c.ages <==> id in d.ages) && (id in c.ages ==> c.ages[id] == d.ages[id])
  }

  lemma {:induction false} DirectUnnamed(c: Cache, slots: seq<Slot>, mem: Memory, id: WatchId)
    requires !Names(slots, id)
    ensures Unchanged(c, DirectReads(c, slots, mem), id)
    decreases |slots|
  {
    if slots != [] {
      assert slots[0] in slots;
      assert !Names(slots[1..], id);
      DirectUnnamed(Put(c, slots[0].id, slots[0].region, ReadMemory(mem, slots[0].region)), slots[1..], mem, id);
    }
  }

  lemma {:induction false} DirectNamed(c: Cache, slots: seq<Slot>, mem: Memory, s: Slot)
    requires Consistent(slots)
    requires s in slots || (ReadAs(c, s, mem) && forall a :: a in slots && a.id == s.id ==> a == s)
    ensures ReadAs(DirectReads(c, slots, mem), s, mem)
    decreases |slots|
  {
    if slots != [] {
      var first := slots[0];
      assert first in slots;
      DirectNamed(Put(c, first.id, first.region, ReadMemory(mem, first.region)), slots[1..], mem, s);
    }
  }

  lemma CacheEqual(c: Cache, d: Cache)
    requires forall id :: Unchanged(c, d, id)
    ensures c == d
  {
    forall id ensures id in c.data <==> id in d.data { assert Unchanged(c, d, id); }
    forall id ensures id in c.regions <==> id in d.regions { assert Unchanged(c, d, id); }
    forall id ensures id in c.ages <==> id in d.ages { assert Unchanged(c, d, id); }
    forall id | id in c.data ensures c.data[id] == d.data[id] { assert Unchanged(c, d, id); }
    forall id | id in c.regions ensures c.regions[id] == d.regions[id] { assert Unchanged(c, d, id); }
    forall id | id in c.ages ensures c.ages[id] == d.ages[id] { assert Unchanged(c, d, id); }
    assert c.data == d.data && c.regions == d.regions && c.ages == d.ages;
  }

  /** Reading the same slots in another order, or more than once, gives the same cache. */
  lemma SameSlotsSameCache(c: Cache, a: seq<Slot>, b: seq<Slot>, mem: Memory)
    requires Consistent(a) && forall s :: s in a <==> s in b
    ensures DirectReads(c, a, mem) == DirectReads(c, b, mem)
  {
    var x, y := DirectReads(c, a, mem), DirectReads(c, b, mem);
    forall id ensures Unchanged(x, y, id) {
      if Names(a, id) {
        var s :| s in a && s.id == id;
        DirectNamed(c, a, mem, s);
        DirectNamed(c, b, mem, s);
      } else {
        assert !Names(b, id);
        DirectUnnamed(c, a, mem, id);
        DirectUnnamed(c, b, mem, id);
      }
    }
    CacheEqual(x, y);
  }

  /** Batched reading refines single reads: whatever the gap and the budget, coalescing, splitting, reading
      every chunk in full and slicing back leaves the cache that reading each watch by itself leaves. */
  lemma BatchingRefinesSingleReads(c: Cache, ws: seq<WatchHandle>, gap: nat, budget: nat, blobs: seq<seq<Byte>>,
      mem: Memory)
    requires DistinctIds(ws) && forall w :: w in ws ==> w.region.Fits()
    requires FullReply(blobs, Chunked(ws, gap, budget), mem)
    ensures Applied(c, Chunked(ws, gap, budget), blobs) == DirectReads(c, WatchSlots(ws), mem)
  {
    var rs := Chunked(ws, gap, budget);
    ChunkedWellFormed(ws, gap, budget);
    AppliedDirect(c, rs, blobs, mem);
    DistinctConsistent(ws);
    forall s ensures s in WatchSlots(ws) <==> s in AllSlots(rs) { ChunkedSlots(ws, gap, budget, s); }
    SameSlotsSameCache(c, WatchSlots(ws), AllSlots(rs), mem);
  }

  /** ... and so every watch holds exactly the memory of its own region. */
  lemma BatchingReadsEveryWatch(c: Cache, ws: seq<WatchHandle>, gap: nat, budget: nat, blobs: seq<seq<Byte>>,
      mem: Memory, w: WatchHandle)
    requires DistinctIds(ws) && (forall v :: v in ws ==> v.region.Fits()) && w in ws
    requires FullReply(blobs, Chunked(ws, gap, budget), mem)
    ensures ReadAs(Applied(c, Chunked(ws, gap, budget), blobs), SlotOf(w), mem)
  {
    BatchingRefinesSingleReads(c, ws, gap, budget, blobs, mem);
    DistinctConsistent(ws);
    WatchSlotsMember(ws, SlotOf(w));
    DirectNamed(c, WatchSlots(ws), mem, SlotOf(w));
  }

  lemma SplitIds(rs: seq<CoalescedRead>, budget: nat)
    ensures Ids(SplitReads(rs, budget)) == Ids(rs)
  {
    forall id ensures id in Ids(SplitReads(rs, budget)) <==> id in Ids(rs) {
      IdsSlots(rs, id);
      IdsSlots(SplitReads(rs, budget), id);
      forall s ensures s in AllSlots(SplitReads(rs, budget)) <==> s in AllSlots(rs) { SplitSlots(rs, budget, s); }
    }
  }

  lemma CoalescedIds(ws: seq<WatchHandle>, gap: nat, id: WatchId)
    ensures id in Ids(Coalesced(ws, gap)) <==> exists w :: w in ws && w.id == id
  {
    CT.CoalesceConserves(ws, gap);
    IdsSlots(Coalesced(ws, gap), id);
    assert forall s :: s in multiset(AllSlots(Coalesced(ws, gap))) <==> s in multiset(WatchSlots(ws));
    if w :| w in ws && w.id == id {
      WatchSlotsMember(ws, SlotOf(w));
      assert SlotOf(w) in multiset(WatchSlots(ws));
    }
    if s :| s in AllSlots(Coalesced(ws, gap)) && s.id == id {
      assert s in multiset(AllSlots(Coalesced(ws, gap)));
      WatchSlotsMember(ws, s);
    }
  }

  /** The backlog report does not depend on how the reads were cut: for every budget it is about the
      same watches, hence the same count, oldest age and average age; and it reports none exactly when
      no chunk is pending. */
  lemma BacklogChunkFree(rs: seq<CoalescedRead>, budget: nat, req: Requests, st: ReadStates, cycle: nat,
                         p: PendingSummary, q: PendingSummary)
    requires Reports(p, Backlog(SplitReads(rs, budget), req, st), st, cycle)
    requires Reports(q, Backlog(rs, req, st), st, cycle)
    ensures p.watches == q.watches && p.oldest == q.oldest && p.avg == q.avg
    ensures p.watches == 0 <==> forall r :: r in SplitReads(rs, budget) ==> !IsPending(r, req, st, {})
  {
    SplitIds(rs, budget);
    var ids := Backlog(rs, req, st);
    var a :| OldestAge(a, ids, st, cycle) && p.oldest == Min(a, U32_MAX);
    var b :| OldestAge(b, ids, st, cycle) && q.oldest == Min(b, U32_MAX);
    OldestAgeUnique(a, b, ids, st, cycle);
    BacklogEmpty(SplitReads(rs, budget), req, st);
  }
}
