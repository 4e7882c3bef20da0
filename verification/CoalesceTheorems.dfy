/** What `coalesce` promises: a partition of the watches into their connected components. */
module CoalesceTheorems {
  import opened Types
  import opened Sorting
  import opened Coalesce

  // ---------------------------------------------------------------------------
  // Conservation: every watch is a member of exactly one read.

  lemma {:induction false} InsertSlots(w: WatchHandle, ws: seq<WatchHandle>)
    ensures multiset(WatchSlots(Insert(w, ws, AddressLe))) == multiset{SlotOf(w)} + multiset(WatchSlots(ws))
  {
    if ws == [] || AddressLe(w, ws[0]) {
      WatchSlotsAppend([w], ws);
    } else {
      InsertSlots(w, ws[1..]);
      WatchSlotsAppend([ws[0]], Insert(w, ws[1..], AddressLe));
      WatchSlotsAppend([ws[0]], ws[1..]);
      assert ws == [ws[0]] + ws[1..];
    }
  }

  lemma {:induction false} SortSlots(ws: seq<WatchHandle>)
    ensures multiset(WatchSlots(Sort(ws, AddressLe))) == multiset(WatchSlots(ws))
  {
    if ws != [] {
      SortSlots(ws[1..]);
      InsertSlots(ws[0], Sort(ws[1..], AddressLe));
      WatchSlotsAppend([ws[0]], ws[1..]);
      assert ws == [ws[0]] + ws[1..];
    }
  }

  /** A sorted, non-empty bucket: what a scan starts from. */
  lemma BucketStart(ws: seq<WatchHandle>, key: nat) returns (s: seq<WatchHandle>)
    requires Group(ws, key) != []
    ensures s == Sort(Group(ws, key), AddressLe) && s != [] && [s[0]] + s[1..] == s
    ensures RunState(s[0].region.address, s[0].region.End(), [s[0]], s[1..])
    ensures forall w :: w in s <==> w in ws && w.region.SpaceKey() == key
    ensures forall v, w :: v in s && w in s ==> v.region.SameSpace(w.region)
  {
    var g := Group(ws, key);
    s := Sort(g, AddressLe);
    SortedBucket(g);
    forall w ensures w in s <==> w in ws && w.region.SpaceKey() == key {
      SortMember(g, AddressLe, w);
      GroupMembers(ws, key, w);
    }
    forall v, w | v in s && w in s ensures v.region.SameSpace(w.region) {
      SpaceKeyInjective(v.region, w.region);
    }
  }

  lemma GroupRunsSlots(ws: seq<WatchHandle>, gap: nat, key: nat)
    ensures multiset(AllSlots(GroupRuns(Group(ws, key), gap))) == multiset(WatchSlots(Group(ws, key)))
  {
    var g := Group(ws, key);
    if g != [] {
      var s := BucketStart(ws, key);
      RunsSlots(s[0].region.address, s[0].region.End(), [s[0]], s[1..], gap);
      SortSlots(g);
    }
  }

  function Below(ws: seq<WatchHandle>, key: nat): seq<WatchHandle> {
    if ws == [] then []
    else (if ws[0].region.SpaceKey() < key then [ws[0]] else []) + Below(ws[1..], key)
  }

  lemma ConsSlots(w: WatchHandle, ws: seq<WatchHandle>)
    ensures multiset(WatchSlots([w] + ws)) == multiset{SlotOf(w)} + multiset(WatchSlots(ws))
  {
    assert ([w] + ws)[1..] == ws;
  }

  /** Adding the bucket of `key` to what lies below it. */
  predicate Grows(ws: seq<WatchHandle>, key: nat) {
    multiset(WatchSlots(Below(ws, key + 1)))
      == multiset(WatchSlots(Below(ws, key))) + multiset(WatchSlots(Group(ws, key)))
  }

  lemma {:induction false} BelowGrows(ws: seq<WatchHandle>, key: nat)
    ensures Grows(ws, key)
    decreases ws
  {
    if ws != [] {
      BelowGrows(ws[1..], key);
      var k := ws[0].region.SpaceKey();
      if k < key { GrowsBelow(ws, key); }
      else if k == key { GrowsInside(ws, key); }
      else { GrowsAbove(ws, key); }
    }
  }

  lemma GrowsAbove(ws: seq<WatchHandle>, key: nat)
    requires ws != [] && Grows(ws[1..], key) && ws[0].region.SpaceKey() > key
    ensures Grows(ws, key)
  {
    assert Below(ws, key + 1) == Below(ws[1..], key + 1);
    assert Below(ws, key) == Below(ws[1..], key) && Group(ws, key) == Group(ws[1..], key);
  }

  lemma GrowsBelow(ws: seq<WatchHandle>, key: nat)
    requires ws != [] && Grows(ws[1..], key) && ws[0].region.SpaceKey() < key
    ensures Grows(ws, key)
  {
    ConsSlots(ws[0], Below(ws[1..], key + 1));
    ConsSlots(ws[0], Below(ws[1..], key));
    assert Group(ws, key) == Group(ws[1..], key);
  }

  lemma GrowsInside(ws: seq<WatchHandle>, key: nat)
    requires ws != [] && Grows(ws[1..], key) && ws[0].region.SpaceKey() == key
    ensures Grows(ws, key)
  {
    ConsSlots(ws[0], Below(ws[1..], key + 1));
    ConsSlots(ws[0], Group(ws[1..], key));
    assert Below(ws, key) == Below(ws[1..], key);
  }

  lemma {:induction false} BelowAll(ws: seq<WatchHandle>)
    ensures Below(ws, SPACE_KEYS) == ws
  {
    if ws != [] { BelowAll(ws[1..]); }
  }

  predicate ConservesBelow(ws: seq<WatchHandle>, gap: nat, key: nat) {
    multiset(AllSlots(BelowKey(ws, gap, key))) == multiset(WatchSlots(Below(ws, key)))
  }

  lemma BelowKeySlots(ws: seq<WatchHandle>, gap: nat, key: nat)
    ensures ConservesBelow(ws, gap, key)
  {
    BelowKeyBase(ws, gap);
    var k := 0;
    while k < key
      invariant k <= key && ConservesBelow(ws, gap, k)
    {
      BelowKeyStep(ws, gap, k);
      k := k + 1;
    }
  }

  lemma BelowKeyBase(ws: seq<WatchHandle>, gap: nat)
    ensures ConservesBelow(ws, gap, 0)
  {
    BelowNone(ws);
  }

  lemma BelowKeyStep(ws: seq<WatchHandle>, gap: nat, key: nat)
    requires ConservesBelow(ws, gap, key)
    ensures ConservesBelow(ws, gap, key + 1)
  {
    AllSlotsAppend(BelowKey(ws, gap, key), GroupRuns(Group(ws, key), gap));
    GroupRunsSlots(ws, gap, key);
    BelowGrows(ws, key);
  }

  lemma {:induction false} BelowNone(ws: seq<WatchHandle>)
    ensures Below(ws, 0) == []
  {
    if ws != [] { BelowNone(ws[1..]); }
  }

  /** Nothing is dropped, duplicated or moved: the members are the watches. */
  lemma CoalesceConserves(ws: seq<WatchHandle>, gap: nat)
    ensures multiset(AllSlots(Coalesced(ws, gap))) == multiset(WatchSlots(ws))
  {
    BelowKeySlots(ws, gap, SPACE_KEYS);
    BelowAll(ws);
  }

  // ---------------------------------------------------------------------------
  // Chains of near watches.

  predicate Near(a: MemRegion, b: MemRegion, gap: nat) {
    a.SameSpace(b) && a.address <= b.End() + gap && b.address <= a.End() + gap
  }

  predicate Chain(all: seq<Slot>, gap: nat, p: seq<Slot>) {
    && p != []
    && (forall i :: 0 <= i < |p| ==> p[i] in all)
    && (forall i :: 0 <= i < |p| - 1 ==> Near(p[i].region, p[i + 1].region, gap))
  }

  ghost predicate Linked(all: seq<Slot>, gap: nat, a: Slot, b: Slot) {
    exists p :: Chain(all, gap, p) && p[0] == a && p[|p| - 1] == b
  }

  lemma LinkedSelf(all: seq<Slot>, gap: nat, a: Slot)
    requires a in all
    ensures Linked(all, gap, a, a)
  {
    assert Chain(all, gap, [a]);
  }

  lemma LinkedStep(all: seq<Slot>, gap: nat, a: Slot, b: Slot, c: Slot)
    requires a in all && Near(a.region, b.region, gap) && Linked(all, gap, b, c)
    ensures Linked(all, gap, a, c)
  {
    var p: seq<Slot> :| Chain(all, gap, p) && p[0] == b && p[|p| - 1] == c;
    assert Chain(all, gap, [a] + p);
  }

  lemma LinkedSymmetric(all: seq<Slot>, gap: nat, a: Slot, b: Slot)
    requires Linked(all, gap, a, b)
    ensures Linked(all, gap, b, a)
  {
    var p: seq<Slot> :| Chain(all, gap, p) && p[0] == a && p[|p| - 1] == b;
    var q := seq(|p|, i requires 0 <= i < |p| => p[|p| - 1 - i]);
    forall i | 0 <= i < |q| - 1 ensures Near(q[i].region, q[i + 1].region, gap) {
      var k := |p| - 2 - i;
      assert Near(p[k].region, p[k + 1].region, gap);
    }
    assert Chain(all, gap, q);
  }

  lemma LinkedTransitive(all: seq<Slot>, gap: nat, a: Slot, b: Slot, c: Slot)
    requires Linked(all, gap, a, b) && Linked(all, gap, b, c)
    ensures Linked(all, gap, a, c)
  {
    var p: seq<Slot> :| Chain(all, gap, p) && p[0] == a && p[|p| - 1] == b;
    var q: seq<Slot> :| Chain(all, gap, q) && q[0] == b && q[|q| - 1] == c;
    var r := p + q[1..];
    forall i | 0 <= i < |r| - 1 ensures Near(r[i].region, r[i + 1].region, gap) {
      if i < |p| - 1 {
        assert Near(p[i].region, p[i + 1].region, gap);
      } else {
        assert r[i] == q[i - |p| + 1];
        assert Near(q[i - |p| + 1].region, q[i - |p| + 2].region, gap);
      }
    }
    assert Chain(all, gap, r);
  }

  // ---------------------------------------------------------------------------
  // What a scan keeps.

  function SizeSum(ms: seq<Slot>): nat {
    if ms == [] then 0 else SizeSum(ms[..|ms| - 1]) + ms[|ms| - 1].region.size
  }

  /** [start, end) is exactly what `ms` spans. */
  predicate Hull(start: nat, end: nat, ms: seq<WatchHandle>) {
    && ms != [] && ms[0].region.address == start && start <= end <= U32_MAX
    && (forall w :: w in ms ==> start <= w.region.address && w.region.End() <= end && w.region.SameSpace(ms[0].region))
    && (exists w :: w in ms && w.region.End() == end)
  }

  predicate OverReads(start: nat, end: nat, ms: seq<WatchHandle>, gap: nat) {
    end <= start + SizeSum(WatchSlots(ms)) + gap * (|ms| - 1)
  }

  ghost predicate OneChain(ms: seq<WatchHandle>, gap: nat, all: seq<Slot>) {
    && ms != []
    && (forall w :: w in ms ==> SlotOf(w) in all && Linked(all, gap, SlotOf(w), SlotOf(ms[0])))
  }

  ghost predicate GoodRun(start: nat, end: nat, ms: seq<WatchHandle>, gap: nat, all: seq<Slot>) {
    Hull(start, end, ms) && OverReads(start, end, ms, gap) && OneChain(ms, gap, all)
  }

  /** The read is the tight hull of its members, over-reads at most `gap` per join, and is one chain. */
  ghost predicate GoodRead(r: CoalescedRead, gap: nat, all: seq<Slot>) {
    && WellFormed(r) && r.members[0].off == 0
    && r.region.size <= SizeSum(MemberSlots(r)) + gap * (|r.members| - 1)
    && (forall s :: s in MemberSlots(r) ==> s in all && Linked(all, gap, s, MemberSlots(r)[0]))
  }

  lemma FinishWellFormed(start: nat, end: nat, ms: seq<WatchHandle>)
    requires Hull(start, end, ms)
    ensures WellFormed(FinishRun(start, end, ms)) && FinishRun(start, end, ms).members[0].off == 0
  {
    var r := FinishRun(start, end, ms);
    assert r.members[0].off == 0 && r.members[0] in r.members;
    var w :| w in ms && w.region.End() == end;
    var reach := Member(w.id, w.region.address - start, w.region.size);
    MembersFromMember(start, ms, reach);
    assert reach in r.members && reach.off + reach.size == r.region.size;
    forall m | m in r.members ensures m.off + m.size <= r.region.size {
      MembersFromMember(start, ms, m);
    }
  }

  lemma FinishGood(start: nat, end: nat, ms: seq<WatchHandle>, gap: nat, all: seq<Slot>)
    requires GoodRun(start, end, ms, gap, all)
    ensures GoodRead(FinishRun(start, end, ms), gap, all)
  {
    FinishWellFormed(start, end, ms);
    FinishRunSlots(start, end, ms);
    forall s | s in WatchSlots(ms) ensures s in all && Linked(all, gap, s, WatchSlots(ms)[0]) {
      WatchSlotsMember(ms, s);
    }
  }

  lemma ExtendHull(start: nat, end: nat, ms: seq<WatchHandle>, w: WatchHandle)
    requires Hull(start, end, ms)
    requires w.region.Fits() && w.region.SameSpace(ms[0].region) && start <= w.region.address
    ensures Hull(start, Max(end, w.region.End()), ms + [w])
  {
    var grown := ms + [w];
    assert forall v :: v in grown <==> v in ms || v == w;
    var reach :| reach in ms && reach.region.End() == end;
    assert reach in grown;
  }

  lemma ExtendChain(start: nat, end: nat, ms: seq<WatchHandle>, w: WatchHandle, gap: nat, all: seq<Slot>)
    requires Hull(start, end, ms) && OneChain(ms, gap, all) && SlotOf(w) in all
    requires w.region.address <= end + gap && w.region.SameSpace(ms[0].region)
    requires forall v :: v in ms ==> v.region.address <= w.region.address
    ensures OneChain(ms + [w], gap, all)
  {
    var reach :| reach in ms && reach.region.End() == end;
    assert Near(w.region, reach.region, gap);
    LinkedStep(all, gap, SlotOf(w), SlotOf(reach), SlotOf(ms[0]));
    assert forall v :: v in ms + [w] <==> v in ms || v == w;
  }

  lemma ExtendSize(start: nat, end: nat, ms: seq<WatchHandle>, w: WatchHandle, gap: nat)
    requires ms != [] && start <= end && OverReads(start, end, ms, gap) && w.region.address <= end + gap
    ensures OverReads(start, Max(end, w.region.End()), ms + [w], gap)
  {
    WatchSlotsAppend(ms, [w]);
    assert WatchSlots([w]) == [SlotOf(w)];
    var s := WatchSlots(ms + [w]);
    assert s[..|s| - 1] == WatchSlots(ms) && s[|s| - 1] == SlotOf(w);
    assert gap * (|ms + [w]| - 1) == gap * (|ms| - 1) + gap;
  }

  lemma ExtendGood(start: nat, end: nat, ms: seq<WatchHandle>, w: WatchHandle, gap: nat, all: seq<Slot>)
    requires GoodRun(start, end, ms, gap, all)
    requires Follows(ms, [w], all) && start <= w.region.address <= end + gap
    ensures GoodRun(start, Max(end, w.region.End()), ms + [w], gap, all)
  {
    assert w in [w];
    ExtendHull(start, end, ms, w);
    ExtendSize(start, end, ms, w, gap);
    ExtendChain(start, end, ms, w, gap, all);
  }

  lemma StartGood(w: WatchHandle, gap: nat, all: seq<Slot>)
    requires w.region.Fits() && SlotOf(w) in all
    ensures GoodRun(w.region.address, w.region.End(), [w], gap, all)
  {
    LinkedSelf(all, gap, SlotOf(w));
    assert WatchSlots([w])[..0] == [];
    assert w in [w] && WatchSlots([w]) == [SlotOf(w)];
  }

  /** `rest` continues the run of `ms` in address order, within one space. */
  ghost predicate Follows(ms: seq<WatchHandle>, rest: seq<WatchHandle>, all: seq<Slot>)
    requires ms != []
  {
    && (forall w :: w in rest ==> w.region.Fits() && SlotOf(w) in all && w.region.SameSpace(ms[0].region))
    && (forall v, w :: v in ms && w in rest ==> v.region.address <= w.region.address)
  }

  lemma FollowsStep(ms: seq<WatchHandle>, rest: seq<WatchHandle>, all: seq<Slot>)
    requires ms != [] && rest != [] && Sorted(rest, AddressLe) && Follows(ms, rest, all)
    ensures Follows(ms, [rest[0]], all) && Follows(ms + [rest[0]], rest[1..], all) && Follows([rest[0]], rest[1..], all)
  {
    assert rest[0] in rest;
    forall v, w | v in ms + [rest[0]] && w in rest[1..] ensures v.region.address <= w.region.address {
      var k :| 1 <= k < |rest| && rest[k] == w;
      assert AddressLe(rest[0], rest[k]);
      assert v in ms || v == rest[0];
    }
  }

  ghost predicate GoodReads(rs: seq<CoalescedRead>, gap: nat, all: seq<Slot>) {
    forall r :: r in rs ==> GoodRead(r, gap, all)
  }

  lemma GoodCons(r: CoalescedRead, rs: seq<CoalescedRead>, gap: nat, all: seq<Slot>)
    requires GoodRead(r, gap, all) && GoodReads(rs, gap, all)
    ensures GoodReads([r] + rs, gap, all)
  {
  }

  lemma {:induction false} RunsGood(start: nat, end: nat, ms: seq<WatchHandle>, rest: seq<WatchHandle>, gap: nat,
      all: seq<Slot>)
    requires RunState(start, end, ms, rest) && GoodRun(start, end, ms, gap, all)
    requires Follows(ms, rest, all)
    ensures GoodReads(Runs(start, end, ms, rest, gap), gap, all)
    decreases rest
  {
    FinishGood(start, end, ms, gap, all);
    if rest == [] {
      GoodCons(FinishRun(start, end, ms), [], gap, all);
      assert Runs(start, end, ms, rest, gap) == [FinishRun(start, end, ms)] + [];
    } else {
      var w := rest[0];
      FollowsStep(ms, rest, all);
      if w.region.address <= SatAdd(end, gap) {
        ExtendGood(start, end, ms, w, gap, all);
        RunsGood(start, Max(end, w.region.End()), ms + [w], rest[1..], gap, all);
      } else {
        StartGood(w, gap, all);
        RunsGood(w.region.address, w.region.End(), [w], rest[1..], gap, all);
        GoodCons(FinishRun(start, end, ms), Runs(w.region.address, w.region.End(), [w], rest[1..], gap), gap, all);
      }
    }
  }

  // ---------------------------------------------------------------------------
  // Reads of one space are more than `gap` apart.

  predicate Apart(a: MemRegion, b: MemRegion, gap: nat) {
    a.SameSpace(b) ==> a.End() + gap < b.address || b.End() + gap < a.address
  }

  predicate AllApart(rs: seq<CoalescedRead>, gap: nat) {
    forall i, j :: 0 <= i < j < |rs| ==> Apart(rs[i].region, rs[j].region, gap)
  }

  lemma {:induction false} RunsApart(start: nat, end: nat, ms: seq<WatchHandle>, rest: seq<WatchHandle>, gap: nat)
    requires RunState(start, end, ms, rest)
    requires forall w :: w in rest ==> w.region.Fits()
    ensures AllApart(Runs(start, end, ms, rest, gap), gap)
    ensures forall r :: r in Runs(start, end, ms, rest, gap) ==> start <= r.region.address
    decreases rest
  {
    if rest != [] {
      var w := rest[0];
      if w.region.address <= SatAdd(end, gap) {
        RunsApart(start, Max(end, w.region.End()), ms + [w], rest[1..], gap);
      } else {
        assert w in rest;
        RunsApart(w.region.address, w.region.End(), [w], rest[1..], gap);
        var tail := Runs(w.region.address, w.region.End(), [w], rest[1..], gap);
        var all := Runs(start, end, ms, rest, gap);
        assert all[1..] == tail;
        forall j | 1 <= j < |all| ensures Apart(all[0].region, all[j].region, gap) {
          assert all[j] == tail[j - 1];
          assert tail[j - 1] in tail;
        }
        forall i, j | 1 <= i < j < |all| ensures Apart(all[i].region, all[j].region, gap) {
          assert all[i] == tail[i - 1] && all[j] == tail[j - 1];
        }
      }
    }
  }

  // ---------------------------------------------------------------------------
  // The whole result.

  predicate KeysBelow(rs: seq<CoalescedRead>, key: nat) {
    forall r :: r in rs ==> r.region.SpaceKey() < key
  }

  lemma {:induction false} RunsSpace(start: nat, end: nat, ms: seq<WatchHandle>, rest: seq<WatchHandle>, gap: nat,
      key: nat)
    requires RunState(start, end, ms, rest)
    requires ms[0].region.SpaceKey() == key && forall w :: w in rest ==> w.region.SpaceKey() == key
    ensures forall r :: r in Runs(start, end, ms, rest, gap) ==> r.region.SpaceKey() == key
    decreases rest
  {
    assert FinishRun(start, end, ms).region.SpaceKey() == key;
    if rest != [] {
      var w := rest[0];
      assert w in rest;
      if w.region.address <= SatAdd(end, gap) {
        RunsSpace(start, Max(end, w.region.End()), ms + [w], rest[1..], gap, key);
      } else {
        RunsSpace(w.region.address, w.region.End(), [w], rest[1..], gap, key);
      }
    }
  }

  lemma BucketGood(ws: seq<WatchHandle>, gap: nat, key: nat)
    requires forall w :: w in ws ==> w.region.Fits()
    ensures var rs := GroupRuns(Group(ws, key), gap);
            && GoodReads(rs, gap, WatchSlots(ws)) && AllApart(rs, gap)
            && forall r :: r in rs ==> r.region.SpaceKey() == key
  {
    if Group(ws, key) != [] {
      var s := BucketStart(ws, key);
      var first, rest := s[0], s[1..];
      assert forall w :: w in rest ==> w in s;
      assert first in s;
      forall w | w in s ensures SlotOf(w) in WatchSlots(ws) { WatchSlotsMember(ws, SlotOf(w)); }
      StartGood(first, gap, WatchSlots(ws));
      RunsGood(first.region.address, first.region.End(), [first], rest, gap, WatchSlots(ws));
      RunsApart(first.region.address, first.region.End(), [first], rest, gap);
      RunsSpace(first.region.address, first.region.End(), [first], rest, gap, key);
    }
  }

  lemma ApartAppend(a: seq<CoalescedRead>, b: seq<CoalescedRead>, gap: nat, key: nat)
    requires AllApart(a, gap) && AllApart(b, gap)
    requires KeysBelow(a, key) && forall r :: r in b ==> r.region.SpaceKey() == key
    ensures AllApart(a + b, gap) && KeysBelow(a + b, key + 1)
  {
    forall i, j | 0 <= i < |a| && |a| <= j < |a + b| ensures Apart((a + b)[i].region, (a + b)[j].region, gap) {
      assert (a + b)[i] in a && (a + b)[j] in b;
      SpaceKeyInjective((a + b)[i].region, (a + b)[j].region);
    }
  }

  lemma BelowKeyGood(ws: seq<WatchHandle>, gap: nat, key: nat)
    requires forall w :: w in ws ==> w.region.Fits()
    ensures GoodReads(BelowKey(ws, gap, key), gap, WatchSlots(ws))
    ensures AllApart(BelowKey(ws, gap, key), gap) && KeysBelow(BelowKey(ws, gap, key), key)
  {
    var k := 0;
    while k < key
      invariant k <= key && GoodReads(BelowKey(ws, gap, k), gap, WatchSlots(ws))
      invariant AllApart(BelowKey(ws, gap, k), gap) && KeysBelow(BelowKey(ws, gap, k), k)
    {
      BucketGood(ws, gap, k);
      ApartAppend(BelowKey(ws, gap, k), GroupRuns(Group(ws, k), gap), gap, k);
      assert BelowKey(ws, gap, k + 1) == BelowKey(ws, gap, k) + GroupRuns(Group(ws, k), gap);
      k := k + 1;
    }
  }

  /** Each read is the tight hull of one chain of watches and over-reads at most `gap` bytes per join;
      reads of the same space are more than `gap` apart. */
  lemma CoalesceHulls(ws: seq<WatchHandle>, gap: nat)
    requires forall w :: w in ws ==> w.region.Fits()
    ensures GoodReads(Coalesced(ws, gap), gap, WatchSlots(ws))
    ensures AllApart(Coalesced(ws, gap), gap)
  {
    BelowKeyGood(ws, gap, SPACE_KEYS);
  }

  /** A slot of the input is a slot of some read, and the other way round. */
  lemma CoalesceCovers(ws: seq<WatchHandle>, gap: nat, s: Slot)
    ensures s in WatchSlots(ws) <==> exists r :: r in Coalesced(ws, gap) && s in MemberSlots(r)
  {
    CoalesceConserves(ws, gap);
    assert s in multiset(AllSlots(Coalesced(ws, gap))) <==> s in multiset(WatchSlots(ws));
    AllSlotsMember(Coalesced(ws, gap), s);
  }

  lemma ApartPair(rs: seq<CoalescedRead>, gap: nat, r: CoalescedRead, q: CoalescedRead)
    requires AllApart(rs, gap) && r in rs && q in rs
    ensures r == q || Apart(r.region, q.region, gap)
  {
  }

  lemma ApartNotNear(r: CoalescedRead, q: CoalescedRead, gap: nat, a: Slot, b: Slot)
    requires WellFormed(r) && WellFormed(q) && Apart(r.region, q.region, gap)
    requires a in MemberSlots(r) && b in MemberSlots(q)
    ensures !Near(a.region, b.region, gap)
  {
    SlotInside(r, a);
    SlotInside(q, b);
  }

  /** Slots in two different reads are never near each other. */
  lemma NearShares(ws: seq<WatchHandle>, gap: nat, r: CoalescedRead, q: CoalescedRead, a: Slot, b: Slot)
    requires forall w :: w in ws ==> w.region.Fits()
    requires r in Coalesced(ws, gap) && q in Coalesced(ws, gap)
    requires a in MemberSlots(r) && b in MemberSlots(q) && Near(a.region, b.region, gap)
    ensures r == q
  {
    CoalesceHulls(ws, gap);
    ApartPair(Coalesced(ws, gap), gap, r, q);
    if r != q { ApartNotNear(r, q, gap, a, b); }
  }

  lemma SlotInside(r: CoalescedRead, s: Slot)
    requires WellFormed(r) && s in MemberSlots(r)
    ensures s.region.SameSpace(r.region)
    ensures r.region.address <= s.region.address && s.region.End() <= r.region.End()
  {
    SlotsInMember(r.region, r.members, s);
  }

  /** Walking a chain never leaves the read it starts in. */
  lemma {:induction false} ChainStays(ws: seq<WatchHandle>, gap: nat, p: seq<Slot>, r: CoalescedRead)
    requires forall w :: w in ws ==> w.region.Fits()
    requires Chain(WatchSlots(ws), gap, p)
    requires r in Coalesced(ws, gap) && p[0] in MemberSlots(r)
    ensures p[|p| - 1] in MemberSlots(r)
    decreases |p|
  {
    if |p| > 1 {
      assert Near(p[0].region, p[1].region, gap) && p[1] in WatchSlots(ws);
      CoalesceCovers(ws, gap, p[1]);
      var q :| q in Coalesced(ws, gap) && p[1] in MemberSlots(q);
      NearShares(ws, gap, r, q, p[0], p[1]);
      var tail := p[1..];
      forall i | 0 <= i < |tail| - 1 ensures Near(tail[i].region, tail[i + 1].region, gap) {
        assert Near(p[i + 1].region, p[i + 2].region, gap);
      }
      ChainStays(ws, gap, tail, r);
    }
  }

  /** `coalesce` computes connected components: two watches share a read exactly when a chain of
      watches of one space, each within `gap` of the next, links them. */
  lemma CoalesceComponents(ws: seq<WatchHandle>, gap: nat, a: Slot, b: Slot)
    requires forall w :: w in ws ==> w.region.Fits()
    requires a in WatchSlots(ws) && b in WatchSlots(ws)
    ensures (exists r :: r in Coalesced(ws, gap) && a in MemberSlots(r) && b in MemberSlots(r))
       <==> Linked(WatchSlots(ws), gap, a, b)
  {
    var all := WatchSlots(ws);
    CoalesceHulls(ws, gap);
    if r :| r in Coalesced(ws, gap) && a in MemberSlots(r) && b in MemberSlots(r) {
      LinkedSymmetric(all, gap, b, MemberSlots(r)[0]);
      LinkedTransitive(all, gap, a, MemberSlots(r)[0], b);
    }
    if Linked(all, gap, a, b) {
      var p: seq<Slot> :| Chain(all, gap, p) && p[0] == a && p[|p| - 1] == b;
      CoalesceCovers(ws, gap, a);
      var r :| r in Coalesced(ws, gap) && a in MemberSlots(r);
      ChainStays(ws, gap, p, r);
    }
  }

  // ---------------------------------------------------------------------------
  // Priorities, and independence of the input order.

  predicate MostUrgent(p: WatchPriority, ws: seq<WatchHandle>, r: CoalescedRead) {
    && (forall w :: w in ws && SlotOf(w) in MemberSlots(r) ==> p.Rank() <= w.priority.Rank())
    && (exists w :: w in ws && SlotOf(w) in MemberSlots(r) && w.priority == p)
  }

  lemma {:induction false} MinPriorityLeast(ms: seq<WatchHandle>)
    requires ms != []
    ensures forall w :: w in ms ==> MinPriority(ms).Rank() <= w.priority.Rank()
    ensures exists w :: w in ms && w.priority == MinPriority(ms)
  {
    if |ms| > 1 {
      MinPriorityLeast(ms[1..]);
      assert ms[0] in ms;
      var w :| w in ms[1..] && w.priority == MinPriority(ms[1..]);
      assert w in ms;
    } else {
      assert ms[0] in ms && MinPriority(ms[1..]) == Low;
    }
  }

  lemma {:induction false} RunsPriority(start: nat, end: nat, ms: seq<WatchHandle>, rest: seq<WatchHandle>, gap: nat,
      r: CoalescedRead)
    requires RunState(start, end, ms, rest) && r in Runs(start, end, ms, rest, gap)
    requires forall w :: w in ms + rest ==> w.region.SameSpace(ms[0].region)
    requires DistinctIds(ms + rest)
    ensures MostUrgent(r.priority, ms + rest, r)
    ensures forall s :: s in MemberSlots(r) ==> s in WatchSlots(ms + rest)
    decreases rest
  {
    if r == FinishRun(start, end, ms) {
      FinishPriority(start, end, ms, rest);
    } else {
      var w, later := rest[0], rest[1..];
      assert (ms + [w]) + later == ms + rest && [w] + later == rest;
      if w.region.address <= SatAdd(end, gap) {
        RunsPriority(start, Max(end, w.region.End()), ms + [w], later, gap, r);
      } else {
        DistinctTail(ms, rest);
        SameSpaceTail(ms, rest);
        RunsPriority(w.region.address, w.region.End(), [w], later, gap, r);
        PriorityFromTail(ms, rest, r);
      }
    }
  }

  lemma SameSpaceTail(ms: seq<WatchHandle>, rest: seq<WatchHandle>)
    requires ms != [] && rest != [] && forall w :: w in ms + rest ==> w.region.SameSpace(ms[0].region)
    ensures forall w :: w in rest ==> w.region.SameSpace(rest[0].region)
  {
    assert rest[0] in ms + rest;
    assert forall w :: w in rest ==> w in ms + rest;
  }

  lemma DistinctTail(ms: seq<WatchHandle>, rest: seq<WatchHandle>)
    requires DistinctIds(ms + rest)
    ensures DistinctIds(rest) && forall v, w :: v in ms && w in rest ==> v.id != w.id
  {
    var all := ms + rest;
    forall i, j | 0 <= i < j < |rest| ensures rest[i].id != rest[j].id {
      assert all[|ms| + i].id != all[|ms| + j].id;
    }
    forall v, w | v in ms && w in rest ensures v.id != w.id {
      var i :| 0 <= i < |ms| && ms[i] == v;
      var j :| 0 <= j < |rest| && rest[j] == w;
      assert all[i] == v && all[|ms| + j] == w;
    }
  }

  lemma FinishPriority(start: nat, end: nat, ms: seq<WatchHandle>, rest: seq<WatchHandle>)
    requires RunState(start, end, ms, rest) && DistinctIds(ms + rest)
    requires forall w :: w in ms ==> w.region.SameSpace(ms[0].region)
    ensures var r := FinishRun(start, end, ms);
            MostUrgent(r.priority, ms + rest, r) && forall s :: s in MemberSlots(r) ==> s in WatchSlots(ms + rest)
  {
    FinishRunSlots(start, end, ms);
    MinPriorityLeast(ms);
    DistinctTail(ms, rest);
    WatchSlotsAppend(ms, rest);
    forall w | w in ms + rest && SlotOf(w) in WatchSlots(ms) ensures w in ms {
      WatchSlotsMember(ms, SlotOf(w));
    }
    var w :| w in ms && w.priority == MinPriority(ms);
    assert w in ms + rest;
    WatchSlotsMember(ms, SlotOf(w));
  }

  lemma PriorityFromTail(ms: seq<WatchHandle>, rest: seq<WatchHandle>, r: CoalescedRead)
    requires MostUrgent(r.priority, rest, r) && forall s :: s in MemberSlots(r) ==> s in WatchSlots(rest)
    requires forall v, w :: v in ms && w in rest ==> v.id != w.id
    ensures MostUrgent(r.priority, ms + rest, r) && forall s :: s in MemberSlots(r) ==> s in WatchSlots(ms + rest)
  {
    WatchSlotsAppend(ms, rest);
    forall w | w in ms && SlotOf(w) in MemberSlots(r) ensures false {
      WatchSlotsMember(rest, SlotOf(w));
    }
    var w :| w in rest && SlotOf(w) in MemberSlots(r) && w.priority == r.priority;
    assert w in ms + rest;
  }

  lemma {:induction false} GroupDistinct(ws: seq<WatchHandle>, key: nat)
    requires DistinctIds(ws)
    ensures DistinctIds(Group(ws, key))
  {
    if ws != [] {
      assert ws == [ws[0]] + ws[1..];
      DistinctTail([ws[0]], ws[1..]);
      GroupDistinct(ws[1..], key);
      var g := Group(ws[1..], key);
      forall w | w in g ensures w.id != ws[0].id { GroupMembers(ws[1..], key, w); }
    }
  }

  lemma DistinctCons(w: WatchHandle, ws: seq<WatchHandle>)
    ensures DistinctIds([w] + ws) <==> DistinctIds(ws) && forall v :: v in ws ==> v.id != w.id
  {
    var all := [w] + ws;
    if DistinctIds(all) { DistinctTail([w], ws); }
    if DistinctIds(ws) && forall v :: v in ws ==> v.id != w.id {
      forall i, j | 0 <= i < j < |all| ensures all[i].id != all[j].id {
        assert all[j] == ws[j - 1];
      }
    }
  }

  lemma InsertFresh(w: WatchHandle, ws: seq<WatchHandle>, id: WatchId)
    requires w.id != id && forall v :: v in ws ==> v.id != id
    ensures forall v :: v in Insert(w, ws, AddressLe) ==> v.id != id
  {
    InsertBag(w, ws, AddressLe);
    forall v | v in Insert(w, ws, AddressLe) ensures v.id != id {
      assert v in multiset(Insert(w, ws, AddressLe));
    }
  }

  lemma {:induction false} InsertDistinct(w: WatchHandle, ws: seq<WatchHandle>)
    requires DistinctIds([w] + ws)
    ensures DistinctIds(Insert(w, ws, AddressLe))
  {
    if ws != [] && !AddressLe(w, ws[0]) {
      var tail := ws[1..];
      DistinctCons(w, ws);
      DistinctCons(ws[0], tail);
      assert ws == [ws[0]] + tail;
      InsertDistinct(w, tail);
      InsertFresh(w, tail, ws[0].id);
      DistinctCons(ws[0], Insert(w, tail, AddressLe));
    }
  }

  lemma {:induction false} SortDistinct(ws: seq<WatchHandle>)
    requires DistinctIds(ws)
    ensures DistinctIds(Sort(ws, AddressLe))
  {
    if ws != [] {
      assert ws == [ws[0]] + ws[1..];
      DistinctTail([ws[0]], ws[1..]);
      SortDistinct(ws[1..]);
      var tail := Sort(ws[1..], AddressLe);
      forall x | x in tail ensures x.id != ws[0].id { SortMember(ws[1..], AddressLe, x); }
      InsertDistinct(ws[0], tail);
    }
  }

  lemma BucketPriority(ws: seq<WatchHandle>, gap: nat, key: nat, r: CoalescedRead)
    requires DistinctIds(ws) && r in GroupRuns(Group(ws, key), gap)
    ensures MostUrgent(r.priority, ws, r)
  {
    var s := BucketStart(ws, key);
    GroupDistinct(ws, key);
    SortDistinct(Group(ws, key));
    RunsPriority(s[0].region.address, s[0].region.End(), [s[0]], s[1..], gap, r);
    forall w | w in ws && SlotOf(w) in MemberSlots(r) ensures w in s {
      WatchSlotsMember(s, SlotOf(w));
      SameIdSame(ws, w);
    }
  }

  lemma SameIdSame(ws: seq<WatchHandle>, w: WatchHandle)
    requires DistinctIds(ws) && w in ws
    ensures forall v :: v in ws && v.id == w.id ==> v == w
  {
  }

  lemma InSomeBucket(ws: seq<WatchHandle>, gap: nat, key: nat, r: CoalescedRead) returns (k: nat)
    requires r in BelowKey(ws, gap, key)
    ensures r in GroupRuns(Group(ws, k), gap)
    decreases key
  {
    if r in GroupRuns(Group(ws, key - 1), gap) {
      k := key - 1;
    } else {
      k := InSomeBucket(ws, gap, key - 1, r);
    }
  }

  /** A read is as urgent as its most urgent watch. */
  lemma CoalescePriority(ws: seq<WatchHandle>, gap: nat, r: CoalescedRead)
    requires DistinctIds(ws) && r in Coalesced(ws, gap)
    ensures MostUrgent(r.priority, ws, r)
  {
    var k := InSomeBucket(ws, gap, SPACE_KEYS, r);
    BucketPriority(ws, gap, k, r);
  }

  /** The components of two orderings of the same watches have the same slots... */
  lemma SameSlots(ws: seq<WatchHandle>, us: seq<WatchHandle>, gap: nat, r: CoalescedRead) returns (q: CoalescedRead)
    requires forall w :: w in ws ==> w.region.Fits()
    requires forall w :: w in us <==> w in ws
    requires r in Coalesced(ws, gap)
    ensures q in Coalesced(us, gap) && forall s :: s in MemberSlots(r) <==> s in MemberSlots(q)
  {
    CoalesceHulls(ws, gap);
    var a := MemberSlots(r)[0];
    assert a in MemberSlots(r);
    SameInput(ws, us);
    CoalesceCovers(us, gap, a);
    q :| q in Coalesced(us, gap) && a in MemberSlots(q);
    forall s ensures s in MemberSlots(r) <==> s in MemberSlots(q) {
      ComponentOf(ws, gap, r, a, s);
      ComponentOf(us, gap, q, a, s);
      SameLinks(WatchSlots(ws), WatchSlots(us), gap, a, s);
    }
  }

  lemma SameInput(ws: seq<WatchHandle>, us: seq<WatchHandle>)
    requires forall w :: w in us <==> w in ws
    ensures forall s :: s in WatchSlots(us) <==> s in WatchSlots(ws)
  {
    forall s ensures s in WatchSlots(us) <==> s in WatchSlots(ws) {
      WatchSlotsMember(ws, s);
      WatchSlotsMember(us, s);
    }
  }

  lemma SameLinks(x: seq<Slot>, y: seq<Slot>, gap: nat, a: Slot, b: Slot)
    requires forall s :: s in x <==> s in y
    ensures Linked(x, gap, a, b) <==> Linked(y, gap, a, b)
  {
    if Linked(x, gap, a, b) {
      var p: seq<Slot> :| Chain(x, gap, p) && p[0] == a && p[|p| - 1] == b;
      assert Chain(y, gap, p);
    }
    if Linked(y, gap, a, b) {
      var p: seq<Slot> :| Chain(y, gap, p) && p[0] == a && p[|p| - 1] == b;
      assert Chain(x, gap, p);
    }
  }

  lemma OneReadEach(ws: seq<WatchHandle>, gap: nat, r: CoalescedRead, q: CoalescedRead, a: Slot)
    requires forall w :: w in ws ==> w.region.Fits()
    requires r in Coalesced(ws, gap) && q in Coalesced(ws, gap)
    requires a in MemberSlots(r) && a in MemberSlots(q)
    ensures r == q
  {
    assert Near(a.region, a.region, gap);
    NearShares(ws, gap, r, q, a, a);
  }

  lemma ComponentOf(ws: seq<WatchHandle>, gap: nat, r: CoalescedRead, a: Slot, s: Slot)
    requires forall w :: w in ws ==> w.region.Fits()
    requires r in Coalesced(ws, gap) && a in MemberSlots(r)
    ensures s in MemberSlots(r) <==> s in WatchSlots(ws) && Linked(WatchSlots(ws), gap, a, s)
  {
    CoalesceCovers(ws, gap, a);
    CoalesceCovers(ws, gap, s);
    if s in WatchSlots(ws) {
      CoalesceComponents(ws, gap, a, s);
      forall q | q in Coalesced(ws, gap) && a in MemberSlots(q) && s in MemberSlots(q) ensures q == r {
        OneReadEach(ws, gap, r, q, a);
      }
    }
  }

  /** ... and the same region: both are the tight hull of the same slots. */
  lemma SameHull(r: CoalescedRead, q: CoalescedRead)
    requires WellFormed(r) && WellFormed(q)
    requires forall s :: s in MemberSlots(r) <==> s in MemberSlots(q)
    ensures r.region == q.region
  {
    HullWithin(r, q);
    HullWithin(q, r);
  }

  lemma HullWithin(r: CoalescedRead, q: CoalescedRead)
    requires WellFormed(r) && WellFormed(q)
    requires forall s :: s in MemberSlots(r) ==> s in MemberSlots(q)
    ensures q.region.address <= r.region.address && r.region.End() <= q.region.End() && q.region.SameSpace(r.region)
  {
    var lo :| lo in r.members && lo.off == 0;
    var hi :| hi in r.members && hi.off + hi.size == r.region.size;
    SlotsInMember(r.region, r.members, SlotAt(r.region, lo));
    SlotsInMember(r.region, r.members, SlotAt(r.region, hi));
    SlotInside(q, SlotAt(r.region, lo));
    SlotInside(q, SlotAt(r.region, hi));
  }

  /** The order in which the watches arrive changes neither the regions read, nor who shares a read,
      nor any read's priority. */
  lemma CoalesceOrderFree(ws: seq<WatchHandle>, us: seq<WatchHandle>, gap: nat, r: CoalescedRead)
      returns (q: CoalescedRead)
    requires forall w :: w in ws ==> w.region.Fits()
    requires DistinctIds(ws) && DistinctIds(us) && forall w :: w in us <==> w in ws
    requires r in Coalesced(ws, gap)
    ensures q in Coalesced(us, gap) && q.region == r.region && q.priority == r.priority
    ensures forall s :: s in MemberSlots(r) <==> s in MemberSlots(q)
  {
    q := SameSlots(ws, us, gap, r);
    CoalesceHulls(ws, gap);
    CoalesceHulls(us, gap);
    SameHull(r, q);
    CoalescePriority(ws, gap, r);
    CoalescePriority(us, gap, q);
  }
}
