/** Merging watches into reads (crates/sni-cache/src/watch.rs). */
module Coalesce {
  import opened Types
  import opened Sorting

  predicate AddressLe(a: WatchHandle, b: WatchHandle) { a.region.address <= b.region.address }

  /** u32 addition that saturates, as the run test uses. */
  function SatAdd(a: nat, b: nat): nat { if a + b <= U32_MAX then a + b else U32_MAX }

  function Max(a: nat, b: nat): nat { if a < b then b else a }

  /** One bucket of the map keyed by (space, mapping), in input order. */
  function Group(ws: seq<WatchHandle>, key: nat): seq<WatchHandle> {
    if ws == [] then []
    else (if ws[0].region.SpaceKey() == key then [ws[0]] else []) + Group(ws[1..], key)
  }

  function MinPriority(ms: seq<WatchHandle>): WatchPriority {
    if ms == [] then Low else ms[0].priority.Min(MinPriority(ms[1..]))
  }

  function MembersFrom(start: nat, ms: seq<WatchHandle>): (members: seq<Member>)
    requires forall w :: w in ms ==> start <= w.region.address
    ensures |members| == |ms|
  {
    if ms == [] then []
    else [Member(ms[0].id, ms[0].region.address - start, ms[0].region.size)] + MembersFrom(start, ms[1..])
  }

  function FinishRun(start: nat, end: nat, ms: seq<WatchHandle>): CoalescedRead
    requires ms != [] && start <= end
    requires forall w :: w in ms ==> start <= w.region.address
  {
    CoalescedRead(
      MemRegion(start, end - start, ms[0].region.space, ms[0].region.mapping),
      MembersFrom(start, ms),
      MinPriority(ms))
  }

  /** A run [start, end) of `ms`, with `rest` still to come in address order. */
  predicate RunState(start: nat, end: nat, ms: seq<WatchHandle>, rest: seq<WatchHandle>) {
    && ms != [] && start <= end
    && (forall w :: w in ms ==> start <= w.region.address)
    && Sorted(rest, AddressLe)
    && (forall w :: w in rest ==> start <= w.region.address)
  }

  /** The run under construction, then the watches (by address) it has yet to see. */
  function Runs(start: nat, end: nat, ms: seq<WatchHandle>, rest: seq<WatchHandle>, gap: nat): seq<CoalescedRead>
    requires RunState(start, end, ms, rest)
    decreases rest
  {
    if rest == [] then [FinishRun(start, end, ms)]
    else
      var w := rest[0];
      if w.region.address <= SatAdd(end, gap)
      then Runs(start, Max(end, w.region.End()), ms + [w], rest[1..], gap)
      else [FinishRun(start, end, ms)] + Runs(w.region.address, w.region.End(), [w], rest[1..], gap)
  }

  lemma AddressOrder()
    ensures TotalPreorder(AddressLe)
  {
  }

  lemma SortedBucket(group: seq<WatchHandle>)
    ensures Sorted(Sort(group, AddressLe), AddressLe) && |Sort(group, AddressLe)| == |group|
  {
    AddressOrder();
    SortSorted(group, AddressLe);
    SortBag(group, AddressLe);
  }

  function GroupRuns(group: seq<WatchHandle>, gap: nat): seq<CoalescedRead> {
    if group == [] then []
    else
      var s := Sort(group, AddressLe);
      SortedBucket(group);
      Runs(s[0].region.address, s[0].region.End(), [s[0]], s[1..], gap)
  }

  /** The reads of the buckets below `key`, in key order. */
  function BelowKey(ws: seq<WatchHandle>, gap: nat, key: nat): seq<CoalescedRead> {
    if key == 0 then [] else BelowKey(ws, gap, key - 1) + GroupRuns(Group(ws, key - 1), gap)
  }

  /** The reads `coalesce` makes of `ws`. */
  function Coalesced(ws: seq<WatchHandle>, gap: nat): seq<CoalescedRead> { BelowKey(ws, gap, SPACE_KEYS) }

  /** The scan of one bucket, sorted by address. */
  method ScanBucket(s: seq<WatchHandle>, gap: nat) returns (out: seq<CoalescedRead>)
    requires s != [] && Sorted(s, AddressLe)
    ensures out == Runs(s[0].region.address, s[0].region.End(), [s[0]], s[1..], gap)
  {
    var curStart, curEnd, curMembers := s[0].region.address, s[0].region.End(), [s[0]];
    out := [];
    var i := 1;
    while i < |s|
      invariant 1 <= i <= |s|
      invariant RunState(curStart, curEnd, curMembers, s[i..])
      invariant out + Runs(curStart, curEnd, curMembers, s[i..], gap)
             == Runs(s[0].region.address, s[0].region.End(), [s[0]], s[1..], gap)
    {
      var w := s[i];
      assert s[i..][0] == w && s[i..][1..] == s[i + 1..];
      if w.region.address <= SatAdd(curEnd, gap) {
        curEnd, curMembers := Max(curEnd, w.region.End()), curMembers + [w];
      } else {
        assert forall x :: out + ([FinishRun(curStart, curEnd, curMembers)] + x)
                        == (out + [FinishRun(curStart, curEnd, curMembers)]) + x;
        out := out + [FinishRun(curStart, curEnd, curMembers)];
        curStart, curEnd, curMembers := w.region.address, w.region.End(), [w];
      }
      i := i + 1;
    }
    out := out + [FinishRun(curStart, curEnd, curMembers)];
  }

  /** `coalesce`: bucket by space, sort each bucket by address, grow runs. */
  method CoalesceWatches(ws: seq<WatchHandle>, gap: nat) returns (out: seq<CoalescedRead>)
    requires forall w :: w in ws ==> w.region.Fits()
    ensures out == Coalesced(ws, gap)
  {
    out := [];
    if ws == [] {
      EmptyBuckets(gap, SPACE_KEYS);
      return;
    }
    for key := 0 to SPACE_KEYS
      invariant out == BelowKey(ws, gap, key)
    {
      var bucket := Group(ws, key);
      if bucket != [] {
        SortedBucket(bucket);
        var runs := ScanBucket(Sort(bucket, AddressLe), gap);
        out := out + runs;
      }
    }
  }

  lemma {:induction false} EmptyBuckets(gap: nat, key: nat)
    ensures BelowKey([], gap, key) == []
  {
    if key > 0 { EmptyBuckets(gap, key - 1); }
  }

  // ---------------------------------------------------------------------------
  // Conservation: every watch is a member of exactly one read.

  lemma {:induction false} MembersFromSlots(region: MemRegion, ms: seq<WatchHandle>)
    requires forall w :: w in ms ==> region.address <= w.region.address && w.region.SameSpace(region)
    ensures SlotsIn(region, MembersFrom(region.address, ms)) == WatchSlots(ms)
  {
    if ms != [] { MembersFromSlots(region, ms[1..]); }
  }

  lemma FinishRunSlots(start: nat, end: nat, ms: seq<WatchHandle>)
    requires ms != [] && start <= end
    requires forall w :: w in ms ==> start <= w.region.address && w.region.SameSpace(ms[0].region)
    ensures MemberSlots(FinishRun(start, end, ms)) == WatchSlots(ms)
  {
    MembersFromSlots(FinishRun(start, end, ms).region, ms);
  }

  lemma {:induction false} MembersFromMember(start: nat, ms: seq<WatchHandle>, m: Member)
    requires forall w :: w in ms ==> start <= w.region.address
    ensures m in MembersFrom(start, ms)
       <==> exists w :: w in ms && m == Member(w.id, w.region.address - start, w.region.size)
  {
    if ms != [] {
      MembersFromMember(start, ms[1..], m);
      assert forall w :: w in ms <==> w == ms[0] || w in ms[1..];
    }
  }

  lemma {:induction false} RunsSlots(start: nat, end: nat, ms: seq<WatchHandle>, rest: seq<WatchHandle>, gap: nat)
    requires RunState(start, end, ms, rest)
    requires forall w :: w in ms + rest ==> w.region.SameSpace(ms[0].region)
    ensures AllSlots(Runs(start, end, ms, rest, gap)) == WatchSlots(ms + rest)
    decreases rest
  {
    FinishRunSlots(start, end, ms);
    if rest == [] {
      assert ms + rest == ms;
    } else {
      var w := rest[0];
      assert w in ms + rest;
      if w.region.address <= SatAdd(end, gap) {
        assert (ms + [w]) + rest[1..] == ms + rest;
        RunsSlots(start, Max(end, w.region.End()), ms + [w], rest[1..], gap);
      } else {
        assert [w] + rest[1..] == rest;
        RunsSlots(w.region.address, w.region.End(), [w], rest[1..], gap);
        AllSlotsAppend([FinishRun(start, end, ms)], Runs(w.region.address, w.region.End(), [w], rest[1..], gap));
        WatchSlotsAppend(ms, rest);
      }
    }
  }

  lemma {:induction false} GroupMembers(ws: seq<WatchHandle>, key: nat, w: WatchHandle)
    ensures w in Group(ws, key) <==> w in ws && w.region.SpaceKey() == key
  {
    if ws != [] {
      GroupMembers(ws[1..], key, w);
      assert w in ws <==> w == ws[0] || w in ws[1..];
    }
  }
}
