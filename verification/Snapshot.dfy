/** Published snapshots, the builder that carries them forward (crates/sni-cache/src/snapshot.rs), and
    slicing replies back into it (crates/sni-cache/src/engine.rs, `apply_reads`). */
module Snapshots {
  import opened Types

  type Byte = x: int | 0 <= x < 256

  /** The three maps a snapshot and its builder share. */
  datatype Cache = Cache(data: map<WatchId, seq<Byte>>, regions: map<WatchId, MemRegion>, ages: map<WatchId, nat>) {
    predicate SameKeys() { data.Keys == regions.Keys && data.Keys == ages.Keys }
  }

  datatype Snapshot = Snapshot(cache: Cache, cycle: nat, ageMs: nat, lastRttMs: nat) {
    /** The accessors scripts use. */
    function Bytes(id: WatchId): Option<seq<Byte>> { if id in cache.data then Some(cache.data[id]) else None }

    function Region(id: WatchId): Option<MemRegion> { if id in cache.regions then Some(cache.regions[id]) else None }

    function WatchAge(id: WatchId): Option<nat> { if id in cache.ages then Some(cache.ages[id]) else None }
  }

  const EMPTY: Snapshot := Snapshot(Cache(map[], map[], map[]), 0, 0, 0)

  function Older(age: nat): nat { if age < U32_MAX then age + 1 else U32_MAX }

  function Aged(c: Cache): Cache { c.(ages := map id | id in c.ages :: Older(c.ages[id])) }

  function Put(c: Cache, id: WatchId, region: MemRegion, bytes: seq<Byte>): Cache {
    Cache(c.data[id := bytes], c.regions[id := region], c.ages[id := 0])
  }

  function Retained(c: Cache, live: set<WatchId>): Cache {
    Cache(map id | id in c.data && id in live :: c.data[id],
          map id | id in c.regions && id in live :: c.regions[id],
          map id | id in c.ages && id in live :: c.ages[id])
  }

  class SnapshotBuilder {
    var data: map<WatchId, seq<Byte>>
    var regions: map<WatchId, MemRegion>
    var ages: map<WatchId, nat>

    function View(): Cache
      reads this
    {
      Cache(data, regions, ages)
    }

    /** Everything is kept, one cycle older. */
    constructor FromPrev(prev: Snapshot)
      ensures View() == Aged(prev.cache)
      ensures data == prev.cache.data && regions == prev.cache.regions && ages.Keys == prev.cache.ages.Keys
      ensures forall id :: id in ages ==>
                ages[id] == if prev.cache.ages[id] < 0xFFFF_FFFF then prev.cache.ages[id] + 1 else 0xFFFF_FFFF
    {
      data, regions := prev.cache.data, prev.cache.regions;
      ages := map id | id in prev.cache.ages :: Older(prev.cache.ages[id]);
    }

    method Set(id: WatchId, region: MemRegion, bytes: seq<Byte>)
      modifies this
      ensures View() == Put(old(View()), id, region, bytes)
      ensures data == old(data)[id := bytes] && regions == old(regions)[id := region] && ages == old(ages)[id := 0]
    {
      data := data[id := bytes];
      regions := regions[id := region];
      ages := ages[id := 0];
    }

    method RetainOnly(live: set<WatchId>)
      modifies this
      ensures View() == Retained(old(View()), live)
      ensures data.Keys == old(data).Keys * live && forall id :: id in data ==> data[id] == old(data)[id]
      ensures regions.Keys == old(regions).Keys * live && forall id :: id in regions ==> regions[id] == old(regions)[id]
      ensures ages.Keys == old(ages).Keys * live && forall id :: id in ages ==> ages[id] == old(ages)[id]
    {
      data := map id | id in data && id in live :: data[id];
      regions := map id | id in regions && id in live :: regions[id];
      ages := map id | id in ages && id in live :: ages[id];
    }

    method Build(cycle: nat, ageMs: nat, lastRttMs: nat) returns (s: Snapshot)
      ensures s == Snapshot(Cache(data, regions, ages), cycle, ageMs, lastRttMs)
    {
      s := Snapshot(Cache(data, regions, ages), cycle, ageMs, lastRttMs);
    }
  }

  // ---------------------------------------------------------------------------
  // Slicing replies.

  /** The reply of one read reaches to the end of this member. */
  predicate Reaches(blob: seq<Byte>, m: Member) { |blob| >= m.off + m.size }

  function AppliedMembers(c: Cache, r: CoalescedRead, blob: seq<Byte>, ms: seq<Member>): Cache
    decreases |ms|
  {
    if ms == [] then c
    else
      var m := ms[0];
      AppliedMembers(
        if Reaches(blob, m) then Put(c, m.id, SlotAt(r.region, m).region, blob[m.off..m.off + m.size]) else c,
        r, blob, ms[1..])
  }

  /** The cache after a reply; a read without a blob, or a member its blob does not reach, changes nothing. */
  function Applied(c: Cache, rs: seq<CoalescedRead>, blobs: seq<seq<Byte>>): Cache
    decreases |rs|
  {
    if rs == [] || blobs == [] then c
    else Applied(AppliedMembers(c, rs[0], blobs[0], rs[0].members), rs[1..], blobs[1..])
  }

  /** `apply_reads`. */
  method ApplyReads(rs: seq<CoalescedRead>, blobs: seq<seq<Byte>>, builder: SnapshotBuilder)
    modifies builder
    ensures builder.View() == Applied(old(builder.View()), rs, blobs)
  {
    var i := 0;
    assert rs[0..] == rs && blobs[0..] == blobs;
    while i < |rs| && i < |blobs|
      invariant i <= |rs| && i <= |blobs|
      invariant Applied(builder.View(), rs[i..], blobs[i..]) == Applied(old(builder.View()), rs, blobs)
    {
      var r, blob := rs[i], blobs[i];
      ghost var before := builder.View();
      assert rs[i..][0] == r && rs[i..][1..] == rs[i + 1..] && blobs[i..][0] == blob
          && blobs[i..][1..] == blobs[i + 1..];
      ApplyMembers(r, blob, builder);
      i := i + 1;
    }
  }

  method ApplyMembers(r: CoalescedRead, blob: seq<Byte>, builder: SnapshotBuilder)
    modifies builder
    ensures builder.View() == AppliedMembers(old(builder.View()), r, blob, r.members)
  {
    var ms := r.members;
    while ms != []
      invariant AppliedMembers(builder.View(), r, blob, ms) == AppliedMembers(old(builder.View()), r, blob, r.members)
      decreases |ms|
    {
      var m := ms[0];
      if |blob| >= m.off + m.size {
        var region := MemRegion(r.region.address + m.off, m.size, r.region.space, r.region.mapping);
        builder.Set(m.id, region, blob[m.off..m.off + m.size]);
      }
      ms := ms[1..];
    }
  }

  // ---------------------------------------------------------------------------
  // The device.

  type Memory = (AddressSpace, MemoryMapping, nat) -> Byte

  function ReadMemory(mem: Memory, g: MemRegion): (bytes: seq<Byte>)
    ensures |bytes| == g.size
    ensures forall i :: 0 <= i < g.size ==> bytes[i] == mem(g.space, g.mapping, g.address + i)
  {
    seq(g.size, i requires 0 <= i < g.size => mem(g.space, g.mapping, g.address + i))
  }

  /** A reply to `g`, possibly cut short, that agrees with the memory it was read from. */
  predicate Honest(blob: seq<Byte>, g: MemRegion, mem: Memory) {
    forall i :: 0 <= i < |blob| && i < g.size ==> blob[i] == mem(g.space, g.mapping, g.address + i)
  }

  lemma SliceIsMemory(blob: seq<Byte>, r: CoalescedRead, m: Member, mem: Memory)
    requires Honest(blob, r.region, mem) && m.off + m.size <= r.region.size && Reaches(blob, m)
    ensures blob[m.off..m.off + m.size] == ReadMemory(mem, SlotAt(r.region, m).region)
  {
  }

  /** What a reply with one full-length blob per read looks like. */
  predicate FullReply(blobs: seq<seq<Byte>>, rs: seq<CoalescedRead>, mem: Memory) {
    |blobs| == |rs| && forall i :: 0 <= i < |rs| ==> blobs[i] == ReadMemory(mem, rs[i].region)
  }

  /** One read per slot, in order. */
  function DirectReads(c: Cache, slots: seq<Slot>, mem: Memory): Cache
    decreases |slots|
  {
    if slots == [] then c
    else DirectReads(Put(c, slots[0].id, slots[0].region, ReadMemory(mem, slots[0].region)), slots[1..], mem)
  }

  lemma {:induction false} AppliedMembersDirect(c: Cache, r: CoalescedRead, ms: seq<Member>, mem: Memory)
    requires forall m :: m in ms ==> m.off + m.size <= r.region.size
    ensures AppliedMembers(c, r, ReadMemory(mem, r.region), ms) == DirectReads(c, SlotsIn(r.region, ms), mem)
    decreases |ms|
  {
    if ms != [] {
      var m := ms[0];
      assert m in ms;
      SliceIsMemory(ReadMemory(mem, r.region), r, m, mem);
      AppliedMembersDirect(Put(c, m.id, SlotAt(r.region, m).region, ReadMemory(mem, SlotAt(r.region, m).region)), r,
          ms[1..], mem);
    }
  }

  lemma {:induction false} DirectAppend(c: Cache, a: seq<Slot>, b: seq<Slot>, mem: Memory)
    ensures DirectReads(c, a + b, mem) == DirectReads(DirectReads(c, a, mem), b, mem)
    decreases |a|
  {
    if a == [] {
      assert a + b == b;
    } else {
      assert (a + b)[1..] == a[1..] + b;
      DirectAppend(Put(c, a[0].id, a[0].region, ReadMemory(mem, a[0].region)), a[1..], b, mem);
    }
  }

  /** Slicing a full reply is reading every slot by itself. */
  lemma {:induction false} AppliedDirect(c: Cache, rs: seq<CoalescedRead>, blobs: seq<seq<Byte>>, mem: Memory)
    requires FullReply(blobs, rs, mem) && forall r :: r in rs ==> WellFormed(r)
    ensures Applied(c, rs, blobs) == DirectReads(c, AllSlots(rs), mem)
    decreases |rs|
  {
    if rs != [] {
      assert rs[0] in rs;
      AppliedMembersDirect(c, rs[0], rs[0].members, mem);
      DirectAppend(c, MemberSlots(rs[0]), AllSlots(rs[1..]), mem);
      AppliedDirect(AppliedMembers(c, rs[0], blobs[0], rs[0].members), rs[1..], blobs[1..], mem);
    }
  }
}
