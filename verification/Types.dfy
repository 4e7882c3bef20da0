/** The values the poll engine passes around: regions, watches, coalesced reads. */
module Types {
  const U32_MAX: nat := 0xFFFF_FFFF
  const U64_MAX: nat := 0xFFFF_FFFF_FFFF_FFFF

  datatype Option<+T> = None | Some(value: T)

  datatype AddressSpace = FxPakPro | SnesABus | Raw {
    function Code(): nat {
      match this case FxPakPro => 0 case SnesABus => 1 case Raw => 2
    }
  }

  datatype MemoryMapping = Unknown | HiROM | LoROM | ExHiROM | SA1 {
    function Code(): nat {
      match this case Unknown => 0 case HiROM => 1 case LoROM => 2 case ExHiROM => 3 case SA1 => 4
    }
  }

  datatype MemRegion = MemRegion(address: nat, size: nat, space: AddressSpace, mapping: MemoryMapping) {
    function End(): nat { address + size }

    /** The exclusive end is a u32, which the engine's unchecked additions rely on. */
    predicate Fits() { End() <= U32_MAX }

    predicate SameSpace(other: MemRegion) { space == other.space && mapping == other.mapping }

    /** Position of (space, mapping) in the order of its two discriminants. */
    function SpaceKey(): (k: nat)
      ensures k < SPACE_KEYS
    {
      space.Code() * 5 + mapping.Code()
    }
  }

  const SPACE_KEYS: nat := 15

  lemma SpaceKeyInjective(a: MemRegion, b: MemRegion)
    ensures a.SpaceKey() == b.SpaceKey() <==> a.SameSpace(b)
  {
  }

  /** Most urgent first, so `min` upgrades. */
  datatype WatchPriority = Realtime | High | Normal | Low {
    function Rank(): nat {
      match this case Realtime => 0 case High => 1 case Normal => 2 case Low => 3
    }

    function Min(other: WatchPriority): WatchPriority {
      if other.Rank() < Rank() then other else this
    }
  }

  type WatchId = nat

  datatype WatchHandle = WatchHandle(id: WatchId, region: MemRegion, priority: WatchPriority)

  /** A watch inside a merged read: `off` is relative to the start of that read. */
  datatype Member = Member(id: WatchId, off: nat, size: nat)

  datatype CoalescedRead = CoalescedRead(region: MemRegion, members: seq<Member>, priority: WatchPriority)

  /** What a watch is asking for, independently of the read that carries it. */
  datatype Slot = Slot(id: WatchId, region: MemRegion)

  function SlotOf(w: WatchHandle): Slot { Slot(w.id, w.region) }

  function SlotAt(region: MemRegion, m: Member): Slot {
    Slot(m.id, MemRegion(region.address + m.off, m.size, region.space, region.mapping))
  }

  function SlotsIn(region: MemRegion, ms: seq<Member>): (slots: seq<Slot>)
    ensures |slots| == |ms|
  {
    if ms == [] then [] else [SlotAt(region, ms[0])] + SlotsIn(region, ms[1..])
  }

  function MemberSlots(r: CoalescedRead): seq<Slot> { SlotsIn(r.region, r.members) }

  lemma {:induction false} SlotsInAt(region: MemRegion, ms: seq<Member>, i: nat)
    requires i < |ms|
    ensures SlotsIn(region, ms)[i] == SlotAt(region, ms[i])
  {
    if i > 0 { SlotsInAt(region, ms[1..], i - 1); }
  }

  lemma {:induction false} SlotsInMember(region: MemRegion, ms: seq<Member>, s: Slot)
    ensures s in SlotsIn(region, ms) <==> exists m :: m in ms && s == SlotAt(region, m)
  {
    if ms != [] {
      SlotsInMember(region, ms[1..], s);
      assert forall m :: m in ms <==> m == ms[0] || m in ms[1..];
    }
  }

  /** Every slot of every read, in order. */
  function AllSlots(batch: seq<CoalescedRead>): seq<Slot> {
    if batch == [] then [] else MemberSlots(batch[0]) + AllSlots(batch[1..])
  }

  function WatchSlots(ws: seq<WatchHandle>): (slots: seq<Slot>)
    ensures |slots| == |ws|
  {
    if ws == [] then [] else [SlotOf(ws[0])] + WatchSlots(ws[1..])
  }

  lemma {:induction false} WatchSlotsMember(ws: seq<WatchHandle>, s: Slot)
    ensures s in WatchSlots(ws) <==> exists w :: w in ws && s == SlotOf(w)
  {
    if ws != [] {
      WatchSlotsMember(ws[1..], s);
      assert forall w :: w in ws <==> w == ws[0] || w in ws[1..];
    }
  }

  lemma {:induction false} WatchSlotsAppend(a: seq<WatchHandle>, b: seq<WatchHandle>)
    ensures WatchSlots(a + b) == WatchSlots(a) + WatchSlots(b)
  {
    if a == [] {
      assert a + b == b;
    } else {
      assert (a + b)[1..] == a[1..] + b;
      WatchSlotsAppend(a[1..], b);
    }
  }

  lemma {:induction false} AllSlotsAppend(a: seq<CoalescedRead>, b: seq<CoalescedRead>)
    ensures AllSlots(a + b) == AllSlots(a) + AllSlots(b)
  {
    if a == [] {
      assert a + b == b;
    } else {
      assert (a + b)[1..] == a[1..] + b;
      AllSlotsAppend(a[1..], b);
    }
  }

  lemma {:induction false} AllSlotsMember(batch: seq<CoalescedRead>, s: Slot)
    ensures s in AllSlots(batch) <==> exists r :: r in batch && s in MemberSlots(r)
  {
    if batch != [] {
      AllSlotsMember(batch[1..], s);
      assert forall r :: r in batch <==> r == batch[0] || r in batch[1..];
    }
  }

  /** Watches by id: what `HashMap<WatchId, _>` keys and `live_ids` range over. */
  function Ids(batch: seq<CoalescedRead>): set<WatchId> {
    set r, m | r in batch && m in r.members :: m.id
  }

  predicate DistinctIds(ws: seq<WatchHandle>) {
    forall i, j :: 0 <= i < j < |ws| ==> ws[i].id != ws[j].id
  }

  /** A read whose members lie inside it, start at its start and reach its end. */
  predicate WellFormed(r: CoalescedRead) {
    && r.region.Fits()
    && r.members != []
    && (forall m :: m in r.members ==> m.off + m.size <= r.region.size)
    && (exists m :: m in r.members && m.off == 0)
    && (exists m :: m in r.members && m.off + m.size == r.region.size)
  }
}
