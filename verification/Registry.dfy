/** The watch registry shared by scripts and the engine (crates/sni-cache/src/watch.rs). */
module Registry {
  import opened Types

  /** `lastTouch` is a clock reading; `request` is the latest marker drawn for this watch. */
  datatype Entry = Entry(handle: WatchHandle, lastTouch: nat, request: nat, pinned: bool)

  datatype Reg = Reg(nextId: nat, nextRequest: nat, entries: map<WatchId, Entry>) {
    /** Keys name their watch, were handed out before, and carry a marker that was drawn before. */
    predicate Valid() {
      forall id :: id in entries ==>
        && id < nextId && entries[id].handle.id == id && entries[id].handle.region.Fits()
        && 1 <= entries[id].request <= nextRequest
    }
  }

  const NEW: Reg := Reg(0, 0, map[])

  /** Every request first draws a marker, even for an id that is gone, and then stores it. */
  function Drawn(v: Reg): Reg { v.(nextRequest := v.nextRequest + 1) }

  function Registered(v: Reg, region: MemRegion, priority: WatchPriority, clock: nat, marker: nat): Reg {
    v.(nextId := v.nextId + 1,
       entries := v.entries[v.nextId := Entry(WatchHandle(v.nextId, region, priority), clock, marker, false)])
  }

  function Touched(v: Reg, id: WatchId, clock: nat, marker: nat): Reg {
    if id !in v.entries then v
    else v.(entries := v.entries[id := v.entries[id].(lastTouch := clock, request := marker)])
  }

  function Pinned(v: Reg, id: WatchId, clock: nat, marker: nat): Reg {
    if id !in v.entries then v
    else v.(entries := v.entries[id := v.entries[id].(pinned := true, lastTouch := clock, request := marker)])
  }

  function Upgraded(v: Reg, id: WatchId, priority: WatchPriority, clock: nat, marker: nat): Reg {
    if id !in v.entries then v
    else
      var e := v.entries[id];
      v.(entries := v.entries[id := Entry(e.handle.(priority := e.handle.priority.Min(priority)), clock, marker, true)])
  }

  function Unregistered(v: Reg, id: WatchId): Reg { v.(entries := v.entries - {id}) }

  function Cleared(v: Reg): Reg { v.(entries := map[]) }

  /** The handles with id below `n`, by id. */
  function HandlesBelow(entries: map<WatchId, Entry>, n: nat): seq<WatchHandle> {
    if n == 0 then [] else HandlesBelow(entries, n - 1) + (if n - 1 in entries then [entries[n - 1].handle] else [])
  }

  /** Pinned, or touched within the window; a clock read before the touch counts as no time passed. */
  predicate IsActive(e: Entry, clock: nat, window: nat) {
    e.pinned || (if clock >= e.lastTouch then clock - e.lastTouch else 0) < window
  }

  function ActiveBelow(entries: map<WatchId, Entry>, n: nat, clock: nat, window: nat): seq<(WatchHandle, nat)> {
    if n == 0 then []
    else ActiveBelow(entries, n - 1, clock, window)
         + (if n - 1 in entries && IsActive(entries[n - 1], clock, window)
            then [(entries[n - 1].handle, entries[n - 1].request)] else [])
  }

  class WatchRegistry {
    var nextId: nat
    var nextRequest: nat
    var entries: map<WatchId, Entry>

    function View(): Reg
      reads this
    {
      Reg(nextId, nextRequest, entries)
    }

    constructor ()
      ensures View() == NEW && View().Valid()
    {
      nextId, nextRequest, entries := 0, 0, map[];
    }

    /** The new watch gets an id no watch ever had, and a fresh marker. */
    method Register(region: MemRegion, priority: WatchPriority, clock: nat) returns (handle: WatchHandle)
      requires View().Valid() && region.Fits()
      modifies this
      ensures View() == Registered(Drawn(old(View())), region, priority, clock, nextRequest) && View().Valid()
      ensures handle == WatchHandle(old(nextId), region, priority) && handle.id !in old(entries)
      ensures entries == old(entries)[old(nextId) := Entry(handle, clock, old(nextRequest) + 1, false)]
      ensures nextId == old(nextId) + 1 && nextRequest == old(nextRequest) + 1
    {
      var id := nextId;
      nextId := nextId + 1;
      var request := nextRequest + 1;
      nextRequest := request;
      handle := WatchHandle(id, region, priority);
      entries := entries[id := Entry(handle, clock, request, false)];
    }

    method Touch(id: WatchId, clock: nat)
      requires View().Valid()
      modifies this
      ensures View() == Touched(Drawn(old(View())), id, clock, nextRequest) && View().Valid()
      ensures nextId == old(nextId) && nextRequest == old(nextRequest) + 1
      ensures entries == if id !in old(entries) then old(entries) else
                old(entries)[id := Entry(old(entries[id].handle), clock, old(nextRequest) + 1, old(entries[id].pinned))]
    {
      nextRequest := nextRequest + 1;
      if id in entries {
        entries := entries[id := entries[id].(lastTouch := clock, request := nextRequest)];
      }
    }

    method Pin(id: WatchId, clock: nat)
      requires View().Valid()
      modifies this
      ensures View() == Pinned(Drawn(old(View())), id, clock, nextRequest) && View().Valid()
      ensures nextId == old(nextId) && nextRequest == old(nextRequest) + 1
      ensures entries == if id !in old(entries) then old(entries) else
                old(entries)[id := Entry(old(entries[id].handle), clock, old(nextRequest) + 1, true)]
    {
      nextRequest := nextRequest + 1;
      if id in entries {
        entries := entries[id := entries[id].(pinned := true, lastTouch := clock, request := nextRequest)];
      }
    }

    /** Never downgrades. */
    method UpgradePriority(id: WatchId, priority: WatchPriority, clock: nat)
      requires View().Valid()
      modifies this
      ensures View() == Upgraded(Drawn(old(View())), id, priority, clock, nextRequest) && View().Valid()
      ensures id in old(entries) ==> entries[id].handle.priority.Rank() <= old(entries[id].handle.priority).Rank()
      ensures id in old(entries) ==> entries[id].handle.priority.Rank() <= priority.Rank()
      ensures id in old(entries) ==> entries[id].handle.priority in {priority, old(entries[id].handle.priority)}
      ensures id in old(entries) ==>
                entries[id].pinned && entries[id].lastTouch == clock && entries[id].request == old(nextRequest) + 1
      ensures entries.Keys == old(entries).Keys && forall i :: i in entries && i != id ==> entries[i] == old(entries)[i]
      ensures nextId == old(nextId) && nextRequest == old(nextRequest) + 1
    {
      nextRequest := nextRequest + 1;
      if id in entries {
        var e := entries[id];
        var raised := if priority.Rank() < e.handle.priority.Rank() then priority else e.handle.priority;
        entries := entries[id := Entry(e.handle.(priority := raised), clock, nextRequest, true)];
      }
    }

    method Unregister(id: WatchId)
      requires View().Valid()
      modifies this
      ensures View() == Unregistered(old(View()), id) && View().Valid()
      ensures entries == old(entries) - {id} && nextId == old(nextId) && nextRequest == old(nextRequest)
    {
      entries := entries - {id};
    }

    /** Forgets every watch, but not which ids and markers were used. */
    method Clear()
      requires View().Valid()
      modifies this
      ensures View() == Cleared(old(View())) && View().Valid()
      ensures entries == map[] && nextId == old(nextId) && nextRequest == old(nextRequest)
    {
      entries := map[];
    }

    method All() returns (handles: seq<WatchHandle>)
      ensures handles == HandlesBelow(entries, nextId)
    {
      handles := [];
      for id := 0 to nextId
        invariant handles == HandlesBelow(entries, id)
      {
        if id in entries {
          handles := handles + [entries[id].handle];
        }
      }
    }

    method ActiveWithRequests(clock: nat, window: nat) returns (active: seq<(WatchHandle, nat)>)
      ensures active == ActiveBelow(entries, nextId, clock, window)
    {
      active := [];
      for id := 0 to nextId
        invariant active == ActiveBelow(entries, id, clock, window)
      {
        if id in entries && IsActive(entries[id], clock, window) {
          active := active + [(entries[id].handle, entries[id].request)];
        }
      }
    }
  }

  // ---------------------------------------------------------------------------
  // What the engine sees.

  lemma {:induction false} HandlesMember(v: Reg, n: nat, w: WatchHandle)
    requires v.Valid()
    ensures w in HandlesBelow(v.entries, n) <==> w.id < n && w.id in v.entries && v.entries[w.id].handle == w
  {
    var k := 0;
    while k < n
      invariant k <= n
      invariant w in HandlesBelow(v.entries, k) <==> w.id < k && w.id in v.entries && v.entries[w.id].handle == w
    {
      k := k + 1;
    }
  }

  /** The active watches are the pinned or recently touched entries, each with its current marker. */
  lemma {:induction false} ActiveMember(v: Reg, n: nat, clock: nat, window: nat, w: WatchHandle, request: nat)
    requires v.Valid()
    ensures (w, request) in ActiveBelow(v.entries, n, clock, window)
       <==> w.id < n && w.id in v.entries && v.entries[w.id].handle == w && v.entries[w.id].request == request
            && IsActive(v.entries[w.id], clock, window)
  {
    var k := 0;
    while k < n
      invariant k <= n
      invariant (w, request) in ActiveBelow(v.entries, k, clock, window)
           <==> w.id < k && w.id in v.entries && v.entries[w.id].handle == w && v.entries[w.id].request == request
                && IsActive(v.entries[w.id], clock, window)
    {
      k := k + 1;
    }
  }

  predicate DistinctActive(active: seq<(WatchHandle, nat)>) {
    forall i, j :: 0 <= i < j < |active| ==> active[i].0.id != active[j].0.id
  }

  lemma {:induction false} ActiveDistinct(v: Reg, n: nat, clock: nat, window: nat)
    requires v.Valid()
    ensures DistinctActive(ActiveBelow(v.entries, n, clock, window))
  {
    var k := 0;
    while k < n
      invariant k <= n && DistinctActive(ActiveBelow(v.entries, k, clock, window))
    {
      var seen := ActiveBelow(v.entries, k, clock, window);
      forall i | 0 <= i < |seen| ensures seen[i].0.id < k {
        assert seen[i] == (seen[i].0, seen[i].1) && seen[i] in seen;
        ActiveMember(v, k, clock, window, seen[i].0, seen[i].1);
      }
      k := k + 1;
    }
  }
}
