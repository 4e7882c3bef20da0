/** Every engine step keeps the invariant. */
module EngineSteps {
  import opened Types
  import opened Coalesce
  import opened Split
  import ST = SplitTheorems
  import CT = CoalesceTheorems
  import opened Fulfil
  import opened Budget
  import opened Snapshots
  import opened Registry
  import opened Cycle
  import opened System
  import opened BatchedReads
  import opened Drain
  import opened Invariant

  // ---------------------------------------------------------------------------
  // Start and capture.

  lemma StartLive(s: Sys, cfg: PollConfig)
    requires RegOk(s) && StateOk(s)
    ensures SawAllOk(Apply(s, Start(cfg)))
  {
    var t := Apply(s, Start(cfg));
    forall id | id in s.reg.entries ensures id in t.eng.liveIds {
      HandlesMember(s.reg, s.reg.nextId, s.reg.entries[id].handle);
    }
  }

  lemma StartCore(s: Sys, cfg: PollConfig)
    requires RegOk(s) && StateOk(s) && TimesOk(s)
    ensures var t := Apply(s, Start(cfg)); RegOk(t) && StateOk(t) && TimesOk(t)
  {
  }

  lemma StartCache(dev: Device, s: Sys, cfg: PollConfig)
    requires CacheOk(dev, s) && s.eng.phase.Idle?
    ensures CacheOk(dev, Apply(s, Start(cfg)))
  {
  }

  lemma StartKeepsInv(dev: Device, s: Sys, cfg: PollConfig)
    requires Inv(dev, s) && s.eng.phase.Idle?
    ensures Inv(dev, Apply(s, Start(cfg)))
  {
    StartLive(s, cfg);
    StartCore(s, cfg);
    StartCache(dev, s, cfg);
    KeepFresh(s, Apply(s, Start(cfg)));
  }

  /** Nothing freshness depends on changed. */
  lemma KeepFresh(s: Sys, t: Sys)
    requires FreshOk(s) && t.eng.readState == s.eng.readState && t.reg.entries == s.reg.entries
    requires t.hist.origins == s.hist.origins && t.hist.hollow == s.hist.hollow && t.hist.askedAt == s.hist.askedAt
    ensures FreshOk(t)
  {
    forall id | id in t.eng.readState && id in t.hist.origins && id !in t.hist.hollow ensures Fresh(t, id) {
      assert Fresh(s, id);
    }
  }

  lemma {:induction false} RequestMapMember(active: seq<(WatchHandle, nat)>, id: WatchId)
    ensures id in RequestMap(active) <==> exists p :: p in active && p.0.id == id
    ensures id in RequestMap(active) ==> exists p :: p in active && p.0.id == id && p.1 == RequestMap(active)[id]
    decreases |active|
  {
    if active != [] {
      RequestMapMember(active[1..], id);
      assert forall p :: p in active <==> p == active[0] || p in active[1..];
    }
  }

  lemma {:induction false} TiersMember(active: seq<(WatchHandle, nat)>, w: WatchHandle)
    ensures w in RealtimeOf(active) <==> w.priority.Realtime? && exists p :: p in active && p.0 == w
    ensures w in BulkOf(active) <==> !w.priority.Realtime? && exists p :: p in active && p.0 == w
    decreases |active|
  {
    if active != [] {
      TiersMember(active[1..], w);
      assert forall p :: p in active <==> p == active[0] || p in active[1..];
    }
  }

  /** A captured pair is a registry entry with its current marker. */
  lemma CapturedEntry(s: Sys, clock: nat, p: (WatchHandle, nat))
    requires RegOk(s) && p in ActiveAt(s, clock)
    ensures p.0.id in s.reg.entries && s.reg.entries[p.0.id].handle == p.0 && s.reg.entries[p.0.id].request == p.1
  {
    ActiveMember(s.reg, s.reg.nextId, clock, s.eng.cfg.demandWindow, p.0, p.1);
    assert p == (p.0, p.1);
  }

  lemma CaptureRequests(s: Sys, clock: nat)
    requires RegOk(s)
    ensures RequestsOk(Apply(s, Capture(clock)))
  {
    var active := ActiveAt(s, clock);
    forall id | id in RequestMap(active)
      ensures id in s.reg.entries && RequestMap(active)[id] == s.reg.entries[id].request
    {
      RequestMapMember(active, id);
      var p :| p in active && p.0.id == id && p.1 == RequestMap(active)[id];
      CapturedEntry(s, clock, p);
    }
  }

  /** A watch taken into either tier is registered, and its marker was captured. */
  lemma TierEntry(s: Sys, clock: nat, w: WatchHandle)
    requires RegOk(s) && (w in RealtimeOf(ActiveAt(s, clock)) || w in BulkOf(ActiveAt(s, clock)))
    ensures w.id in s.reg.entries && s.reg.entries[w.id].handle == w && w.id in RequestMap(ActiveAt(s, clock))
    ensures w.region.Fits() && w.id in s.hist.issued && s.hist.issued[w.id] == w.region
  {
    var active := ActiveAt(s, clock);
    TiersMember(active, w);
    var p :| p in active && p.0 == w;
    CapturedEntry(s, clock, p);
    RequestMapMember(active, w.id);
  }

  lemma CoalescedIssued(ws: seq<WatchHandle>, gap: nat, issued: map<WatchId, MemRegion>)
    requires forall w :: w in ws ==> w.id in issued && issued[w.id] == w.region
    ensures SlotsIssued(AllSlots(Coalesced(ws, gap)), issued)
  {
    CT.CoalesceConserves(ws, gap);
    forall x | x in AllSlots(Coalesced(ws, gap)) ensures x.id in issued && issued[x.id] == x.region {
      assert x in multiset(AllSlots(Coalesced(ws, gap)));
      assert x in multiset(WatchSlots(ws));
      WatchSlotsMember(ws, x);
    }
  }

  lemma CaptureBulk(s: Sys, clock: nat)
    requires RegOk(s) && SawAllOk(s)
    ensures var t := Apply(s, Capture(clock)); Loopable(t.eng) && SlotsIssued(AllSlots(t.eng.bulk), t.hist.issued)
  {
    var ws := BulkOf(ActiveAt(s, clock));
    var gap := s.eng.cfg.coalesceGap;
    forall w | w in ws ensures w.region.Fits() && w.id in s.hist.issued && s.hist.issued[w.id] == w.region
                            && w.id in RequestMap(ActiveAt(s, clock))
    {
      TierEntry(s, clock, w);
    }
    CoalescedWellFormed(ws, gap);
    CoalescedIssued(ws, gap, s.hist.issued);
    forall id | id in Ids(Coalesced(ws, gap)) ensures id in RequestMap(ActiveAt(s, clock)) {
      CoalescedIds(ws, gap, id);
    }
  }

  lemma CaptureRealtime(s: Sys, clock: nat)
    requires RegOk(s)
    ensures RealtimeOk(Apply(s, Capture(clock)))
  {
    forall w | w in RealtimeOf(ActiveAt(s, clock))
      ensures w.id in RequestMap(ActiveAt(s, clock)) && w.region.Fits()
      ensures w.id in s.hist.issued && s.hist.issued[w.id] == w.region
    {
      TierEntry(s, clock, w);
    }
  }

  lemma CoherentRetained(dev: Device, c: Cache, o: Origins, issued: map<WatchId, MemRegion>, cycle: nat,
      live: set<WatchId>)
    requires Coherent(dev, c, o, issued, cycle)
    ensures Coherent(dev, Retained(Aged(c), live), (map id | id in o && id in live :: o[id]), issued, cycle + 1)
  {
    var c' := Retained(Aged(c), live);
    var o' := map id | id in o && id in live :: o[id];
    assert c'.SameKeys() && o'.Keys == c'.data.Keys;
    forall id | id in o' ensures EntryOk(dev, c', o', issued, cycle + 1, id) {
      assert EntryOk(dev, c, o, issued, cycle, id);
    }
  }

  lemma CaptureFresh(s: Sys, clock: nat)
    requires FreshOk(s) && SawAllOk(s) && s.hist.origins == s.hist.publishedOrigins
    ensures FreshOk(Apply(s, Capture(clock)))
  {
    var t := Apply(s, Capture(clock));
    forall id | id in t.eng.readState && id in t.hist.origins && id !in t.hist.hollow ensures Fresh(t, id) {
      assert Fresh(s, id);
    }
  }

  /** The builder is seeded from the last snapshot; what is published stays. */
  predicate Seeded(s: Sys, t: Sys) {
    && t.eng.builder == Retained(Aged(s.eng.published.cache), s.eng.liveIds)
    && t.hist.origins == (map id | id in s.hist.publishedOrigins && id in s.eng.liveIds :: s.hist.publishedOrigins[id])
    && t.eng.published == s.eng.published && t.hist.publishedOrigins == s.hist.publishedOrigins
    && t.hist.issued == s.hist.issued && t.eng.cycle == s.eng.cycle && InCycle(t.eng.phase)
  }

  lemma CaptureSeeds(s: Sys, clock: nat)
    ensures Seeded(s, Apply(s, Capture(clock)))
  {
  }

  lemma SeededBuilder(dev: Device, s: Sys, t: Sys)
    requires Coherent(dev, s.eng.published.cache, s.hist.publishedOrigins, s.hist.issued, s.eng.published.cycle)
    requires Seeded(s, t)
    ensures Coherent(dev, t.eng.builder, t.hist.origins, t.hist.issued, s.eng.published.cycle + 1)
  {
    CoherentRetained(dev, s.eng.published.cache, s.hist.publishedOrigins, s.hist.issued, s.eng.published.cycle,
        s.eng.liveIds);
  }

  lemma SeededCache(dev: Device, s: Sys, t: Sys)
    requires CacheOk(dev, s) && s.eng.phase.SawAll? && Seeded(s, t)
    ensures CacheOk(dev, t)
  {
    SeededBuilder(dev, s, t);
  }

  lemma CaptureCache(dev: Device, s: Sys, clock: nat)
    requires CacheOk(dev, s) && s.eng.phase.SawAll?
    ensures CacheOk(dev, Apply(s, Capture(clock)))
  {
    CaptureSeeds(s, clock);
    SeededCache(dev, s, Apply(s, Capture(clock)));
  }

  lemma CaptureCore(s: Sys, clock: nat)
    requires RegOk(s) && StateOk(s) && SawAllOk(s) && TimesOk(s)
    ensures var t := Apply(s, Capture(clock)); RegOk(t) && StateOk(t) && RefreshOk(t.eng) && TimesOk(t)
  {
  }

  lemma CaptureCycle(s: Sys, clock: nat)
    requires RegOk(s) && SawAllOk(s) && StateOk(s) && TimesOk(s)
    ensures InCycleOk(Apply(s, Capture(clock)))
  {
    CaptureCore(s, clock);
    CaptureRequests(s, clock);
    CaptureRealtime(s, clock);
    CaptureBulk(s, clock);
  }

  lemma CaptureOrigins(dev: Device, s: Sys, clock: nat)
    requires Inv(dev, s) && s.eng.phase.SawAll?
    ensures FreshOk(Apply(s, Capture(clock))) && CacheOk(dev, Apply(s, Capture(clock)))
  {
    CaptureCache(dev, s, clock);
    CaptureFresh(s, clock);
  }

  lemma CaptureBase(dev: Device, s: Sys, clock: nat)
    requires Inv(dev, s) && s.eng.phase.SawAll?
    ensures var t := Apply(s, Capture(clock)); RegOk(t) && StateOk(t) && FreshOk(t) && CacheOk(dev, t) && TimesOk(t)
  {
    CaptureCore(s, clock);
    CaptureOrigins(dev, s, clock);
  }

  lemma CaptureKeepsInv(dev: Device, s: Sys, clock: nat)
    requires Inv(dev, s) && s.eng.phase.SawAll?
    ensures Inv(dev, Apply(s, Capture(clock)))
  {
    CaptureBase(dev, s, clock);
    CaptureCycle(s, clock);
    assert InCycle(Apply(s, Capture(clock)).eng.phase);
  }

  // ---------------------------------------------------------------------------
  // Sending.

  /** A step inside a cycle that changes no bytes and no markers: a read is sent, refused or failed. */
  predicate Sends(s: Sys, t: Sys) {
    && t.now == s.now + 1 && t.reg == s.reg && t.inHand == s.inHand
    && t.hist == s.hist.(flownAt := t.hist.flownAt) && (InFlight(t.eng.phase) ==> t.hist.flownAt == s.now)
    && t.eng == s.eng.(phase := t.eng.phase, flight := t.eng.flight, flightBytes := t.eng.flightBytes,
                       lastError := t.eng.lastError, worstRtt := t.eng.worstRtt)
    && InCycle(s.eng.phase) && InCycle(t.eng.phase)
  }

  lemma SendsCore(s: Sys, t: Sys)
    requires RegOk(s) && StateOk(s) && TimesOk(s) && Sends(s, t)
    ensures RegOk(t) && StateOk(t) && TimesOk(t)
  {
  }

  lemma SendsCycle(s: Sys, t: Sys)
    requires InCycleOk(s) && Sends(s, t) && (InFlight(t.eng.phase) ==> FlightOk(t))
    ensures InCycleOk(t)
  {
  }

  lemma SendsCache(dev: Device, s: Sys, t: Sys)
    requires CacheOk(dev, s) && Sends(s, t)
    ensures CacheOk(dev, t)
  {
  }

  lemma SendsKeepsInv(dev: Device, s: Sys, t: Sys)
    requires Inv(dev, s) && Sends(s, t) && (InFlight(t.eng.phase) ==> FlightOk(t))
    ensures Inv(dev, t)
  {
    SendsCore(s, t);
    SendsCycle(s, t);
    SendsCache(dev, s, t);
    KeepFresh(s, t);
  }

  lemma RealtimeFlight(s: Sys)
    requires RegOk(s) && InCycleOk(s)
    ensures FlightOk(Apply(s, IssueRealtime))
  {
    var ws, gap := s.eng.realtime, s.eng.cfg.coalesceGap;
    CoalescedWellFormed(ws, gap);
    CoalescedIssued(ws, gap, s.hist.issued);
    forall id | id in Ids(Coalesced(ws, gap)) ensures id in s.eng.requests { CoalescedIds(ws, gap, id); }
  }

  lemma IssueRealtimeKeepsInv(dev: Device, s: Sys)
    requires Inv(dev, s) && s.eng.phase.RealtimeReady?
    ensures Inv(dev, Apply(s, IssueRealtime))
  {
    RealtimeFlight(s);
    SendsKeepsInv(dev, s, Apply(s, IssueRealtime));
  }

  lemma BatchFlight(e: Engine, budget: nat, issued: map<WatchId, MemRegion>)
    requires Loopable(e) && SlotsIssued(AllSlots(e.bulk), issued)
    ensures var batch := Batch(e, budget);
            && (forall r :: r in batch ==> WellFormed(r))
            && SlotsIssued(AllSlots(batch), issued)
            && (forall id :: id in Ids(batch) ==> id in e.requests)
  {
    var batch := Batch(e, budget);
    forall r | r in batch ensures WellFormed(r) {
      BatchPending(e, budget, r);
      ST.SplitBounds(e.bulk, budget, r);
    }
    forall x | x in AllSlots(batch) ensures x.id in issued && issued[x.id] == x.region {
      AllSlotsMember(batch, x);
      var r :| r in batch && x in MemberSlots(r);
      BatchPending(e, budget, r);
      AllSlotsMember(SplitReads(e.bulk, budget), x);
      SplitSlots(e.bulk, budget, x);
    }
    BatchIds(e, budget);
  }

  lemma BulkFlight(s: Sys, elapsedMs: nat)
    requires RegOk(s) && InCycleOk(s) && TurnAt(s.eng, elapsedMs).Issue?
    ensures FlightOk(Apply(s, BulkTurn(elapsedMs)))
  {
    var t := Apply(s, BulkTurn(elapsedMs));
    BatchFlight(s.eng, IterBudget(s.eng, elapsedMs).value, s.hist.issued);
    IssuedFlight(s.eng, elapsedMs);
    assert t.hist == s.hist.(flownAt := s.now) && t.eng == Turned(s.eng, elapsedMs);
  }

  lemma IssuedFlight(e: Engine, elapsedMs: nat)
    requires TurnAt(e, elapsedMs).Issue?
    ensures Turned(e, elapsedMs).flight == Batch(e, IterBudget(e, elapsedMs).value)
    ensures Turned(e, elapsedMs).requests == e.requests
  {
  }

  lemma TurnSends(s: Sys, elapsedMs: nat)
    requires s.eng.phase.Draining?
    ensures Sends(s, Apply(s, BulkTurn(elapsedMs)))
    ensures Turned(s.eng, elapsedMs).phase.BulkInFlight? <==> TurnAt(s.eng, elapsedMs).Issue?
    ensures !Turned(s.eng, elapsedMs).phase.RealtimeInFlight?
  {
  }

  lemma BulkTurnKeepsInv(dev: Device, s: Sys, elapsedMs: nat)
    requires Inv(dev, s) && s.eng.phase.Draining?
    ensures Inv(dev, Apply(s, BulkTurn(elapsedMs)))
  {
    TurnSends(s, elapsedMs);
    if TurnAt(s.eng, elapsedMs).Issue? { BulkFlight(s, elapsedMs); }
    SendsKeepsInv(dev, s, Apply(s, BulkTurn(elapsedMs)));
  }

  // ---------------------------------------------------------------------------
  // Answers.

  lemma {:induction false} OriginsMembersAt(o: Origins, blob: seq<Byte>, ms: seq<Member>, origin: Origin, id: WatchId)
    ensures var p := OriginsMembers(o, blob, ms, origin);
            if exists m :: m in ms && m.id == id && Reaches(blob, m) then id in p && p[id] == origin
            else (id in p <==> id in o) && (id in o ==> p[id] == o[id])
    decreases |ms|
  {
    if ms != [] {
      OriginsMembersAt(if Reaches(blob, ms[0]) then o[ms[0].id := origin] else o, blob, ms[1..], origin, id);
      assert forall m :: m in ms <==> m == ms[0] || m in ms[1..];
    }
  }

  /** What a reply reached has an origin among the reply's instants; the rest keeps the one it had. */
  lemma {:induction false} OriginsAppliedAt(o: Origins, rs: seq<CoalescedRead>, blobs: seq<seq<Byte>>, at: seq<nat>,
      cycle: nat, sent: nat, id: WatchId)
    requires |at| == |blobs| && forall i :: 0 <= i < |at| ==> sent <= at[i]
    ensures var p := OriginsApplied(o, rs, blobs, at, cycle);
            && (id in Delivered(rs, blobs) ==> id in p && p[id].at >= sent && p[id].cycle == cycle)
            && (id !in Delivered(rs, blobs) ==> (id in p <==> id in o) && (id in o ==> p[id] == o[id]))
    ensures (id in o && o[id].at >= sent && o[id].cycle == cycle) ==>
              && OriginsApplied(o, rs, blobs, at, cycle)[id].at >= sent
              && OriginsApplied(o, rs, blobs, at, cycle)[id].cycle == cycle
    decreases |rs|
  {
    if rs != [] && blobs != [] {
      var mid := OriginsMembers(o, blobs[0], rs[0].members, Origin(at[0], cycle));
      OriginsMembersAt(o, blobs[0], rs[0].members, Origin(at[0], cycle), id);
      OriginsAppliedAt(mid, rs[1..], blobs[1..], at[1..], cycle, sent, id);
    }
  }

  lemma {:induction false} DeliveredIds(rs: seq<CoalescedRead>, blobs: seq<seq<Byte>>)
    ensures Delivered(rs, blobs) <= Ids(rs)
    decreases |rs|
  {
    if rs != [] && blobs != [] {
      DeliveredIds(rs[1..], blobs[1..]);
      IdsCons(rs[0], rs[1..]);
      assert rs == [rs[0]] + rs[1..];
    }
  }

  lemma CoherentPut(dev: Device, c: Cache, o: Origins, issued: map<WatchId, MemRegion>, cycle: nat,
                    id: WatchId, region: MemRegion, bytes: seq<Byte>, at: nat)
    requires Coherent(dev, c, o, issued, cycle)
    requires id in issued && issued[id] == region && bytes == ReadMemory(dev(at), region)
    ensures Coherent(dev, Put(c, id, region, bytes), o[id := Origin(at, cycle)], issued, cycle)
  {
    var c', o' := Put(c, id, region, bytes), o[id := Origin(at, cycle)];
    forall x | x in o' ensures EntryOk(dev, c', o', issued, cycle, x) {
      if x != id { assert EntryOk(dev, c, o, issued, cycle, x); }
    }
  }

  lemma {:induction false} CoherentMembers(dev: Device, c: Cache, o: Origins, issued: map<WatchId, MemRegion>,
      cycle: nat,
                                           r: CoalescedRead, blob: seq<Byte>, ms: seq<Member>, at: nat)
    requires Coherent(dev, c, o, issued, cycle) && Honest(blob, r.region, dev(at))
    requires forall m :: m in ms ==> m.off + m.size <= r.region.size
    requires SlotsIssued(SlotsIn(r.region, ms), issued)
    ensures Coherent(dev, AppliedMembers(c, r, blob, ms), OriginsMembers(o, blob, ms, Origin(at, cycle)), issued, cycle)
    decreases |ms|
  {
    if ms != [] {
      var m := ms[0];
      var slot := SlotAt(r.region, m);
      assert m in ms && slot in SlotsIn(r.region, ms);
      if Reaches(blob, m) {
        SliceIsMemory(blob, r, m, dev(at));
        CoherentPut(dev, c, o, issued, cycle, m.id, slot.region, blob[m.off..m.off + m.size], at);
        CoherentMembers(dev, Put(c, m.id, slot.region, blob[m.off..m.off + m.size]), o[m.id := Origin(at, cycle)],
                        issued, cycle, r, blob, ms[1..], at);
      } else {
        CoherentMembers(dev, c, o, issued, cycle, r, blob, ms[1..], at);
      }
    }
  }

  lemma {:induction false} CoherentApplied(dev: Device, c: Cache, o: Origins, issued: map<WatchId, MemRegion>,
      cycle: nat,
                                           rs: seq<CoalescedRead>, blobs: seq<seq<Byte>>, at: seq<nat>)
    requires Coherent(dev, c, o, issued, cycle) && |at| == |blobs|
    requires forall i :: 0 <= i < |blobs| && i < |rs| ==> Honest(blobs[i], rs[i].region, dev(at[i]))
    requires (forall r :: r in rs ==> WellFormed(r)) && SlotsIssued(AllSlots(rs), issued)
    ensures Coherent(dev, Applied(c, rs, blobs), OriginsApplied(o, rs, blobs, at, cycle), issued, cycle)
    decreases |rs|
  {
    if rs != [] && blobs != [] {
      var r := rs[0];
      assert r in rs;
      assert forall x :: x in MemberSlots(r) ==> x in AllSlots(rs);
      assert forall x :: x in AllSlots(rs[1..]) ==> x in AllSlots(rs);
      CoherentMembers(dev, c, o, issued, cycle, r, blobs[0], r.members, at[0]);
      CoherentApplied(dev, AppliedMembers(c, r, blobs[0], r.members),
                      OriginsMembers(o, blobs[0], r.members, Origin(at[0], cycle)), issued, cycle,
                      rs[1..], blobs[1..], at[1..]);
    }
  }

  /** A step that takes in a successful reply. */
  predicate Answers(s: Sys, t: Sys, blobs: seq<seq<Byte>>, at: seq<nat>) {
    && t.now == s.now + 1 && t.reg == s.reg && t.inHand == s.inHand
    && t.hist == HistoryAnswered(s.hist, s.eng, Blobs(blobs, at))
    && t.eng.cycle == s.eng.cycle && t.eng.requests == s.eng.requests && t.eng.realtime == s.eng.realtime
    && t.eng.bulk == s.eng.bulk && t.eng.published == s.eng.published
    && t.eng.builder == Applied(s.eng.builder, s.eng.flight, blobs)
    && t.eng.readState == Marked(s.eng.readState, Ids(s.eng.flight), s.eng.requests, s.eng.cycle)
    && (t.eng.done == s.eng.done || t.eng.done == s.eng.done + Ids(s.eng.flight))
    && InFlight(s.eng.phase) && InCycle(t.eng.phase) && !InFlight(t.eng.phase)
  }

  lemma RealtimeAnswers(s: Sys, blobs: seq<seq<Byte>>, at: seq<nat>, rttMs: nat)
    requires s.eng.phase.RealtimeInFlight?
    ensures Answers(s, Apply(s, RealtimeDone(Blobs(blobs, at), rttMs)), blobs, at)
  {
  }

  lemma BulkAnswers(s: Sys, blobs: seq<seq<Byte>>, at: seq<nat>, rttMs: nat, elapsedMs: nat)
    requires s.eng.phase.BulkInFlight?
    ensures Answers(s, Apply(s, BulkDone(Blobs(blobs, at), rttMs, elapsedMs)), blobs, at)
  {
  }

  lemma AnswersCore(s: Sys, t: Sys, blobs: seq<seq<Byte>>, at: seq<nat>)
    requires RegOk(s) && StateOk(s) && InCycleOk(s) && Answers(s, t, blobs, at)
    ensures RegOk(t) && StateOk(t)
  {
  }

  lemma AnswersTimes(dev: Device, s: Sys, t: Sys, blobs: seq<seq<Byte>>, at: seq<nat>)
    requires TimesOk(s) && Answers(s, t, blobs, at)
    requires HonestReply(dev, s.eng.flight, Blobs(blobs, at), s.hist.flownAt, s.now)
    ensures TimesOk(t)
  {
    forall id | id in t.hist.origins ensures t.hist.origins[id].at < t.now {
      OriginsAppliedBefore(s.hist.origins, s.eng.flight, blobs, at, s.eng.cycle, t.now, id);
    }
  }

  lemma {:induction false} OriginsAppliedBefore(o: Origins, rs: seq<CoalescedRead>, blobs: seq<seq<Byte>>,
      at: seq<nat>, cycle: nat, now: nat, id: WatchId)
    requires |at| == |blobs| && (forall i :: 0 <= i < |at| ==> at[i] < now) && (id in o ==> o[id].at < now)
    ensures var p := OriginsApplied(o, rs, blobs, at, cycle); id in p ==> p[id].at < now
    decreases |rs|
  {
    if rs != [] && blobs != [] {
      var mid := OriginsMembers(o, blobs[0], rs[0].members, Origin(at[0], cycle));
      OriginsMembersAt(o, blobs[0], rs[0].members, Origin(at[0], cycle), id);
      OriginsAppliedBefore(mid, rs[1..], blobs[1..], at[1..], cycle, now, id);
    }
  }

  lemma AnswersCache(dev: Device, s: Sys, t: Sys, blobs: seq<seq<Byte>>, at: seq<nat>)
    requires CacheOk(dev, s) && FlightOk(s) && Answers(s, t, blobs, at)
    requires HonestReply(dev, s.eng.flight, Blobs(blobs, at), s.hist.flownAt, s.now)
    ensures CacheOk(dev, t)
  {
    CoherentApplied(dev, s.eng.builder, s.hist.origins, s.hist.issued, s.eng.cycle, s.eng.flight, blobs, at);
  }

  lemma AnswersCycle(s: Sys, t: Sys, blobs: seq<seq<Byte>>, at: seq<nat>)
    requires InCycleOk(s) && InFlight(s.eng.phase) && Answers(s, t, blobs, at)
    ensures InCycleOk(t)
  {
    forall id | id in t.eng.done ensures !Unfulfilled(t.eng.requests, t.eng.readState, id) {
      MarkedFulfils(s.eng, Ids(s.eng.flight), id);
    }
  }

  /** Fulfilled and reached: read after every marker captured. Fulfilled but not reached: hollow. */
  lemma AnswersFresh(dev: Device, s: Sys, t: Sys, blobs: seq<seq<Byte>>, at: seq<nat>)
    requires RegOk(s) && FreshOk(s) && InCycleOk(s) && InFlight(s.eng.phase) && Answers(s, t, blobs, at)
    requires HonestReply(dev, s.eng.flight, Blobs(blobs, at), s.hist.flownAt, s.now)
    ensures FreshOk(t)
  {
    DeliveredIds(s.eng.flight, blobs);
    forall id | id in t.eng.readState && id !in t.hist.hollow
      ensures id in t.reg.entries ==> id in t.hist.origins
      ensures id in t.hist.origins ==> Fresh(t, id)
    {
      OriginsAppliedAt(s.hist.origins, s.eng.flight, blobs, at, s.eng.cycle, s.hist.flownAt, id);
      if id !in Ids(s.eng.flight) && id in t.hist.origins { assert Fresh(s, id); }
    }
  }

  lemma AnswersKeepsInv(dev: Device, s: Sys, t: Sys, blobs: seq<seq<Byte>>, at: seq<nat>)
    requires Inv(dev, s) && Answers(s, t, blobs, at)
    requires HonestReply(dev, s.eng.flight, Blobs(blobs, at), s.hist.flownAt, s.now)
    ensures Inv(dev, t)
  {
    AnswersCore(s, t, blobs, at);
    AnswersTimes(dev, s, t, blobs, at);
    AnswersCache(dev, s, t, blobs, at);
    AnswersCycle(s, t, blobs, at);
    AnswersFresh(dev, s, t, blobs, at);
  }

  lemma RealtimeDoneKeepsInv(dev: Device, s: Sys, reply: Reply, rttMs: nat)
    requires Inv(dev, s) && Enabled(dev, s, RealtimeDone(reply, rttMs))
    ensures Inv(dev, Apply(s, RealtimeDone(reply, rttMs)))
  {
    var t := Apply(s, RealtimeDone(reply, rttMs));
    match reply {
      case Failed => SendsKeepsInv(dev, s, t);
      case Blobs(blobs, at) =>
        RealtimeAnswers(s, blobs, at, rttMs);
        AnswersKeepsInv(dev, s, t, blobs, at);
    }
  }

  lemma BulkDoneKeepsInv(dev: Device, s: Sys, reply: Reply, rttMs: nat, elapsedMs: nat)
    requires Inv(dev, s) && Enabled(dev, s, BulkDone(reply, rttMs, elapsedMs))
    ensures Inv(dev, Apply(s, BulkDone(reply, rttMs, elapsedMs)))
  {
    var t := Apply(s, BulkDone(reply, rttMs, elapsedMs));
    match reply {
      case Failed => SendsKeepsInv(dev, s, t);
      case Blobs(blobs, at) =>
        BulkAnswers(s, blobs, at, rttMs, elapsedMs);
        AnswersKeepsInv(dev, s, t, blobs, at);
    }
  }

  // ---------------------------------------------------------------------------
  // Publishing and collecting.

  lemma PublishCache(dev: Device, s: Sys)
    requires CacheOk(dev, s) && s.eng.phase.Drained?
    ensures CacheOk(dev, Apply(s, Publish))
  {
  }

  lemma PublishCore(s: Sys)
    requires RegOk(s) && StateOk(s) && TimesOk(s)
    ensures var t := Apply(s, Publish); RegOk(t) && StateOk(t) && TimesOk(t)
  {
  }

  lemma PublishKeepsInv(dev: Device, s: Sys)
    requires Inv(dev, s) && s.eng.phase.Drained?
    ensures Inv(dev, Apply(s, Publish))
  {
    PublishCore(s);
    PublishCache(dev, s);
    PublishFresh(s);
  }

  lemma PublishFresh(s: Sys)
    requires FreshOk(s)
    ensures FreshOk(Apply(s, Publish)) && Apply(s, Publish).eng.phase.Published?
  {
    KeepFresh(s, Apply(s, Publish));
  }

  lemma FinishFresh(s: Sys)
    requires FreshOk(s)
    ensures FreshOk(Apply(s, Finish))
  {
    var t := Apply(s, Finish);
    forall id | id in t.eng.readState && id in t.hist.origins && id !in t.hist.hollow ensures Fresh(t, id) {
      assert Fresh(s, id);
    }
  }

  lemma FinishCore(s: Sys)
    requires RegOk(s) && StateOk(s) && TimesOk(s)
    ensures var t := Apply(s, Finish); RegOk(t) && StateOk(t) && TimesOk(t)
  {
  }

  lemma FinishCache(dev: Device, s: Sys)
    requires CacheOk(dev, s) && s.eng.phase.Published?
    ensures CacheOk(dev, Apply(s, Finish))
  {
  }

  lemma FinishKeepsInv(dev: Device, s: Sys)
    requires Inv(dev, s) && s.eng.phase.Published?
    ensures Inv(dev, Apply(s, Finish))
  {
    FinishCore(s);
    FinishCache(dev, s);
    FinishFresh(s);
  }

  // ---------------------------------------------------------------------------
  // Every step, every run.

  lemma StepKeepsInv(dev: Device, s: Sys, step: Step)
    requires Inv(dev, s) && Enabled(dev, s, step)
    ensures Inv(dev, Apply(s, step))
  {
    if ScriptStep(step) { ScriptKeepsInv(dev, s, step); } else { EngineKeepsInv(dev, s, step); }
  }

  lemma EngineKeepsInv(dev: Device, s: Sys, step: Step)
    requires Inv(dev, s) && Enabled(dev, s, step) && !ScriptStep(step)
    ensures Inv(dev, Apply(s, step))
  {
    match step {
      case Start(cfg) => StartKeepsInv(dev, s, cfg);
      case Capture(clock) => CaptureKeepsInv(dev, s, clock);
      case IssueRealtime => IssueRealtimeKeepsInv(dev, s);
      case RealtimeDone(reply, rttMs) => RealtimeDoneKeepsInv(dev, s, reply, rttMs);
      case BulkTurn(elapsedMs) => BulkTurnKeepsInv(dev, s, elapsedMs);
      case BulkDone(reply, rttMs, elapsedMs) => BulkDoneKeepsInv(dev, s, reply, rttMs, elapsedMs);
      case Publish => PublishKeepsInv(dev, s);
      case Finish => FinishKeepsInv(dev, s);
    }
  }

  lemma InitInv(dev: Device, cfg: PollConfig)
    ensures Inv(dev, Init(cfg))
  {
  }

  /** The invariant holds in every state of every run, however script and engine steps interleave. */
  lemma {:induction false} RunKeepsInv(dev: Device, s: Sys, steps: seq<Step>)
    requires Inv(dev, s) && ValidRun(dev, s, steps)
    ensures Inv(dev, Run(s, steps))
    decreases |steps|
  {
    if steps != [] {
      StepKeepsInv(dev, s, steps[0]);
      RunKeepsInv(dev, Apply(s, steps[0]), steps[1..]);
    }
  }
}
