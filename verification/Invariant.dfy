/** What every step of every interleaving keeps. */
module Invariant {
  import opened Types
  import opened Fulfil
  import opened Snapshots
  import opened Cycle
  import opened System
  import opened Drain

  // ---------------------------------------------------------------------------
  // Parts.

  predicate SlotsIssued(slots: seq<Slot>, issued: map<WatchId, MemRegion>) {
    forall s :: s in slots ==> s.id in issued && issued[s.id] == s.region
  }

  /** The marker in hand is the latest one drawn; nothing holds it yet, and no capture saw it. */
  predicate HandOk(s: Sys) {
    && s.inHand == s.reg.nextRequest && s.hist.seen < s.inHand
    && (forall id :: id in s.reg.entries ==> s.reg.entries[id].request < s.inHand)
  }

  predicate RegOk(s: Sys) {
    && s.reg.Valid()
    && (forall id :: id in s.reg.entries ==>
          id in s.hist.issued && s.hist.issued[id] == s.reg.entries[id].handle.region)
    && (forall id :: id in s.hist.issued ==> id < s.reg.nextId && s.hist.issued[id].Fits())
    && |s.hist.askedAt| == s.reg.nextRequest
    && (forall k :: 0 <= k < |s.hist.askedAt| ==> s.hist.askedAt[k] < s.now)
    && s.hist.seen <= s.reg.nextRequest
    && (s.inHand > 0 ==> HandOk(s))
  }

  /** A fulfilled marker was captured, and never exceeds the marker of a live watch. */
  predicate StateOk(s: Sys) {
    forall id :: id in s.eng.readState ==>
      && id in s.hist.issued && s.eng.readState[id].request <= s.hist.seen && s.eng.readState[id].refresh <= s.eng.cycle
      && (id in s.reg.entries ==> s.eng.readState[id].request <= s.reg.entries[id].request)
  }

  /** The cached bytes of `id` were read after every request its fulfilled marker covers. */
  predicate Fresh(s: Sys, id: WatchId)
    requires id in s.eng.readState && id in s.hist.origins
  {
    forall k :: 0 <= k < s.eng.readState[id].request && k < |s.hist.askedAt|
        ==> s.hist.askedAt[k] < s.hist.origins[id].at
  }

  predicate FreshOk(s: Sys) {
    && (forall id :: id in s.eng.readState && id in s.reg.entries && id !in s.hist.hollow ==> id in s.hist.origins)
    && (forall id :: id in s.eng.readState && id in s.hist.origins && id !in s.hist.hollow ==> Fresh(s, id))
  }

  predicate EntryOk(dev: Device, c: Cache, o: Origins, issued: map<WatchId, MemRegion>, cycle: nat, id: WatchId)
    requires c.SameKeys() && o.Keys == c.data.Keys && id in o
  {
    && id in issued && c.regions[id] == issued[id]
    && c.data[id] == ReadMemory(dev(o[id].at), issued[id])
    && o[id].cycle <= cycle && c.ages[id] == Min(cycle - o[id].cycle, U32_MAX)
  }

  /** The three maps have the same keys; each watch holds the device memory of its registered region at the
      instant it was last read, and its age counts the cycles since. */
  predicate Coherent(dev: Device, c: Cache, o: Origins, issued: map<WatchId, MemRegion>, cycle: nat) {
    && c.SameKeys() && o.Keys == c.data.Keys
    && forall id :: id in o ==> EntryOk(dev, c, o, issued, cycle, id)
  }

  predicate InCycle(p: Phase) {
    p.RealtimeReady? || p.RealtimeInFlight? || p.Draining? || p.BulkInFlight? || p.Drained?
  }

  predicate InFlight(p: Phase) { p.RealtimeInFlight? || p.BulkInFlight? }

  /** The cycle the builder's ages refer to. */
  function BuilderCycle(e: Engine): nat {
    if e.phase.SawAll? && e.cycle > 0 then e.cycle - 1 else e.cycle
  }

  predicate CacheOk(dev: Device, s: Sys) {
    var e := s.eng;
    && Coherent(dev, e.builder, s.hist.origins, s.hist.issued, BuilderCycle(e))
    && Coherent(dev, e.published.cache, s.hist.publishedOrigins, s.hist.issued, e.published.cycle)
    && e.cycle == e.published.cycle + (if e.phase.Idle? || e.phase.Published? then 0 else 1)
    && (!InCycle(e.phase) ==> e.builder == e.published.cache && s.hist.origins == s.hist.publishedOrigins)
  }

  predicate RequestsOk(s: Sys) {
    forall id :: id in s.eng.requests ==>
      && id in s.hist.issued && 1 <= s.eng.requests[id] <= s.hist.seen
      && (id in s.reg.entries ==> s.eng.requests[id] <= s.reg.entries[id].request)
  }

  predicate RealtimeOk(s: Sys) {
    forall w :: w in s.eng.realtime ==>
      w.id in s.eng.requests && w.region.Fits() && w.id in s.hist.issued && s.hist.issued[w.id] == w.region
  }

  predicate FlightOk(s: Sys) {
    && (forall r :: r in s.eng.flight ==> WellFormed(r))
    && SlotsIssued(AllSlots(s.eng.flight), s.hist.issued)
    && (forall id :: id in Ids(s.eng.flight) ==> id in s.eng.requests)
    && (forall k :: 0 <= k < s.hist.seen && k < |s.hist.askedAt| ==> s.hist.askedAt[k] < s.hist.flownAt)
  }

  /** What was refreshed in this very cycle holds the marker captured in it. */
  predicate RefreshOk(e: Engine) {
    forall id :: id in e.readState && e.readState[id].refresh == e.cycle ==>
      id in e.requests && e.readState[id].request == e.requests[id]
  }

  predicate InCycleOk(s: Sys) {
    && RequestsOk(s) && RealtimeOk(s) && Loopable(s.eng) && RefreshOk(s.eng)
    && SlotsIssued(AllSlots(s.eng.bulk), s.hist.issued)
    && (InFlight(s.eng.phase) ==> FlightOk(s))
  }

  /** Before the capture: nothing was refreshed in the new cycle, and watches with a state are retained. */
  predicate SawAllOk(s: Sys) {
    && s.eng.done == {} && s.eng.readsIssued == 0
    && (forall id :: id in s.eng.readState ==> s.eng.readState[id].refresh < s.eng.cycle)
    && (forall id :: id in s.eng.readState && id in s.reg.entries ==> id in s.eng.liveIds)
  }

  /** Bytes in a cache were read before now, and before the read in flight was sent. */
  predicate TimesOk(s: Sys) {
    && (forall id :: id in s.hist.origins ==> s.hist.origins[id].at < s.now)
    && (forall id :: id in s.hist.publishedOrigins ==> s.hist.publishedOrigins[id].at < s.now)
    && (InFlight(s.eng.phase) ==> forall id :: id in s.hist.origins ==> s.hist.origins[id].at < s.hist.flownAt)
  }

  ghost predicate Inv(dev: Device, s: Sys) {
    && RegOk(s) && StateOk(s) && FreshOk(s) && CacheOk(dev, s) && TimesOk(s)
    && (InCycle(s.eng.phase) ==> InCycleOk(s))
    && (s.eng.phase.SawAll? ==> SawAllOk(s))
  }

  // ---------------------------------------------------------------------------
  // Script steps.

  /** What a script step does, seen from the engine. */
  predicate ScriptRel(s: Sys, t: Sys) {
    && t.eng == s.eng
    && t.hist == s.hist.(issued := t.hist.issued, askedAt := t.hist.askedAt)
    && (forall id :: id in s.hist.issued ==> id in t.hist.issued && t.hist.issued[id] == s.hist.issued[id])
    && |s.hist.askedAt| <= |t.hist.askedAt|
    && (forall k :: 0 <= k < s.hist.seen && k < |s.hist.askedAt| ==> t.hist.askedAt[k] == s.hist.askedAt[k])
    && (forall id :: id in t.reg.entries ==>
          id !in s.hist.issued || (id in s.reg.entries && s.reg.entries[id].request <= t.reg.entries[id].request))
  }

  lemma DrawRel(s: Sys)
    requires RegOk(s) && s.inHand == 0
    ensures var t := Apply(s, Draw); RegOk(t) && ScriptRel(s, t)
  {
  }

  lemma RegisterRel(s: Sys, region: MemRegion, priority: WatchPriority, clock: nat)
    requires RegOk(s) && s.inHand > 0 && region.Fits()
    ensures var t := Apply(s, Register(region, priority, clock)); RegOk(t) && ScriptRel(s, t)
  {
  }

  lemma TouchRel(s: Sys, id: WatchId, clock: nat)
    requires RegOk(s) && s.inHand > 0
    ensures var t := Apply(s, Touch(id, clock)); RegOk(t) && ScriptRel(s, t)
  {
  }

  lemma PinRel(s: Sys, id: WatchId, clock: nat)
    requires RegOk(s) && s.inHand > 0
    ensures var t := Apply(s, Pin(id, clock)); RegOk(t) && ScriptRel(s, t)
  {
  }

  lemma UpgradeRel(s: Sys, id: WatchId, priority: WatchPriority, clock: nat)
    requires RegOk(s) && s.inHand > 0
    ensures var t := Apply(s, Upgrade(id, priority, clock)); RegOk(t) && ScriptRel(s, t)
  {
  }

  lemma RemoveRel(s: Sys, step: Step)
    requires RegOk(s) && (step.Unregister? || step.Clear?)
    ensures var t := Apply(s, step); RegOk(t) && ScriptRel(s, t)
  {
  }

  lemma ScriptStepRel(dev: Device, s: Sys, step: Step)
    requires RegOk(s) && ScriptStep(step) && Enabled(dev, s, step)
    ensures var t := Apply(s, step); RegOk(t) && ScriptRel(s, t)
  {
    match step {
      case Draw => DrawRel(s);
      case Register(region, priority, clock) => RegisterRel(s, region, priority, clock);
      case Touch(id, clock) => TouchRel(s, id, clock);
      case Pin(id, clock) => PinRel(s, id, clock);
      case Upgrade(id, priority, clock) => UpgradeRel(s, id, priority, clock);
      case Unregister(_) => RemoveRel(s, step);
      case Clear => RemoveRel(s, step);
      case _ =>
    }
  }

  lemma ScriptKeepsState(s: Sys, t: Sys)
    requires RegOk(s) && ScriptRel(s, t) && StateOk(s)
    ensures StateOk(t)
  {
  }

  lemma ScriptKeepsFresh(s: Sys, t: Sys)
    requires RegOk(s) && ScriptRel(s, t) && StateOk(s) && FreshOk(s)
    ensures FreshOk(t)
  {
    forall id | id in t.eng.readState && id in t.hist.origins && id !in t.hist.hollow ensures Fresh(t, id) {
      assert Fresh(s, id);
    }
  }

  lemma CoherentGrows(dev: Device, c: Cache, o: Origins, x: map<WatchId, MemRegion>, y: map<WatchId, MemRegion>,
      cycle: nat)
    requires Coherent(dev, c, o, x, cycle) && forall id :: id in x ==> id in y && y[id] == x[id]
    ensures Coherent(dev, c, o, y, cycle)
  {
    forall id | id in o ensures EntryOk(dev, c, o, y, cycle, id) { assert EntryOk(dev, c, o, x, cycle, id); }
  }

  lemma ScriptKeepsCycle(s: Sys, t: Sys)
    requires RegOk(s) && ScriptRel(s, t) && InCycleOk(s)
    ensures InCycleOk(t)
  {
  }

  lemma ScriptKeepsInv(dev: Device, s: Sys, step: Step)
    requires Inv(dev, s) && ScriptStep(step) && Enabled(dev, s, step)
    ensures Inv(dev, Apply(s, step))
  {
    var t := Apply(s, step);
    ScriptStepRel(dev, s, step);
    ScriptKeepsState(s, t);
    ScriptKeepsFresh(s, t);
    CoherentGrows(dev, s.eng.builder, s.hist.origins, s.hist.issued, t.hist.issued, BuilderCycle(s.eng));
    CoherentGrows(dev, s.eng.published.cache, s.hist.publishedOrigins, s.hist.issued, t.hist.issued,
        s.eng.published.cycle);
    if InCycle(s.eng.phase) { ScriptKeepsCycle(s, t); }
  }
}
