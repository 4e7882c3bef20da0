/** The script, the registry, the engine and the device together: every interleaving of their steps. */
module System {
  import opened Types
  import opened Budget
  import opened Snapshots
  import opened Registry
  import opened Cycle

  /** When, on the device, cached bytes were read, and in which cycle. */
  datatype Origin = Origin(at: nat, cycle: nat)

  type Origins = map<WatchId, Origin>

  /** What happened so far, for stating properties; no step depends on it. */
  datatype History = History(
    issued: map<WatchId, MemRegion>, // every id ever handed out, with its region
    askedAt: seq<nat>,               // the instant marker k + 1 was stored, or drawn if it is still in hand
    seen: nat,                       // markers stored before the last capture
    flownAt: nat,                    // the instant the current read was sent
    origins: Origins,                // of the bytes in the builder
    publishedOrigins: Origins,
    hollow: set<WatchId>)            // fulfilled by a reply that did not reach them

  /** `inHand` is the marker the script thread has drawn but not stored yet; 0 if there is none. */
  datatype Sys = Sys(now: nat, reg: Reg, eng: Engine, hist: History, inHand: nat)

  /** Memory at every instant; it may change arbitrarily between two instants. */
  type Device = nat -> Memory

  datatype Step =
    // script: draw a marker, then store it with one of the next four
    | Draw
    | Register(region: MemRegion, priority: WatchPriority, clock: nat)
    | Touch(id: WatchId, clock: nat)
    | Pin(id: WatchId, clock: nat)
    | Upgrade(id: WatchId, priority: WatchPriority, clock: nat)
    | Unregister(id: WatchId)
    | Clear
    // engine
    | Start(cfg: PollConfig)
    | Capture(clock: nat)
    | IssueRealtime
    | RealtimeDone(reply: Reply, rttMs: nat)
    | BulkTurn(elapsedMs: nat)
    | BulkDone(reply: Reply, rttMs: nat, elapsedMs: nat)
    | Publish
    | Finish

  predicate ScriptStep(step: Step) {
    step.Draw? || Stores(step) || step.Unregister? || step.Clear?
  }

  predicate Stores(step: Step) { step.Register? || step.Touch? || step.Pin? || step.Upgrade? }

  /** Each blob agrees with the device memory of its region at some instant between sending and now. It may
      be short, and blobs may be missing. */
  predicate HonestReply(dev: Device, rs: seq<CoalescedRead>, reply: Reply, sent: nat, now: nat) {
    reply.Failed? ||
    (&& |reply.at| == |reply.blobs|
     && (forall i :: 0 <= i < |reply.at| ==> sent <= reply.at[i] <= now)
     && (forall i :: 0 <= i < |reply.blobs| && i < |rs| ==> Honest(reply.blobs[i], rs[i].region, dev(reply.at[i]))))
  }

  predicate Enabled(dev: Device, s: Sys, step: Step) {
    match step
    case Draw => s.inHand == 0
    case Register(region, _, _) => s.inHand > 0 && region.Fits()
    case Touch(_, _) => s.inHand > 0
    case Pin(_, _) => s.inHand > 0
    case Upgrade(_, _, _) => s.inHand > 0
    case Start(cfg) => s.eng.phase.Idle? && cfg.Sane()
    case Capture(_) => s.eng.phase.SawAll?
    case IssueRealtime => s.eng.phase.RealtimeReady?
    case RealtimeDone(reply, _) =>
      s.eng.phase.RealtimeInFlight? && HonestReply(dev, s.eng.flight, reply, s.hist.flownAt, s.now)
    case BulkTurn(_) => s.eng.phase.Draining?
    case BulkDone(reply, _, _) =>
      s.eng.phase.BulkInFlight? && HonestReply(dev, s.eng.flight, reply, s.hist.flownAt, s.now)
    case Publish => s.eng.phase.Drained?
    case Finish => s.eng.phase.Published?
    case _ => true
  }

  function RegistryAfter(s: Sys, step: Step): Reg {
    match step
    case Draw => Drawn(s.reg)
    case Register(region, priority, clock) => Registered(s.reg, region, priority, clock, s.inHand)
    case Touch(id, clock) => Touched(s.reg, id, clock, s.inHand)
    case Pin(id, clock) => Pinned(s.reg, id, clock, s.inHand)
    case Upgrade(id, priority, clock) => Upgraded(s.reg, id, priority, clock, s.inHand)
    case Unregister(id) => Unregistered(s.reg, id)
    case Clear => Cleared(s.reg)
    case _ => s.reg
  }

  function ActiveAt(s: Sys, clock: nat): seq<(WatchHandle, nat)> {
    ActiveBelow(s.reg.entries, s.reg.nextId, clock, s.eng.cfg.demandWindow)
  }

  function EngineAfter(s: Sys, step: Step): Engine {
    match step
    case Start(cfg) => Started(s.eng, cfg, HandlesBelow(s.reg.entries, s.reg.nextId))
    case Capture(clock) => Cycle.Captured(s.eng, ActiveAt(s, clock))
    case IssueRealtime => RealtimeIssued(s.eng)
    case RealtimeDone(reply, rttMs) => RealtimeAnswered(s.eng, reply, rttMs)
    case BulkTurn(elapsedMs) => Turned(s.eng, elapsedMs)
    case BulkDone(reply, rttMs, elapsedMs) => BulkAnswered(s.eng, reply, rttMs, elapsedMs)
    case Publish => PublishedNow(s.eng)
    case Finish => Finished(s.eng)
    case _ => s.eng
  }

  /** Origins and reached watches mirror `Applied`. */
  function OriginsMembers(o: Origins, blob: seq<Byte>, ms: seq<Member>, origin: Origin): Origins
    decreases |ms|
  {
    if ms == [] then o
    else OriginsMembers(if Reaches(blob, ms[0]) then o[ms[0].id := origin] else o, blob, ms[1..], origin)
  }

  function OriginsApplied(o: Origins, rs: seq<CoalescedRead>, blobs: seq<seq<Byte>>, at: seq<nat>, cycle: nat): Origins
    decreases |rs|
  {
    if rs == [] || blobs == [] || at == [] then o
    else
      OriginsApplied(OriginsMembers(o, blobs[0], rs[0].members, Origin(at[0], cycle)),
                     rs[1..], blobs[1..], at[1..], cycle)
  }

  /** The watches a reply actually reaches. */
  function Delivered(rs: seq<CoalescedRead>, blobs: seq<seq<Byte>>): set<WatchId>
    decreases |rs|
  {
    if rs == [] || blobs == [] then {}
    else (set m | m in rs[0].members && Reaches(blobs[0], m) :: m.id) + Delivered(rs[1..], blobs[1..])
  }

  function HistoryAnswered(h: History, e: Engine, reply: Reply): History {
    match reply
    case Failed => h
    case Blobs(blobs, at) =>
      h.(origins := OriginsApplied(h.origins, e.flight, blobs, at, e.cycle),
         hollow := (h.hollow - Ids(e.flight)) + (Ids(e.flight) - Delivered(e.flight, blobs)))
  }

  /** The marker in hand counts as asked for when it is stored. */
  function StoredNow(s: Sys): seq<nat> {
    if 1 <= s.inHand <= |s.hist.askedAt| then s.hist.askedAt[s.inHand - 1 := s.now] else s.hist.askedAt
  }

  function InHandAfter(s: Sys, step: Step): nat {
    if step.Draw? then s.reg.nextRequest + 1 else if Stores(step) then 0 else s.inHand
  }

  function HistoryAfter(s: Sys, step: Step): History {
    match step
    case Draw => s.hist.(askedAt := s.hist.askedAt + [s.now])
    case Register(region, _, _) =>
      s.hist.(issued := s.hist.issued[s.reg.nextId := region], askedAt := StoredNow(s))
    case Touch(_, _) => s.hist.(askedAt := StoredNow(s))
    case Pin(_, _) => s.hist.(askedAt := StoredNow(s))
    case Upgrade(_, _, _) => s.hist.(askedAt := StoredNow(s))
    case Capture(_) =>
      s.hist.(seen := if s.inHand > 0 then s.inHand - 1 else s.reg.nextRequest,
              origins := map id | id in s.hist.publishedOrigins && id in s.eng.liveIds :: s.hist.publishedOrigins[id])
    case IssueRealtime => s.hist.(flownAt := s.now)
    case BulkTurn(_) => s.hist.(flownAt := s.now)
    case RealtimeDone(reply, _) => HistoryAnswered(s.hist, s.eng, reply)
    case BulkDone(reply, _, _) => HistoryAnswered(s.hist, s.eng, reply)
    case Publish => s.hist.(publishedOrigins := s.hist.origins)
    case _ => s.hist
  }

  function Apply(s: Sys, step: Step): Sys {
    Sys(s.now + 1, RegistryAfter(s, step), EngineAfter(s, step), HistoryAfter(s, step), InHandAfter(s, step))
  }

  function Init(cfg: PollConfig): Sys {
    Sys(0, NEW, Booted(cfg), History(map[], [], 0, 0, map[], map[], {}), 0)
  }

  function Run(s: Sys, steps: seq<Step>): Sys
    decreases |steps|
  {
    if steps == [] then s else Run(Apply(s, steps[0]), steps[1..])
  }

  predicate ValidRun(dev: Device, s: Sys, steps: seq<Step>)
    decreases |steps|
  {
    steps == [] || (Enabled(dev, s, steps[0]) && ValidRun(dev, Apply(s, steps[0]), steps[1..]))
  }
}
