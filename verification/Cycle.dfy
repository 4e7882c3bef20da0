/** The poll cycle as steps on the engine's state (crates/sni-cache/src/engine.rs, the loop in `spawn`).
    Between any two steps the script may change the registry and the device may change its memory. */
module Cycle {
  import opened Types
  import opened Coalesce
  import opened Split
  import opened Select
  import opened Fulfil
  import opened Budget
  import opened Snapshots

  datatype Phase =
    | Idle              // between cycles
    | SawAll            // took the retention set
    | RealtimeReady     // took the poll set; realtime watches wait for their own read
    | RealtimeInFlight
    | Draining          // at the head of the drain loop
    | BulkInFlight
    | Drained           // left the drain loop
    | Published

  datatype Tier = RealtimeTier | BulkTier

  /** A failed read, or the blobs of a successful one with the instant each was read on the device. */
  datatype Reply = Failed | Blobs(blobs: seq<seq<Byte>>, at: seq<nat>)

  datatype Engine = Engine(
    // carried across cycles
    cycle: nat, budget: nat, throughput: Option<real>, latencyFloor: Option<real>,
    readState: ReadStates, published: Snapshot,
    // one cycle
    phase: Phase, cfg: PollConfig, liveIds: set<WatchId>, requests: Requests,
    realtime: seq<WatchHandle>, bulk: seq<CoalescedRead>, builder: Cache,
    done: set<WatchId>, readsIssued: nat, worstRtt: nat, lastError: Option<Tier>,
    flight: seq<CoalescedRead>, flightBytes: nat)

  function InitialBudget(cfg: PollConfig): nat { Min(Max(cfg.minByteBudget, 2048), cfg.maxByteBudget) }

  function Booted(cfg: PollConfig): Engine {
    Engine(0, InitialBudget(cfg), None, None, map[], EMPTY,
           Idle, cfg, {}, map[], [], [], EMPTY.cache, {}, 0, 0, None, [], 0)
  }

  function IdsOf(ws: seq<WatchHandle>): set<WatchId> { set w | w in ws :: w.id }

  /** A client is there: a cycle begins with the set of all registered watches. */
  function Started(e: Engine, cfg: PollConfig, all: seq<WatchHandle>): Engine {
    e.(cycle := e.cycle + 1, cfg := cfg, liveIds := IdsOf(all), phase := SawAll,
       done := {}, readsIssued := 0, worstRtt := 0, lastError := None)
  }

  function RequestMap(active: seq<(WatchHandle, nat)>): Requests {
    if active == [] then map[] else map[active[0].0.id := active[0].1] + RequestMap(active[1..])
  }

  function RealtimeOf(active: seq<(WatchHandle, nat)>): seq<WatchHandle> {
    if active == [] then []
    else (if active[0].0.priority.Realtime? then [active[0].0] else []) + RealtimeOf(active[1..])
  }

  function BulkOf(active: seq<(WatchHandle, nat)>): seq<WatchHandle> {
    if active == [] then []
    else (if active[0].0.priority.Realtime? then [] else [active[0].0]) + BulkOf(active[1..])
  }

  /** The poll set with its markers; the builder is seeded from the last snapshot. */
  function Captured(e: Engine, active: seq<(WatchHandle, nat)>): Engine {
    e.(requests := RequestMap(active), realtime := RealtimeOf(active),
       bulk := Coalesced(BulkOf(active), e.cfg.coalesceGap),
       builder := Retained(Aged(e.published.cache), e.liveIds),
       phase := if RealtimeOf(active) == [] then Draining else RealtimeReady)
  }

  function RealtimeIssued(e: Engine): Engine {
    e.(flight := Coalesced(e.realtime, e.cfg.coalesceGap), phase := RealtimeInFlight)
  }

  function RealtimeAnswered(e: Engine, reply: Reply, rttMs: nat): Engine {
    match reply
    case Failed => e.(lastError := Some(RealtimeTier), flight := [], phase := Draining)
    case Blobs(blobs, _) =>
      e.(latencyFloor := ObserveLatencyFloor(e.latencyFloor, rttMs),
         builder := Applied(e.builder, e.flight, blobs),
         readState := Marked(e.readState, Ids(e.flight), e.requests, e.cycle),
         flight := [], phase := Draining)
  }

  /** What the head of the drain loop decides. */
  datatype Turn =
    | WindowSpent
    | NoBudget
    | CaughtUp
    | NothingSelected
    | WouldOverrun(selected: seq<CoalescedRead>, iterBudget: nat)
    | Issue(selected: seq<CoalescedRead>)

  function FrameMs(e: Engine): nat { Max(e.cfg.frameBudgetMs, 1) }

  /** The budget of this iteration; the first batch of a cycle is never refused one. */
  function IterBudget(e: Engine, elapsedMs: nat): Option<nat> {
    var fitted := BudgetForRemainingTime(e.budget, e.throughput, e.latencyFloor, elapsedMs, FrameMs(e));
    if fitted.None? && e.readsIssued == 0 then Some(e.budget) else fitted
  }

  function PendingChunks(e: Engine, iterBudget: nat): seq<CoalescedRead> {
    PendingReads(SplitReads(e.bulk, iterBudget), e.requests, e.readState, e.done)
  }

  function Batch(e: Engine, iterBudget: nat): seq<CoalescedRead> {
    Selected(PendingChunks(e, iterBudget), iterBudget, e.readState, e.cycle)
  }

  function TurnAt(e: Engine, elapsedMs: nat): Turn {
    if elapsedMs >= FrameMs(e) && e.readsIssued > 0 then WindowSpent
    else if IterBudget(e, elapsedMs).None? then NoBudget
    else
      var iterBudget := IterBudget(e, elapsedMs).value;
      var batch := Batch(e, iterBudget);
      if PendingChunks(e, iterBudget) == [] then CaughtUp
      else if batch == [] then NothingSelected
      else if e.readsIssued > 0
              && !BatchFitsRemainingTime(TotalSize(batch), e.throughput, e.latencyFloor, elapsedMs, FrameMs(e))
      then WouldOverrun(batch, iterBudget)
      else Issue(batch)
  }

  function Turned(e: Engine, elapsedMs: nat): Engine {
    match TurnAt(e, elapsedMs)
    case Issue(batch) => e.(flight := batch, flightBytes := TotalSize(batch), phase := BulkInFlight)
    case _ => e.(phase := Drained)
  }

  /** The moving average of bytes per transfer millisecond. */
  function Smoothed(throughput: Option<real>, alpha: real, bytes: nat, transferMs: nat): real
    requires transferMs >= 1
  {
    var inst := bytes as real / transferMs as real;
    if throughput.Some? then Blend(alpha, inst, throughput.value) else inst
  }

  function Blend(alpha: real, inst: real, was: real): real { alpha * inst + (1.0 - alpha) * was }

  lemma Scale(a: real, x: real, y: real)
    requires a >= 0.0 && x <= y
    ensures a * x <= a * y
  {
  }

  /** The average stays between what it was and what was just measured. */
  lemma BlendBetween(alpha: real, inst: real, was: real)
    requires 0.0 <= alpha <= 1.0
    ensures MinReal(inst, was) <= Blend(alpha, inst, was) <= MaxReal(inst, was)
  {
    var d := was - inst;
    assert Blend(alpha, inst, was) == inst + (1.0 - alpha) * d == was - alpha * d;
    if d >= 0.0 {
      Scale(1.0 - alpha, 0.0, d);
      Scale(alpha, 0.0, d);
    } else {
      Scale(1.0 - alpha, d, 0.0);
      Scale(alpha, d, 0.0);
    }
  }

  function BulkAnswered(e: Engine, reply: Reply, rttMs: nat, elapsedMs: nat): Engine {
    match reply
    case Failed =>
      e.(worstRtt := Max(e.worstRtt, rttMs), lastError := Some(BulkTier), flight := [], phase := Drained)
    case Blobs(blobs, _) =>
      var transferMs := BudgetedTransferMs(rttMs, e.latencyFloor);
      var latencyFloor := ObserveLatencyFloor(e.latencyFloor, rttMs);
      var throughput := Some(Smoothed(e.throughput, e.cfg.rttAlpha, e.flightBytes, transferMs));
      e.(latencyFloor := latencyFloor, throughput := throughput,
         budget := NextBudget(e.budget, transferMs, throughput, latencyFloor, e.cfg),
         worstRtt := Max(e.worstRtt, rttMs),
         builder := Applied(e.builder, e.flight, blobs),
         readState := Marked(e.readState, Ids(e.flight), e.requests, e.cycle),
         done := e.done + Ids(e.flight), readsIssued := e.readsIssued + 1,
         flight := [], phase := if elapsedMs + rttMs >= FrameMs(e) then Drained else Draining)
  }

  function PublishedNow(e: Engine): Engine {
    e.(published := Snapshot(e.builder, e.cycle, e.worstRtt, e.worstRtt), phase := Published)
  }

  /** Every 256 cycles the fulfilment state of watches that are gone is dropped. */
  function Finished(e: Engine): Engine {
    e.(readState := if e.cycle % 256 != 0 then e.readState
                    else (map id | id in e.readState && id in e.liveIds :: e.readState[id]),
       phase := Idle)
  }
}
