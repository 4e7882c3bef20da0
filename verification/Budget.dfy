/** The adaptive byte budget (crates/sni-cache/src/engine.rs). f32 values are reals; `as u32` is a saturating floor. */
module Budget {
  import opened Types
  import opened Coalesce

  datatype PollConfig = PollConfig(frameBudgetMs: nat, minByteBudget: nat, maxByteBudget: nat,
                                   coalesceGap: nat, rttAlpha: real, demandWindow: nat) {
    predicate Sane() { minByteBudget <= maxByteBudget <= U32_MAX }
  }

  const THROUGHPUT_HEADROOM: real := 0.8

  function CastU32(x: real): nat {
    if x < 0.0 then 0 else if x.Floor > U32_MAX then U32_MAX else x.Floor
  }

  function Clamp(x: nat, lo: nat, hi: nat): nat { if x < lo then lo else if x > hi then hi else x }

  function SatSub(a: nat, b: nat): nat { if a >= b then a - b else 0 }

  function MaxReal(a: real, b: real): real { if a < b then b else a }

  function MinReal(a: real, b: real): real { if a < b then a else b }

  function Ceil(x: real): int { -((-x).Floor) }

  /** The whole milliseconds of the fixed request latency. */
  function FixedMs(floor: Option<real>): nat { CastU32(if floor.Some? then floor.value else 0.0) }

  /** `observe_latency_floor`. */
  function ObserveLatencyFloor(floor: Option<real>, rttMs: nat): (f: Option<real>)
    ensures f.Some? && f.value <= Max(rttMs, 1) as real
    ensures floor.Some? ==> f.value <= floor.value && (f == floor || f.value == Max(rttMs, 1) as real)
    ensures floor.None? ==> f.value == Max(rttMs, 1) as real
  {
    var sample := Max(rttMs, 1) as real;
    Some(if floor.Some? then MinReal(floor.value, sample) else sample)
  }

  /** `budgeted_transfer_ms`. */
  function BudgetedTransferMs(rttMs: nat, floor: Option<real>): nat { Max(SatSub(rttMs, FixedMs(floor)), 1) }

  function TargetMs(floor: Option<real>, cfg: PollConfig): (ms: nat)
    ensures ms >= 1
  {
    Max(SatSub(cfg.frameBudgetMs, FixedMs(floor)), 1)
  }

  /** The factor an overrun cuts the budget by: half, divided by the overshoot, but never below a fifth. */
  function CutFactor(transferMs: nat, targetMs: nat): real
    requires transferMs > targetMs >= 1
  {
    var ratio := transferMs as real / targetMs as real;
    assert ratio > 0.0;
    MaxReal(0.5 / MinReal(ratio, 4.0), 0.2)
  }

  /** What an overrun cuts the budget to, before flooring and clamping. */
  function CutTo(b: nat, transferMs: nat, targetMs: nat): real
    requires transferMs > targetMs >= 1
  {
    MaxReal(b as real * CutFactor(transferMs, targetMs), 0.0)
  }

  function GrowthStep(cfg: PollConfig): real { MaxReal(cfg.maxByteBudget as real * 0.05, 256.0) }

  function GrowthCeiling(b: nat, throughput: Option<real>, cfg: PollConfig): real {
    if throughput.Some? then throughput.value * Max(cfg.frameBudgetMs, 1) as real * THROUGHPUT_HEADROOM else b as real
  }

  /** `next_budget`. */
  function NextBudget(b: nat, transferMs: nat, throughput: Option<real>, floor: Option<real>, cfg: PollConfig): nat {
    var target := TargetMs(floor, cfg);
    var next :=
      if transferMs > target then CutTo(b, transferMs, target)
      else MinReal(b as real + GrowthStep(cfg), MaxReal(GrowthCeiling(b, throughput, cfg), b as real));
    Clamp(CastU32(next), cfg.minByteBudget, cfg.maxByteBudget)
  }

  function UsableThroughput(throughput: Option<real>): Option<real> {
    if throughput.Some? && throughput.value > 0.0 then throughput else None
  }

  /** `budget_for_remaining_time`. */
  function BudgetForRemainingTime(b: nat, throughput: Option<real>, floor: Option<real>, elapsedMs: nat,
      frameMs: nat): Option<nat> {
    if elapsedMs >= frameMs then None
    else
      var remaining := frameMs - elapsedMs;
      if remaining <= FixedMs(floor) then None
      else if UsableThroughput(throughput).None? then Some(b)
      else Capped(b, CastU32(Movable(throughput.value, remaining - FixedMs(floor))))
  }

  /** What is left of the throughput, less some headroom. */
  function Movable(throughput: real, ms: nat): real { throughput * ms as real * THROUGHPUT_HEADROOM }

  function Capped(b: nat, capped: nat): Option<nat> {
    if capped == 0 then None else Some(if b < Max(capped, 1) then b else Max(capped, 1))
  }

  /** `predicted_transfer_ms`. */
  function PredictedTransferMs(bytes: nat, throughput: Option<real>): Option<nat> {
    if UsableThroughput(throughput).None? then None
    else
      var ms := Ceil(bytes as real / throughput.value);
      Some(if ms < 1 then 1 else ms)
  }

  /** `batch_fits_remaining_time`. */
  predicate BatchFitsRemainingTime(bytes: nat, throughput: Option<real>, floor: Option<real>, elapsedMs: nat,
      frameMs: nat) {
    var predicted := PredictedTransferMs(bytes, throughput);
    predicted.None? || elapsedMs + FixedMs(floor) + predicted.value <= frameMs
  }

  // ---------------------------------------------------------------------------
  // The two budget functions agree.

  lemma CeilAbove(x: real, n: int)
    ensures Ceil(x) > n <==> x > n as real
  {
  }

  lemma DivideBound(bytes: real, tp: real, bound: real)
    requires tp > 0.0
    ensures bytes / tp > bound <==> bytes > tp * bound
  {
    var q := bytes / tp;
    assert q * tp == bytes;
    if q > bound { assert q * tp > bound * tp; }
    if q <= bound { assert q * tp <= bound * tp; }
  }

  lemma CappedBelow(bytes: nat, whole: real)
    requires whole >= 0.0 && bytes <= CastU32(whole * THROUGHPUT_HEADROOM)
    ensures bytes as real <= whole
  {
    var capped := whole * THROUGHPUT_HEADROOM;
    Headroom(whole);
    CastBelow(capped);
  }

  /** Bytes below the capped throughput of the time left arrive in that time. */
  lemma CappedBytesArrive(bytes: nat, tp: real, left: nat)
    requires tp > 0.0 && left >= 1
    requires bytes <= CastU32(Movable(tp, left))
    ensures Ceil(bytes as real / tp) <= left
  {
    PositiveProduct(tp, left as real);
    CappedBelow(bytes, tp * left as real);
    DivideBound(bytes as real, tp, left as real);
    CeilAbove(bytes as real / tp, left);
  }

  /** Bytes within a budget that was cut to the time left are predicted to arrive in that time. */
  lemma AdmittedBytesFit(b: nat, bytes: nat, throughput: Option<real>, floor: Option<real>, elapsedMs: nat,
      frameMs: nat)
    requires BudgetForRemainingTime(b, throughput, floor, elapsedMs, frameMs).Some?
    requires bytes <= BudgetForRemainingTime(b, throughput, floor, elapsedMs, frameMs).value
    ensures BatchFitsRemainingTime(bytes, throughput, floor, elapsedMs, frameMs)
  {
    if UsableThroughput(throughput).Some? {
      CappedBytesArrive(bytes, throughput.value, frameMs - elapsedMs - FixedMs(floor));
    }
  }

  lemma Headroom(x: real)
    requires x >= 0.0
    ensures x * THROUGHPUT_HEADROOM <= x
  {
  }

  lemma CastBelow(x: real)
    ensures x >= 0.0 ==> CastU32(x) as real <= x
    ensures 0.0 <= x && x.Floor <= U32_MAX ==> CastU32(x) == x.Floor
  {
  }

  lemma PositiveProduct(x: real, y: real)
    requires x > 0.0 && y > 0.0
    ensures x * y > 0.0
  {
  }
}
