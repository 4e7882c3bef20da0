/** The budget functions in plain arithmetic, and the engine's batches against the controller's closed loop. */
module BudgetLaws {
  import opened Types
  import opened Coalesce
  import opened Budget
  import opened Aimd
  import opened Snapshots
  import opened Cycle

  // ---------------------------------------------------------------------------
  // Quotients.

  lemma FloorIs(x: real, n: int)
    requires n as real <= x < (n + 1) as real
    ensures x.Floor == n
  {
  }

  lemma FloorDiv(x: nat, y: nat)
    requires y >= 1
    ensures (x as real / y as real).Floor == x / y
  {
    var q := x as real / y as real;
    assert x == x / y * y + x % y;
    assert q * y as real == x as real;
    Quotient(q, x, y, x / y);
    FloorIs(q, x / y);
  }

  lemma Quotient(q: real, x: nat, y: nat, n: nat)
    requires y >= 1 && q * y as real == x as real && n * y <= x < n * y + y
    ensures n as real <= q < (n + 1) as real
  {
    RealProduct(n, y);
    RealProduct(n + 1, y);
    assert (n + 1) * y == n * y + y;
    Cancels(n as real, q, y as real);
    CancelsStrictly(q, (n + 1) as real, y as real);
  }

  lemma RealProduct(n: nat, y: nat)
    ensures (n * y) as real == n as real * y as real
  {
  }

  lemma Cancels(a: real, b: real, c: real)
    requires c > 0.0 && a * c <= b * c
    ensures a <= b
  {
    assert (a - b) * c == a * c - b * c;
    if a > b { PositiveProduct(a - b, c); }
  }

  lemma CancelsStrictly(a: real, b: real, c: real)
    requires c > 0.0 && a * c < b * c
    ensures a < b
  {
    assert (a - b) * c == a * c - b * c;
    if a > b { PositiveProduct(a - b, c); }
  }

  // ---------------------------------------------------------------------------
  // The cut.

  /** The overshoot divides the half. */
  lemma CutFactorIs(transferMs: nat, targetMs: nat)
    requires transferMs > targetMs >= 1
    ensures CutFactor(transferMs, targetMs)
         == if 2 * transferMs <= 5 * targetMs then targetMs as real / (2 * transferMs) as real else 0.2
  {
    var t, u := transferMs as real, targetMs as real;
    var ratio := t / u;
    assert ratio * u == t;
    if 2 * transferMs <= 5 * targetMs {
      RatioAtMost(ratio, t, u, 2.5);
      HalfOverRatio(ratio, t, u);
      FifthAtMost(t, u);
    } else {
      RatioAbove(ratio, t, u, 2.5);
      HalfOverLarge(MinReal(ratio, 4.0));
    }
  }

  lemma RatioAtMost(ratio: real, t: real, u: real, k: real)
    requires u > 0.0 && ratio * u == t && t <= k * u
    ensures ratio <= k
  {
    Cancels(ratio, k, u);
  }

  lemma RatioAbove(ratio: real, t: real, u: real, k: real)
    requires u > 0.0 && ratio * u == t && t > k * u
    ensures ratio > k
  {
    CancelsStrictly(k, ratio, u);
  }

  lemma HalfOverRatio(ratio: real, t: real, u: real)
    requires u > 0.0 && t > 0.0 && ratio > 0.0 && ratio * u == t
    ensures 0.5 / ratio == u / (2.0 * t)
  {
    var x, y := 0.5 / ratio, u / (2.0 * t);
    assert x * ratio == 0.5 && y * (2.0 * t) == u;
    assert x * t == x * (ratio * u) == 0.5 * u;
    assert y * t == 0.5 * u;
    SameProduct(x, y, t);
  }

  lemma SameProduct(x: real, y: real, t: real)
    requires t > 0.0 && x * t == y * t
    ensures x == y
  {
    Cancels(x, y, t);
    Cancels(y, x, t);
  }

  lemma FifthAtMost(t: real, u: real)
    requires t > 0.0 && 2.0 * t <= 5.0 * u
    ensures 0.2 <= u / (2.0 * t)
  {
    var y := u / (2.0 * t);
    assert y * (2.0 * t) == u;
    Cancels(0.2, y, 2.0 * t);
  }

  lemma HalfOverLarge(x: real)
    requires x > 2.5
    ensures 0.5 / x <= 0.2
  {
    var y := 0.5 / x;
    assert y * x == 0.5;
    Cancels(y, 0.2, x);
  }

  lemma CutBytes(b: nat, t: nat, u: nat)
    requires t >= 1
    ensures b as real * (u as real / (2 * t) as real) == (b * u) as real / (2 * t) as real
  {
    var q, p, d := u as real / (2 * t) as real, (b * u) as real / (2 * t) as real, (2 * t) as real;
    assert q * d == u as real && p * d == (b * u) as real;
    assert (b as real * q) * d == b as real * (q * d) == b as real * u as real == (b * u) as real;
    SameProduct(b as real * q, p, d);
  }

  /** An overrun to `transferMs` against `targetMs` cuts the budget in half and by the overshoot, down to a fifth:
      to the floor of b * target / (2 * transfer) as long as 2 * transfer <= 5 * target, else to that of b / 5. */
  lemma CutExact(b: nat, transferMs: nat, targetMs: nat)
    requires transferMs > targetMs >= 1 && b <= U32_MAX
    ensures CastU32(CutTo(b, transferMs, targetMs))
         == if 2 * transferMs <= 5 * targetMs then b * targetMs / (2 * transferMs) else b / 5
  {
    CutToIs(b, transferMs, targetMs);
    CutToBounds(b, transferMs, targetMs);
    CutFloor(b, CutTo(b, transferMs, targetMs));
    CastBelow(CutTo(b, transferMs, targetMs));
  }

  lemma CutToIs(b: nat, transferMs: nat, targetMs: nat)
    requires transferMs > targetMs >= 1
    ensures CutTo(b, transferMs, targetMs).Floor
         == if 2 * transferMs <= 5 * targetMs then b * targetMs / (2 * transferMs) else b / 5
    ensures CutTo(b, transferMs, targetMs) >= 0.0
  {
    CutFactorIs(transferMs, targetMs);
    CutToBounds(b, transferMs, targetMs);
    if 2 * transferMs <= 5 * targetMs {
      CutBytes(b, transferMs, targetMs);
      FloorDiv(b * targetMs, 2 * transferMs);
    } else {
      FloorDiv(b, 5);
      assert b as real * 0.2 == b as real / 5.0;
    }
  }

  // ---------------------------------------------------------------------------
  // What a batch does to the budget.

  /** The whole milliseconds of the request latency, in 32 bits. */
  function WholeFloor(floor: Option<real>): int {
    if floor.None? || floor.value < 0.0 then 0
    else if floor.value >= U32_MAX as real then U32_MAX
    else floor.value.Floor
  }

  lemma FloorIsWhole(floor: Option<real>)
    ensures FixedMs(floor) == WholeFloor(floor) >= 0
  {
  }

  /** What the fixed latency does not explain of a round trip is transfer, and at least a millisecond. */
  lemma TransferExact(rttMs: nat, floor: Option<real>)
    ensures var transfer := BudgetedTransferMs(rttMs, floor);
            if rttMs > WholeFloor(floor) then transfer + WholeFloor(floor) == rttMs else transfer == 1
  {
    FloorIsWhole(floor);
  }

  /** The frame less the fixed latency, and at least a millisecond. */
  function TransferTarget(frameMs: nat, floor: Option<real>): (t: int)
    ensures t >= 1
  {
    if frameMs > WholeFloor(floor) + 1 then frameMs - WholeFloor(floor) else 1
  }

  lemma TargetIs(floor: Option<real>, cfg: PollConfig)
    ensures TargetMs(floor, cfg) == TransferTarget(cfg.frameBudgetMs, floor)
  {
    FloorIsWhole(floor);
  }

  /** A twentieth of the largest budget, and at least 256 bytes. */
  lemma IncrementIs(cfg: PollConfig)
    requires cfg.Sane()
    ensures GrowthStep(cfg).Floor == Max(256, cfg.maxByteBudget / 20)
    ensures GrowthStep(cfg) >= 0.0
  {
    FloorDiv(cfg.maxByteBudget, 20);
    assert cfg.maxByteBudget as real * 0.05 == cfg.maxByteBudget as real / 20.0;
  }

  /** 80% of what a link moves in a frame. */
  function CeilingBytes(rate: real, frameMs: nat): real { rate * Max(frameMs, 1) as real * 0.8 }

  function Least(a: int, b: int): int { if a < b then a else b }

  /** Growth by one increment, to the ceiling and to the largest budget, and never down. */
  function Grown(b: nat, ceiling: int, cfg: PollConfig): int {
    if ceiling <= b then b else Least(Least(b + Max(256, cfg.maxByteBudget / 20), ceiling), cfg.maxByteBudget)
  }

  /** The cut by the overshoot: half, times the target over the transfer, but not below a fifth. */
  function CutDown(b: nat, transferMs: nat, target: nat): nat
    requires transferMs >= 1
  {
    if 2 * transferMs <= 5 * target then b * target / (2 * transferMs) else b / 5
  }

  lemma CutBudget(b: nat, transferMs: nat, throughput: Option<real>, floor: Option<real>, cfg: PollConfig)
    requires cfg.Sane() && cfg.minByteBudget <= b <= cfg.maxByteBudget
    requires transferMs > TransferTarget(cfg.frameBudgetMs, floor)
    ensures NextBudget(b, transferMs, throughput, floor, cfg)
         == Max(cfg.minByteBudget, CutDown(b, transferMs, TransferTarget(cfg.frameBudgetMs, floor)))
  {
    TargetIs(floor, cfg);
    CutExact(b, transferMs, TargetMs(floor, cfg));
    CutToBounds(b, transferMs, TargetMs(floor, cfg));
    CutFloor(b, CutTo(b, transferMs, TargetMs(floor, cfg)));
  }

  lemma GrowTo(b: nat, step: real, ceiling: real, cfg: PollConfig)
    requires cfg.Sane() && cfg.minByteBudget <= b <= cfg.maxByteBudget
    requires step >= 0.0 && ceiling >= 0.0 && step.Floor == Max(256, cfg.maxByteBudget / 20)
    ensures Clamp(CastU32(MinReal(b as real + step, MaxReal(ceiling, b as real))), cfg.minByteBudget, cfg.maxByteBudget)
         == Grown(b, ceiling.Floor, cfg)
  {
    FloorMinMax(b, step, ceiling);
  }

  lemma GrowBudget(b: nat, transferMs: nat, rate: real, floor: Option<real>, cfg: PollConfig)
    requires cfg.Sane() && cfg.minByteBudget <= b <= cfg.maxByteBudget && rate > 0.0
    requires transferMs <= TransferTarget(cfg.frameBudgetMs, floor)
    ensures NextBudget(b, transferMs, Some(rate), floor, cfg)
         == Grown(b, CeilingBytes(rate, cfg.frameBudgetMs).Floor, cfg)
  {
    TargetIs(floor, cfg);
    IncrementIs(cfg);
    NextGrows(b, transferMs, Some(rate), floor, cfg);
    CeilingIs(b, rate, cfg);
    GrowTo(b, GrowthStep(cfg), GrowthCeiling(b, Some(rate), cfg), cfg);
  }

  lemma CeilingIs(b: nat, rate: real, cfg: PollConfig)
    requires rate > 0.0
    ensures GrowthCeiling(b, Some(rate), cfg) == CeilingBytes(rate, cfg.frameBudgetMs) > 0.0
  {
    PositiveProduct(rate, Max(cfg.frameBudgetMs, 1) as real);
  }

  lemma NextGrows(b: nat, transferMs: nat, throughput: Option<real>, floor: Option<real>, cfg: PollConfig)
    requires transferMs <= TargetMs(floor, cfg)
    ensures var next := MinReal(b as real + GrowthStep(cfg), MaxReal(GrowthCeiling(b, throughput, cfg), b as real));
            NextBudget(b, transferMs, throughput, floor, cfg)
            == Clamp(CastU32(next), cfg.minByteBudget, cfg.maxByteBudget)
  {
  }

  /** The next budget: cut by the overshoot, or grown. */
  function Moved(b: nat, transferMs: nat, rate: real, floor: Option<real>, cfg: PollConfig): int
    requires transferMs >= 1
  {
    var target := TransferTarget(cfg.frameBudgetMs, floor);
    if transferMs > target then Max(cfg.minByteBudget, CutDown(b, transferMs, target))
    else Grown(b, CeilingBytes(rate, cfg.frameBudgetMs).Floor, cfg)
  }

  lemma NextBudgetExact(b: nat, transferMs: nat, rate: real, floor: Option<real>, cfg: PollConfig)
    requires cfg.Sane() && cfg.minByteBudget <= b <= cfg.maxByteBudget && rate > 0.0
    requires transferMs >= 1
    ensures NextBudget(b, transferMs, Some(rate), floor, cfg) == Moved(b, transferMs, rate, floor, cfg)
  {
    if transferMs > TransferTarget(cfg.frameBudgetMs, floor) { CutBudget(b, transferMs, Some(rate), floor, cfg); }
    else { GrowBudget(b, transferMs, rate, floor, cfg); }
  }

  /** What a round trip was, less the latency known before it, and at least a millisecond. */
  function TransferOf(rttMs: nat, floor: Option<real>): (ms: int)
    ensures ms >= 1
  {
    if rttMs > WholeFloor(floor) + 1 then rttMs - WholeFloor(floor) else 1
  }

  /** The throughput one batch showed. */
  function Shown(bytes: nat, transferMs: nat): real
    requires transferMs >= 1
  {
    bytes as real / transferMs as real
  }

  /** After a batch: the latency is the least observed, the throughput keeps a fixed share of its distance from
      what the batch showed, and with these the budget is cut or grown. */
  lemma BatchMovesBudget(e: Engine, blobs: seq<seq<Byte>>, at: seq<nat>, rttMs: nat, later: nat)
    requires e.cfg.Sane() && e.cfg.minByteBudget <= e.budget <= e.cfg.maxByteBudget
    requires rttMs >= 1
    ensures var t := BulkAnswered(e, Blobs(blobs, at), rttMs, later);
            var transfer := TransferOf(rttMs, e.latencyFloor);
            var shown := Shown(e.flightBytes, transfer);
            && t.throughput.Some? && t.latencyFloor.Some?
            && (e.throughput.None? ==> t.throughput.value == shown)
            && (e.throughput.Some? ==>
                  t.throughput.value - shown == (1.0 - e.cfg.rttAlpha) * (e.throughput.value - shown))
            && (if e.latencyFloor.None? || rttMs as real <= e.latencyFloor.value
                then t.latencyFloor.value == rttMs as real else t.latencyFloor == e.latencyFloor)
            && (t.throughput.value > 0.0 ==>
                  t.budget == Moved(e.budget, transfer, t.throughput.value, t.latencyFloor, e.cfg))
  {
    var t := BulkAnswered(e, Blobs(blobs, at), rttMs, later);
    var transfer := BudgetedTransferMs(rttMs, e.latencyFloor);
    BatchShape(e, blobs, at, rttMs, later);
    TransferIs(rttMs, e.latencyFloor);
    LeastLatency(e.latencyFloor, rttMs);
    SmoothedShare(e.throughput, e.cfg.rttAlpha, e.flightBytes, transfer);
    MovedBy(e, t, transfer);
  }

  lemma TransferIs(rttMs: nat, floor: Option<real>)
    ensures BudgetedTransferMs(rttMs, floor) == TransferOf(rttMs, floor)
  {
    TransferExact(rttMs, floor);
  }

  lemma LeastLatency(floor: Option<real>, rttMs: nat)
    requires rttMs >= 1
    ensures var f := ObserveLatencyFloor(floor, rttMs);
            && f.Some?
            && if floor.None? || rttMs as real <= floor.value then f.value == rttMs as real else f == floor
  {
  }

  lemma MovedBy(e: Engine, t: Engine, transfer: nat)
    requires e.cfg.Sane() && e.cfg.minByteBudget <= e.budget <= e.cfg.maxByteBudget && transfer >= 1
    requires t.throughput.Some?
    requires t.budget == NextBudget(e.budget, transfer, t.throughput, t.latencyFloor, e.cfg)
    ensures t.throughput.value > 0.0 ==>
              t.budget == Moved(e.budget, transfer, t.throughput.value, t.latencyFloor, e.cfg)
  {
    if t.throughput.value > 0.0 { NextBudgetExact(e.budget, transfer, t.throughput.value, t.latencyFloor, e.cfg); }
  }

  lemma BatchShape(e: Engine, blobs: seq<seq<Byte>>, at: seq<nat>, rttMs: nat, later: nat)
    ensures var t := BulkAnswered(e, Blobs(blobs, at), rttMs, later);
            var transfer := BudgetedTransferMs(rttMs, e.latencyFloor);
            && t.latencyFloor == ObserveLatencyFloor(e.latencyFloor, rttMs)
            && t.throughput == Some(Smoothed(e.throughput, e.cfg.rttAlpha, e.flightBytes, transfer))
            && t.budget == NextBudget(e.budget, transfer, t.throughput, t.latencyFloor, e.cfg)
  {
  }

  lemma SmoothedShare(throughput: Option<real>, alpha: real, bytes: nat, transferMs: nat)
    requires transferMs >= 1
    ensures var shown := Shown(bytes, transferMs);
            var s := Smoothed(throughput, alpha, bytes, transferMs);
            if throughput.None? then s == shown else s - shown == (1.0 - alpha) * (throughput.value - shown)
  {
    if throughput.Some? {
      var shown, was := Shown(bytes, transferMs), throughput.value;
      assert Blend(alpha, shown, was) - shown == (1.0 - alpha) * (was - shown);
    }
  }

  // ---------------------------------------------------------------------------
  // The engine on a link.

  /** A batch over the link `l`, whose latency the engine knows: the fixed latency, and the whole milliseconds its
      bytes take. */
  predicate OverLink(e: Engine, l: Loop, rttMs: nat) {
    && l.cfg == e.cfg && e.cfg.Sane() && e.latencyFloor == l.floor
    && l.floor.Some? && l.floor.value == l.floor.value.Floor as real && 0.0 <= l.floor.value
    && l.floor.value <= U32_MAX as real && rttMs == l.floor.value.Floor + l.TransferMs(e.flightBytes)
  }

  lemma LinkTransfer(e: Engine, l: Loop, rttMs: nat)
    requires OverLink(e, l, rttMs)
    ensures BudgetedTransferMs(rttMs, e.latencyFloor) == l.TransferMs(e.flightBytes)
    ensures ObserveLatencyFloor(e.latencyFloor, rttMs) == l.floor
  {
    TransferExact(rttMs, e.latencyFloor);
  }

  /** Rounding up to whole milliseconds never shows more than the link moves. */
  lemma ShownBelowRate(l: Loop, bytes: nat)
    ensures Shown(bytes, l.TransferMs(bytes)) <= l.rate
    ensures bytes as real == l.rate * l.TransferMs(bytes) as real ==> Shown(bytes, l.TransferMs(bytes)) == l.rate
  {
    var ms := l.TransferMs(bytes);
    var shown := Shown(bytes, ms);
    assert shown * ms as real == bytes as real;
    DivideBound(bytes as real, l.rate, ms as real);
    CeilAbove(bytes as real / l.rate, ms);
    Cancels(shown, l.rate, ms as real);
    if bytes as real == l.rate * ms as real { SameProduct(shown, l.rate, ms as real); }
  }

  /** The batch fills its milliseconds, and the throughput is known or unknown, but not wrong. */
  predicate Exactly(e: Engine, l: Loop) {
    && e.flightBytes as real == l.rate * l.TransferMs(e.flightBytes) as real
    && (e.throughput.None? || e.throughput.value == l.rate)
  }

  lemma LinkThroughput(e: Engine, l: Loop)
    requires 0.0 <= e.cfg.rttAlpha <= 1.0 && (e.throughput.Some? ==> e.throughput.value <= l.rate)
    ensures var s := Smoothed(e.throughput, e.cfg.rttAlpha, e.flightBytes, l.TransferMs(e.flightBytes));
            s <= l.rate && (Exactly(e, l) ==> s == l.rate)
  {
    var shown := Shown(e.flightBytes, l.TransferMs(e.flightBytes));
    ShownBelowRate(l, e.flightBytes);
    SmoothedShare(e.throughput, e.cfg.rttAlpha, e.flightBytes, l.TransferMs(e.flightBytes));
    if e.throughput.Some? { BlendBetween(e.cfg.rttAlpha, shown, e.throughput.value); }
  }

  /** On a link the engine is the closed loop: it never believes the link faster than it is; a batch as large as the
      budget that overruns is cut exactly as the loop cuts, one that does not lets the budget grow no further
      than in the loop; and where the batch fills its milliseconds and the throughput is known, the budget
      moves exactly as in the loop. */
  lemma EngineIsLoop(e: Engine, l: Loop, blobs: seq<seq<Byte>>, at: seq<nat>, rttMs: nat, later: nat)
    requires OverLink(e, l, rttMs) && 0.0 <= e.cfg.rttAlpha <= 1.0
    requires e.throughput.Some? ==> e.throughput.value <= l.rate
    ensures var t := BulkAnswered(e, Blobs(blobs, at), rttMs, later);
            && t.latencyFloor == l.floor && t.throughput.Some? && t.throughput.value <= l.rate
            && (Exactly(e, l) ==> t.throughput.value == l.rate)
            && (e.flightBytes == e.budget ==>
                  && t.budget <= l.Step(e.budget)
                  && (l.Overruns(e.budget) || Exactly(e, l) ==> t.budget == l.Step(e.budget)))
  {
    BatchShape(e, blobs, at, rttMs, later);
    LinkTransfer(e, l, rttMs);
    LinkThroughput(e, l);
    var s := Smoothed(e.throughput, e.cfg.rttAlpha, e.flightBytes, l.TransferMs(e.flightBytes));
    SlowerGrowsLess(e.budget, l.TransferMs(e.flightBytes), s, l.rate, l.floor, l.cfg);
  }

  lemma SlowerGrowsLess(b: nat, transferMs: nat, slow: real, fast: real, floor: Option<real>, cfg: PollConfig)
    requires slow <= fast && cfg.Sane()
    ensures NextBudget(b, transferMs, Some(slow), floor, cfg) <= NextBudget(b, transferMs, Some(fast), floor, cfg)
    ensures transferMs > TargetMs(floor, cfg) ==>
              NextBudget(b, transferMs, Some(slow), floor, cfg) == NextBudget(b, transferMs, Some(fast), floor, cfg)
  {
    if transferMs <= TargetMs(floor, cfg) {
      LowerCeiling(b, slow, fast, cfg);
      LowerClamp(b, GrowthStep(cfg), GrowthCeiling(b, Some(slow), cfg), GrowthCeiling(b, Some(fast), cfg), cfg);
    }
  }

  lemma LowerCeiling(b: nat, slow: real, fast: real, cfg: PollConfig)
    requires slow <= fast
    ensures GrowthCeiling(b, Some(slow), cfg) <= GrowthCeiling(b, Some(fast), cfg)
  {
    Scale(Max(cfg.frameBudgetMs, 1) as real, slow, fast);
  }

  lemma LowerClamp(b: nat, step: real, low: real, high: real, cfg: PollConfig)
    requires low <= high && cfg.Sane()
    ensures Clamp(CastU32(MinReal(b as real + step, MaxReal(low, b as real))), cfg.minByteBudget, cfg.maxByteBudget)
         <= Clamp(CastU32(MinReal(b as real + step, MaxReal(high, b as real))), cfg.minByteBudget, cfg.maxByteBudget)
  {
  }

  // ---------------------------------------------------------------------------
  // The time left.

  predicate Known(throughput: Option<real>) { throughput.Some? && throughput.value > 0.0 }

  /** Milliseconds left for a transfer. */
  function TimeLeft(floor: Option<real>, elapsedMs: nat, frameMs: nat): int { frameMs - elapsedMs - WholeFloor(floor) }

  lemma CappedExact(b: nat, x: real)
    requires x > 0.0
    ensures var r := Capped(b, CastU32(x));
            && (r.None? <==> x < 1.0)
            && (r.Some? && b <= U32_MAX ==>
                  r.value <= b && r.value as real <= x && (r.value == b || x < (r.value + 1) as real))
  {
  }

  /** 80% of what the throughput moves in the time left. */
  function Share(throughput: real, left: int): real { throughput * left as real * 0.8 }

  lemma ShareIs(throughput: real, left: nat)
    ensures Movable(throughput, left) == Share(throughput, left)
    ensures throughput > 0.0 && left > 0 ==> Share(throughput, left) > 0.0
  {
    if throughput > 0.0 && left > 0 { PositiveProduct(throughput, left as real); }
  }

  lemma RemainingUnknown(b: nat, throughput: Option<real>, floor: Option<real>, elapsedMs: nat, frameMs: nat)
    requires (TimeLeft(floor, elapsedMs, frameMs) <= 0 || !Known(throughput))
    ensures BudgetForRemainingTime(b, throughput, floor, elapsedMs, frameMs)
         == if TimeLeft(floor, elapsedMs, frameMs) <= 0 then None else Some(b)
  {
    FloorIsWhole(floor);
  }

  lemma RemainingKnown(b: nat, throughput: Option<real>, floor: Option<real>, elapsedMs: nat, frameMs: nat)
    requires Known(throughput) && TimeLeft(floor, elapsedMs, frameMs) > 0
    ensures BudgetForRemainingTime(b, throughput, floor, elapsedMs, frameMs)
         == Capped(b, CastU32(Movable(throughput.value, TimeLeft(floor, elapsedMs, frameMs))))
  {
    FloorIsWhole(floor);
  }

  lemma RemainingShare(b: nat, throughput: Option<real>, floor: Option<real>, elapsedMs: nat, frameMs: nat)
    requires Known(throughput) && TimeLeft(floor, elapsedMs, frameMs) > 0
    ensures BudgetForRemainingTime(b, throughput, floor, elapsedMs, frameMs)
         == Capped(b, CastU32(Share(throughput.value, TimeLeft(floor, elapsedMs, frameMs))))
  {
    RemainingKnown(b, throughput, floor, elapsedMs, frameMs);
    ShareIs(throughput.value, TimeLeft(floor, elapsedMs, frameMs));
  }

  /** The budget for the time left is what is asked for, or the most whole bytes that 80% of the throughput moves in
      it; there is none exactly when no time is left or not one byte fits. */
  lemma RemainingExact(b: nat, throughput: Option<real>, floor: Option<real>, elapsedMs: nat, frameMs: nat)
    ensures var r := BudgetForRemainingTime(b, throughput, floor, elapsedMs, frameMs);
            var left := TimeLeft(floor, elapsedMs, frameMs);
            && (r.None? <==> left <= 0 || (Known(throughput) && Share(throughput.value, left) < 1.0))
            && (r.Some? && !Known(throughput) ==> r.value == b)
            && (r.Some? && Known(throughput) && b <= U32_MAX ==>
                  && r.value <= b && r.value as real <= Share(throughput.value, left)
                  && (r.value == b || Share(throughput.value, left) < (r.value + 1) as real))
  {
    var left := TimeLeft(floor, elapsedMs, frameMs);
    if left > 0 && Known(throughput) {
      RemainingShare(b, throughput, floor, elapsedMs, frameMs);
      ShareIs(throughput.value, left);
      CappedExact(b, Share(throughput.value, left));
    } else {
      RemainingUnknown(b, throughput, floor, elapsedMs, frameMs);
    }
  }

  /** A batch passes the time check exactly when the throughput moves it in the time left. */
  lemma FitsExact(bytes: nat, throughput: Option<real>, floor: Option<real>, elapsedMs: nat, frameMs: nat)
    ensures var left := TimeLeft(floor, elapsedMs, frameMs);
            BatchFitsRemainingTime(bytes, throughput, floor, elapsedMs, frameMs)
            <==> (Known(throughput) ==> left >= 1 && bytes as real <= throughput.value * left as real)
  {
    FloorIsWhole(floor);
    var left := TimeLeft(floor, elapsedMs, frameMs);
    if Known(throughput) {
      DivideBound(bytes as real, throughput.value, left as real);
      CeilAbove(bytes as real / throughput.value, left);
    }
  }
}
