/** The budget controller in closed loop: a link of constant throughput answers with the transfer time
    of the budget, and `next_budget` reacts. */
module Aimd {
  import opened Types
  import opened Coalesce
  import opened Budget

  type PositiveReal = x: real | x > 0.0 witness 1.0

  /** `f` applied `n` times. */
  function Repeat(f: nat -> nat, b: nat, n: nat): nat {
    if n == 0 then b else f(Repeat(f, b, n - 1))
  }

  lemma {:induction false} RepeatFrom(f: nat -> nat, b: nat, n: nat, m: nat)
    ensures Repeat(f, Repeat(f, b, n), m) == Repeat(f, b, n + m)
  {
    var k := 0;
    while k < m
      invariant k <= m && Repeat(f, Repeat(f, b, n), k) == Repeat(f, b, n + k)
    {
      k := k + 1;
    }
  }

  /** A link moving `rate` bytes per millisecond, its latency floor, and the engine's configuration. */
  datatype Loop = Loop(rate: PositiveReal, floor: Option<real>, cfg: PollConfig) {
    predicate Ok() { cfg.Sane() }

    function Target(): (ms: nat) ensures ms >= 1 { TargetMs(floor, cfg) }

    /** The largest byte count that does not overrun. */
    function Limit(): real { rate * Target() as real }

    function Ceiling(): real { GrowthCeiling(0, Some(rate), cfg) }

    /** Where additive growth stops. */
    function Plateau(): nat {
      if CastU32(Ceiling()) < cfg.maxByteBudget then CastU32(Ceiling()) else cfg.maxByteBudget
    }

    function Increment(): nat { CastU32(GrowthStep(cfg)) }

    predicate InRange(b: nat) { cfg.minByteBudget <= b <= cfg.maxByteBudget }

    predicate Overruns(b: nat) { TransferMs(b) > Target() }

    function TransferMs(b: nat): nat {
      var ms := Ceil(b as real / rate);
      if ms < 1 then 1 else ms
    }

    function Step(b: nat): nat { NextBudget(b, TransferMs(b), Some(rate), floor, cfg) }

    function Next(): nat -> nat { b => Step(b) }

    function Iterate(b: nat, n: nat): nat { Repeat(Next(), b, n) }

    /** One increment up, to the plateau and no further. */
    function Grown(b: nat): nat {
      if b >= Plateau() then b else if b + Increment() < Plateau() then b + Increment() else Plateau()
    }

    /** A budget that does not overrun exists, and growth stops at or below it. */
    predicate Stable() { cfg.minByteBudget as real <= Limit() && Plateau() as real <= Limit() }
  }

  lemma OverrunsAbove(l: Loop, b: nat)
    requires l.Ok()
    ensures l.Overruns(b) <==> b as real > l.Limit()
  {
    DivideBound(b as real, l.rate, l.Target() as real);
    CeilAbove(b as real / l.rate, l.Target());
  }

  /** Every step stays inside the configured range, from any budget at all. */
  lemma StepInRange(l: Loop, b: nat)
    requires l.Ok()
    ensures l.InRange(l.Step(b))
  {
  }

  lemma CutFactorBounds(transferMs: nat, targetMs: nat)
    requires transferMs > targetMs >= 1
    ensures 0.2 <= CutFactor(transferMs, targetMs) <= 0.5
  {
    var ratio := transferMs as real / targetMs as real;
    DivideBound(transferMs as real, targetMs as real, 1.0);
    assert ratio > 1.0;
    HalfOver(MinReal(ratio, 4.0));
  }

  lemma HalfOver(x: real)
    requires x >= 1.0
    ensures 0.0 < 0.5 / x <= 0.5
  {
    DivideBound(0.5, x, 0.5);
    DivideBound(0.5, x, 0.0);
  }

  lemma CutToBounds(b: nat, transferMs: nat, targetMs: nat)
    requires transferMs > targetMs >= 1
    ensures b as real * 0.2 <= CutTo(b, transferMs, targetMs) <= b as real * 0.5
  {
    CutFactorBounds(transferMs, targetMs);
    ScaleBounds(b as real, CutFactor(transferMs, targetMs));
  }

  lemma ScaleBounds(b: real, f: real)
    requires b >= 0.0 && 0.2 <= f <= 0.5
    ensures b * 0.2 <= b * f <= b * 0.5
  {
  }

  lemma CutFloor(b: nat, next: real)
    requires b <= U32_MAX && b as real * 0.2 <= next <= b as real * 0.5
    ensures 2 * CastU32(next) <= b && 5 * (CastU32(next) + 1) > b
  {
    CastBelow(next);
    assert next.Floor <= b;
  }

  lemma CutAmount(l: Loop, b: nat) returns (cut: nat)
    requires l.Ok() && l.InRange(b) && l.Overruns(b)
    ensures l.Step(b) == Clamp(cut, l.cfg.minByteBudget, l.cfg.maxByteBudget)
    ensures 2 * cut <= b && 5 * (cut + 1) > b
  {
    var next := CutTo(b, l.TransferMs(b), l.Target());
    cut := CastU32(next);
    CutToBounds(b, l.TransferMs(b), l.Target());
    CutFloor(b, next);
  }

  /** An overrun at least halves the budget, down to the minimum, and keeps at least a fifth of it. */
  lemma CutHalves(l: Loop, b: nat)
    requires l.Ok() && l.InRange(b) && l.Overruns(b)
    ensures l.Step(b) == l.cfg.minByteBudget || 2 * l.Step(b) <= b
    ensures 5 * (l.Step(b) + 1) > b
  {
    var cut := CutAmount(l, b);
    ClampCut(b, cut, l.cfg.minByteBudget, l.cfg.maxByteBudget);
  }

  lemma ClampCut(b: nat, cut: nat, lo: nat, hi: nat)
    requires lo <= b <= hi && 2 * cut <= b && 5 * (cut + 1) > b
    ensures Clamp(cut, lo, hi) == lo || 2 * Clamp(cut, lo, hi) <= b
    ensures 5 * (Clamp(cut, lo, hi) + 1) > b
  {
  }

  /** Without an overrun the budget grows by one increment, up to the plateau, and never shrinks. */
  lemma GrowStep(l: Loop, b: nat)
    requires l.Ok() && l.InRange(b) && !l.Overruns(b)
    ensures l.Step(b) == l.Grown(b)
    ensures l.Increment() >= 256
  {
    var step, ceil := GrowthStep(l.cfg), l.Ceiling();
    GrowthFits(l.cfg);
    CeilingPositive(l);
    assert GrowthCeiling(b, Some(l.rate), l.cfg) == ceil;
    var next := MinReal(b as real + step, MaxReal(ceil, b as real));
    assert (b as real + step).Floor == b + step.Floor;
    assert l.Step(b) == Clamp(CastU32(next), l.cfg.minByteBudget, l.cfg.maxByteBudget);
    FloorMinMax(b, step, ceil);
  }

  lemma FloorMinMax(b: nat, step: real, ceil: real)
    requires step >= 0.0 && ceil >= 0.0
    ensures MinReal(b as real + step, MaxReal(ceil, b as real)).Floor
         == if ceil.Floor <= b then b else if b + step.Floor < ceil.Floor then b + step.Floor else ceil.Floor
  {
    assert (b as real + step).Floor == b + step.Floor;
  }

  lemma GrowthFits(cfg: PollConfig)
    requires cfg.Sane()
    ensures 256.0 <= GrowthStep(cfg) && GrowthStep(cfg).Floor <= U32_MAX
  {
  }

  lemma CeilingPositive(l: Loop)
    requires l.Ok()
    ensures l.Ceiling() > 0.0
  {
    PositiveProduct(l.rate, Max(l.cfg.frameBudgetMs, 1) as real);
  }

  // ---------------------------------------------------------------------------
  // Runs of the loop.

  /** Halvings it takes to bring `b` to zero. */
  function Halvings(b: nat): nat { if b == 0 then 0 else 1 + Halvings(b / 2) }

  lemma {:induction false} HalvingsMonotone(a: nat, b: nat)
    requires a <= b
    ensures Halvings(a) <= Halvings(b)
    decreases b
  {
    if a > 0 { HalvingsMonotone(a / 2, b / 2); }
  }

  lemma IterateInRange(l: Loop, b: nat, n: nat)
    requires l.Ok() && l.InRange(b)
    ensures l.InRange(l.Iterate(b, n))
  {
    if n > 0 { StepInRange(l, l.Iterate(b, n - 1)); }
  }

  lemma IterateNext(l: Loop, b: nat, n: nat)
    ensures l.Iterate(b, n + 1) == l.Step(l.Iterate(b, n))
  {
  }

  /** The loop is out of the overrun after at most one step per halving. */
  lemma Recovers(l: Loop, b: nat) returns (n: nat)
    requires l.Ok() && l.InRange(b) && l.cfg.minByteBudget as real <= l.Limit()
    ensures n <= Halvings(b) && !l.Overruns(l.Iterate(b, n))
    ensures forall k :: 0 <= k < n ==> l.Overruns(l.Iterate(b, k))
  {
    n := 0;
    while l.Overruns(l.Iterate(b, n))
      invariant forall k :: 0 <= k < n ==> l.Overruns(l.Iterate(b, k))
      invariant l.Overruns(l.Iterate(b, n)) ==> n + Halvings(l.Iterate(b, n)) <= Halvings(b)
      invariant n <= Halvings(b)
      decreases Halvings(b) - n
    {
      RecoverStep(l, b, n);
      n := n + 1;
    }
  }

  lemma RecoverStep(l: Loop, b: nat, n: nat)
    requires l.Ok() && l.InRange(b) && l.cfg.minByteBudget as real <= l.Limit() && l.Overruns(l.Iterate(b, n))
    ensures var x, y := l.Iterate(b, n), l.Iterate(b, n + 1);
            1 <= Halvings(x) && (l.Overruns(y) ==> Halvings(y) < Halvings(x))
  {
    var x, y := l.Iterate(b, n), l.Iterate(b, n + 1);
    IterateInRange(l, b, n);
    OverrunsAbove(l, x);
    OverrunsAbove(l, y);
    CutHalves(l, x);
    assert x > 0 by { LimitPositive(l); }
    if l.Overruns(y) { HalvingsMonotone(y, x / 2); }
  }

  lemma LimitPositive(l: Loop)
    requires l.Ok()
    ensures l.Limit() > 0.0
  {
    PositiveProduct(l.rate, l.Target() as real);
  }

  /** Where growth from `b` ends. */
  function Rest(l: Loop, b: nat): nat { Max(b, l.Plateau()) }

  function Climb(l: Loop, b: nat, n: nat): nat {
    var up := b + l.Increment() * n;
    if up < Rest(l, b) then up else Rest(l, b)
  }

  lemma ClimbOn(l: Loop, b: nat, n: nat)
    requires l.Ok() && l.InRange(b) && l.Iterate(b, n) == Climb(l, b, n) && !l.Overruns(l.Iterate(b, n))
    ensures l.Iterate(b, n + 1) == Climb(l, b, n + 1)
  {
    IterateInRange(l, b, n);
    GrowStep(l, l.Iterate(b, n));
    IterateNext(l, b, n);
    ClimbStep(l, b, n);
  }

  /** As long as no step overruns, the budget climbs in equal increments to its resting point. */
  lemma ClimbsUntil(l: Loop, b: nat, n: nat)
    requires l.Ok() && l.InRange(b)
    requires forall k :: 0 <= k < n ==> !l.Overruns(l.Iterate(b, k))
    ensures l.Iterate(b, n) == Climb(l, b, n)
  {
    ClimbStart(l, b);
    var k := 0;
    while k < n
      invariant k <= n && l.Iterate(b, k) == Climb(l, b, k)
    {
      ClimbOn(l, b, k);
      k := k + 1;
    }
  }

  lemma ClimbStart(l: Loop, b: nat)
    ensures l.Iterate(b, 0) == b == Climb(l, b, 0)
  {
  }

  lemma ClimbStep(l: Loop, b: nat, n: nat)
    requires l.Ok()
    ensures var x := Climb(l, b, n);
            Climb(l, b, n + 1) == l.Grown(x)
  {
    assert l.Increment() * (n + 1) == l.Increment() * n + l.Increment();
  }

  lemma ClimbAtRest(l: Loop, b: nat, n: nat)
    requires l.Ok() && l.InRange(b) && n > l.cfg.maxByteBudget / 256
    ensures Climb(l, b, n) == Rest(l, b)
  {
    IncrementLarge(l);
    Multiply(l.Increment(), n);
  }

  lemma IncrementLarge(l: Loop)
    requires l.Ok()
    ensures l.Increment() >= 256
  {
    GrowthFits(l.cfg);
  }

  lemma Multiply(a: nat, n: nat)
    requires a >= 256
    ensures a * n >= 256 * n
  {
  }

  /** In a stable loop a budget that does not overrun climbs to rest and never overruns again. */
  lemma {:induction false} StaysUnder(l: Loop, b: nat, n: nat)
    requires l.Ok() && l.InRange(b) && l.Stable() && !l.Overruns(b)
    ensures !l.Overruns(l.Iterate(b, n)) && l.Iterate(b, n) == Climb(l, b, n)
    decreases n
  {
    forall k | 0 <= k < n ensures !l.Overruns(l.Iterate(b, k)) { StaysUnder(l, b, k); }
    ClimbsUntil(l, b, n);
    OverrunsAbove(l, b);
    OverrunsAbove(l, l.Iterate(b, n));
  }

  lemma IterateSplit(l: Loop, b: nat, k: nat, n: nat)
    requires k <= n
    ensures l.Iterate(b, n) == l.Iterate(l.Iterate(b, k), n - k)
  {
    RepeatFrom(l.Next(), b, k, n - k);
  }

  lemma SafeAfter(l: Loop, b: nat, recovered: nat, n: nat)
    requires l.Ok() && l.InRange(b) && l.Stable() && !l.Overruns(l.Iterate(b, recovered)) && n >= recovered
    ensures !l.Overruns(l.Iterate(b, n))
  {
    IterateInRange(l, b, recovered);
    StaysUnder(l, l.Iterate(b, recovered), n - recovered);
    IterateSplit(l, b, recovered, n);
  }

  lemma RestsAfter(l: Loop, b: nat, recovered: nat, n: nat)
    requires l.Ok() && l.InRange(b) && l.Stable() && !l.Overruns(l.Iterate(b, recovered))
    requires n > recovered + l.cfg.maxByteBudget / 256
    ensures l.Iterate(b, n) == Rest(l, l.Iterate(b, recovered))
  {
    IterateInRange(l, b, recovered);
    IterateSplit(l, b, recovered, n);
    AtRest(l, l.Iterate(b, recovered), n - recovered);
  }

  lemma AtRest(l: Loop, c: nat, k: nat)
    requires l.Ok() && l.InRange(c) && l.Stable() && !l.Overruns(c) && k > l.cfg.maxByteBudget / 256
    ensures l.Iterate(c, k) == Rest(l, c)
  {
    StaysUnder(l, c, k);
    ClimbAtRest(l, c, k);
  }

  lemma GrowsAfter(l: Loop, b: nat, n: nat)
    requires l.Ok() && l.InRange(b) && !l.Overruns(l.Iterate(b, n))
    ensures l.Iterate(b, n) <= l.Iterate(b, n + 1)
  {
    IterateInRange(l, b, n);
    GrowStep(l, l.Iterate(b, n));
    IterateNext(l, b, n);
  }

  /** Convergence: from any budget in range the loop leaves the overrun within one step per halving, and
      from then on never overruns, never shrinks, and rests for good at the larger of the budget it
      recovered with and the plateau. */
  lemma Converges(l: Loop, b: nat) returns (recovered: nat)
    requires l.Ok() && l.InRange(b) && l.Stable()
    ensures recovered <= Halvings(b)
    ensures forall n: nat :: n >= recovered ==> !l.Overruns(l.Iterate(b, n)) && l.Iterate(b, n) <= l.Iterate(b, n + 1)
    ensures forall n: nat :: n > recovered + l.cfg.maxByteBudget / 256 ==>
              l.Iterate(b, n) == Rest(l, l.Iterate(b, recovered))
  {
    recovered := Recovers(l, b);
    forall n: nat | n >= recovered
      ensures !l.Overruns(l.Iterate(b, n)) && l.Iterate(b, n) <= l.Iterate(b, n + 1)
    {
      SafeAfter(l, b, recovered, n);
      GrowsAfter(l, b, n);
    }
    forall n: nat | n > recovered + l.cfg.maxByteBudget / 256
      ensures l.Iterate(b, n) == Rest(l, l.Iterate(b, recovered))
    {
      RestsAfter(l, b, recovered, n);
    }
  }

  /** An unstable loop overruns again, whatever it starts from. */
  lemma OverrunsAgain(l: Loop, b: nat) returns (n: nat)
    requires l.Ok() && l.InRange(b) && !l.Stable()
    ensures l.Overruns(l.Iterate(b, n))
  {
    n := 0;
    OverrunsAbove(l, b);
    if !l.Overruns(b) {
      n := l.cfg.maxByteBudget / 256 + 1;
      if forall k :: 0 <= k < n ==> !l.Overruns(l.Iterate(b, k)) {
        ClimbsUntil(l, b, n);
        ClimbAtRest(l, b, n);
        OverrunsAbove(l, l.Iterate(b, n));
      } else {
        n :| 0 <= n && l.Overruns(l.Iterate(b, n));
      }
    }
  }

  ghost predicate EventuallyStopsOverrunning(l: Loop, b: nat) { exists n: nat :: SafeFrom(l, b, n) }

  ghost predicate SafeFrom(l: Loop, b: nat, n: nat) {
    forall m: nat :: m >= n ==> !l.Overruns(l.Iterate(b, m))
  }

  /** Exactly when the loop settles: the minimum budget fits the transfer target, and so does the
      throughput ceiling that growth aims for (80% of the whole frame, latency included). */
  lemma SettlesIff(l: Loop, b: nat)
    requires l.Ok() && l.InRange(b)
    ensures EventuallyStopsOverrunning(l, b) <==> l.Stable()
  {
    if l.Stable() {
      StableSettles(l, b);
    } else {
      forall n: nat ensures !SafeFrom(l, b, n) { NeverSafe(l, b, n); }
    }
  }

  /** 100 bytes per millisecond with 8 ms of latency in a 16 ms frame: growth aims at 1280 bytes, but only
      800 fit the 8 ms left for the transfer. */
  const HALF_LATENCY: Loop := Loop(100.0, Some(8.0), PollConfig(16, 256, 65536, 16, 0.25, 1000))

  /** Not every link settles: whatever budget this one starts from, it overruns again and again. */
  lemma HalfFrameLatencyNeverSettles(b: nat)
    requires HALF_LATENCY.InRange(b)
    ensures !EventuallyStopsOverrunning(HALF_LATENCY, b)
  {
    assert FixedMs(Some(8.0)) == 8 && HALF_LATENCY.Target() == 8;
    assert HALF_LATENCY.Limit() == 800.0 && HALF_LATENCY.Ceiling() == 1280.0;
    SettlesIff(HALF_LATENCY, b);
  }

  lemma StableSettles(l: Loop, b: nat)
    requires l.Ok() && l.InRange(b) && l.Stable()
    ensures EventuallyStopsOverrunning(l, b)
  {
    var n := Converges(l, b);
    assert SafeFrom(l, b, n);
  }

  lemma NeverSafe(l: Loop, b: nat, n: nat)
    requires l.Ok() && l.InRange(b) && !l.Stable()
    ensures !SafeFrom(l, b, n)
  {
    IterateInRange(l, b, n);
    var m := OverrunsAgain(l, l.Iterate(b, n));
    RepeatFrom(l.Next(), b, n, m);
    assert l.Overruns(l.Iterate(b, n + m));
  }

  /** A link whose latency floor takes at most a fifth of the frame, and moves the minimum budget in
      the rest of it, is stable. */
  lemma LowLatencyStable(l: Loop)
    requires l.Ok() && l.cfg.frameBudgetMs >= 1 && 5 * FixedMs(l.floor) <= l.cfg.frameBudgetMs
    requires l.cfg.minByteBudget as real <= l.rate * (l.cfg.frameBudgetMs - FixedMs(l.floor)) as real
    ensures l.Stable()
  {
    var left := l.cfg.frameBudgetMs - FixedMs(l.floor);
    assert l.Target() == left;
    ScaleUp(l.rate, l.cfg.frameBudgetMs as real, left as real);
    PlateauUnder(l);
  }

  lemma PlateauUnder(l: Loop)
    requires l.Ok() && l.Ceiling() <= l.Limit()
    ensures l.Plateau() as real <= l.Limit()
  {
    CeilingPositive(l);
    CastBelow(l.Ceiling());
  }

  lemma ScaleUp(rate: real, x: real, y: real)
    requires rate > 0.0 && x * 0.8 <= y
    ensures rate * x * 0.8 <= rate * y
  {
    var slack := y - x * 0.8;
    assert rate * slack >= 0.0;
    assert rate * y == rate * (x * 0.8) + rate * slack;
  }
}
