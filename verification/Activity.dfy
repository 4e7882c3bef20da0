/** Demand: what a script asks for is polled for the length of the window, and no longer. */
module Activity {
  import opened Types
  import opened Budget
  import opened Registry
  import opened Cycle
  import opened System
  import opened Invariant
  import opened EngineSteps
  import opened Properties

  /** The step asks for the watch: registers it, touches it, pins it or upgrades it. */
  predicate Asks(s: Sys, step: Step, id: WatchId) {
    match step
    case Register(_, _, _) => s.reg.nextId == id
    case Touch(i, _) => i == id
    case Pin(i, _) => i == id
    case Upgrade(i, _, _) => i == id
    case _ => false
  }

  /** Every later request for the watch carries a clock no earlier than `c`. */
  predicate ClockMovesOn(s: Sys, steps: seq<Step>, id: WatchId, c: nat)
    decreases |steps|
  {
    steps == []
    || ((Asks(s, steps[0], id) ==> steps[0].clock >= c) && ClockMovesOn(Apply(s, steps[0]), steps[1..], id, c))
  }

  predicate TouchedFrom(s: Sys, id: WatchId, c: nat) { id in s.reg.entries ==> s.reg.entries[id].lastTouch >= c }

  lemma AskTouches(s: Sys, step: Step, id: WatchId)
    requires Asks(s, step, id)
    ensures id in Apply(s, step).reg.entries ==> Apply(s, step).reg.entries[id].lastTouch == step.clock
  {
  }

  lemma OtherKeepsEntry(dev: Device, s: Sys, step: Step, id: WatchId)
    requires RegOk(s) && Enabled(dev, s, step) && !Asks(s, step, id) && id in Apply(s, step).reg.entries
    ensures id in s.reg.entries && Apply(s, step).reg.entries[id] == s.reg.entries[id]
  {
  }

  lemma TouchedStep(dev: Device, s: Sys, step: Step, id: WatchId, c: nat)
    requires RegOk(s) && Enabled(dev, s, step) && TouchedFrom(s, id, c) && (Asks(s, step, id) ==> step.clock >= c)
    ensures TouchedFrom(Apply(s, step), id, c)
  {
    if Asks(s, step, id) { AskTouches(s, step, id); }
    else if id in Apply(s, step).reg.entries { OtherKeepsEntry(dev, s, step, id); }
  }

  lemma {:induction false} TouchedRun(dev: Device, s: Sys, steps: seq<Step>, id: WatchId, c: nat)
    requires Inv(dev, s) && ValidRun(dev, s, steps) && TouchedFrom(s, id, c) && ClockMovesOn(s, steps, id, c)
    ensures TouchedFrom(Run(s, steps), id, c)
    decreases |steps|
  {
    if steps != [] {
      TouchedStep(dev, s, steps[0], id, c);
      StepKeepsInv(dev, s, steps[0]);
      TouchedRun(dev, Apply(s, steps[0]), steps[1..], id, c);
    }
  }

  /** A watch that was asked for at clock `c` and is still registered is in the poll set of every later capture less
      than a window after `c`, whatever else the script does, as long as clocks do not run backwards. */
  lemma AskedIsPolled(dev: Device, s: Sys, ask: Step, id: WatchId, steps: seq<Step>, now: nat)
    requires Reachable(dev, s) && Enabled(dev, s, ask) && Asks(s, ask, id)
    requires ValidRun(dev, Apply(s, ask), steps) && ClockMovesOn(Apply(s, ask), steps, id, ask.clock)
    requires var t := Run(Apply(s, ask), steps);
             id in t.reg.entries && now < ask.clock + t.eng.cfg.demandWindow && t.eng.cfg.demandWindow > 0
    ensures id in Apply(Run(Apply(s, ask), steps), Capture(now)).eng.requests
  {
    ReachableInv(dev, s);
    AskTouches(s, ask, id);
    StepKeepsInv(dev, s, ask);
    TouchedRun(dev, Apply(s, ask), steps, id, ask.clock);
    RunKeepsInv(dev, Apply(s, ask), steps);
    PolledInWindow(Run(Apply(s, ask), steps), id, ask.clock, now);
  }

  lemma PolledInWindow(t: Sys, id: WatchId, c: nat, now: nat)
    requires RegOk(t) && TouchedFrom(t, id, c) && id in t.reg.entries
    requires now < c + t.eng.cfg.demandWindow && t.eng.cfg.demandWindow > 0
    ensures id in Apply(t, Capture(now)).eng.requests
  {
    CaptureExact(t, now, id);
  }

  // ---------------------------------------------------------------------------
  // Dormancy.

  predicate NeverPins(steps: seq<Step>, id: WatchId) {
    forall i :: 0 <= i < |steps| ==> !((steps[i].Pin? || steps[i].Upgrade?) && steps[i].id == id)
  }

  /** Nothing in the run asks for the watch. */
  predicate Silent(s: Sys, steps: seq<Step>, id: WatchId)
    decreases |steps|
  {
    steps == [] || (!Asks(s, steps[0], id) && Silent(Apply(s, steps[0]), steps[1..], id))
  }

  predicate Unpinned(s: Sys, id: WatchId) { id in s.reg.entries ==> !s.reg.entries[id].pinned }

  lemma UnpinnedStep(dev: Device, s: Sys, step: Step, id: WatchId)
    requires RegOk(s) && Enabled(dev, s, step) && Unpinned(s, id)
    requires !((step.Pin? || step.Upgrade?) && step.id == id)
    ensures Unpinned(Apply(s, step), id)
  {
    if !Asks(s, step, id) && id in Apply(s, step).reg.entries { OtherKeepsEntry(dev, s, step, id); }
  }

  lemma {:induction false} UnpinnedRun(dev: Device, s: Sys, steps: seq<Step>, id: WatchId)
    requires Inv(dev, s) && ValidRun(dev, s, steps) && Unpinned(s, id) && NeverPins(steps, id)
    ensures Inv(dev, Run(s, steps)) && Unpinned(Run(s, steps), id)
    decreases |steps|
  {
    if steps != [] {
      UnpinnedStep(dev, s, steps[0], id);
      StepKeepsInv(dev, s, steps[0]);
      UnpinnedRun(dev, Apply(s, steps[0]), steps[1..], id);
    }
  }

  lemma {:induction false} SilentRun(dev: Device, s: Sys, steps: seq<Step>, id: WatchId)
    requires Inv(dev, s) && ValidRun(dev, s, steps) && Silent(s, steps, id)
    ensures id in Run(s, steps).reg.entries ==>
              id in s.reg.entries && Run(s, steps).reg.entries[id] == s.reg.entries[id]
    decreases |steps|
  {
    if steps != [] {
      StepKeepsInv(dev, s, steps[0]);
      SilentRun(dev, Apply(s, steps[0]), steps[1..], id);
      if id in Apply(s, steps[0]).reg.entries { OtherKeepsEntry(dev, s, steps[0], id); }
    }
  }

  /** A watch that was never pinned and was last asked for at clock `c` is in no poll set from a window after `c` on. */
  lemma DormantIsNotPolled(dev: Device, cfg: PollConfig, before: seq<Step>, ask: Step, id: WatchId, after: seq<Step>,
      now: nat)
    requires ValidRun(dev, Init(cfg), before) && NeverPins(before, id)
    requires var s := Run(Init(cfg), before);
             && Enabled(dev, s, ask) && Asks(s, ask, id) && (ask.Register? || ask.Touch?)
             && ValidRun(dev, Apply(s, ask), after) && Silent(Apply(s, ask), after, id)
    requires now >= ask.clock + Run(Apply(Run(Init(cfg), before), ask), after).eng.cfg.demandWindow
    ensures id !in Apply(Run(Apply(Run(Init(cfg), before), ask), after), Capture(now)).eng.requests
  {
    var s := Run(Init(cfg), before);
    InitInv(dev, cfg);
    UnpinnedRun(dev, Init(cfg), before, id);
    DormantFrom(dev, s, ask, id, after, now);
  }

  lemma DormantFrom(dev: Device, s: Sys, ask: Step, id: WatchId, after: seq<Step>, now: nat)
    requires Inv(dev, s) && Unpinned(s, id) && Enabled(dev, s, ask) && Asks(s, ask, id) && (ask.Register? || ask.Touch?)
    requires ValidRun(dev, Apply(s, ask), after) && Silent(Apply(s, ask), after, id)
    requires now >= ask.clock + Run(Apply(s, ask), after).eng.cfg.demandWindow
    ensures id !in Apply(Run(Apply(s, ask), after), Capture(now)).eng.requests
  {
    StepKeepsInv(dev, s, ask);
    UnpinnedStep(dev, s, ask, id);
    AskTouches(s, ask, id);
    SilentRun(dev, Apply(s, ask), after, id);
    RunKeepsInv(dev, Apply(s, ask), after);
    NotPolledLater(Run(Apply(s, ask), after), id, ask.clock, now);
  }

  lemma NotPolledLater(t: Sys, id: WatchId, c: nat, now: nat)
    requires RegOk(t) && Unpinned(t, id) && (id in t.reg.entries ==> t.reg.entries[id].lastTouch == c)
    requires now >= c + t.eng.cfg.demandWindow
    ensures id !in Apply(t, Capture(now)).eng.requests
  {
    CaptureExact(t, now, id);
  }
}
