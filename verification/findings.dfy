/** Things the firmware does that its reader may not expect, each shown in a run from power-up. */
module Findings {
  import opened Words
  import opened Floats
  import opened CommandTypes
  import opened Encoders
  import opened PidControl
  import opened MotionControl
  import opened RuntimeModel
  import opened SafetyRuns
  import opened RuntimeSafety
  import opened RuntimeRuns
  import opened RuntimeAttempts
  import opened RuntimeMoves
  import opened RuntimeResponse
  import opened RuntimeCompletion
  import opened PlantModel
  import opened ClosedLoop
  import opened Startup

  // The update of the accepting cycle counts.

  const STAY := Command(MoveRel, 0)

  lemma RestHasNoVelocity(ps: seq<PlantState>)
    requires CoastsClear(ps) && ps[10].position == ps[20].position
    ensures SignedDelta(ReadingOf(0, ps[20].count), ReadingOf(0, ps[10].count)) == 0
    ensures 0 <= ps[20].count <= 5000 && ReadingOf(0, ps[20].count) == ps[20].count
  {
    CountOffStops(ps[20]);
    assert ps[10].count == ps[20].count;
    DeltaIsDisplacement(ps[20].count, ps[20].count, 0);
  }

  /** An idle axis, just sampled at rest in travel, with the gate open. */
  predicate RestingIdle(w: World) {
    && w.cycle.Open? && w.cycle.taken == 0 && w.cycle.sampled && w.cycle.dt == 0.01 && w.app == Idle
    && w.safety.state == Idle && !w.safety.homeContact
    && w.axis.gate.initialized && !w.axis.gate.inhibited && !w.axis.gate.negativeBlocked
    && w.axis.m.config == DEFAULT_CONFIG && w.axis.m.pid.config == DEFAULT_CONFIG.pid
    && w.axis.m.data.state == Idle && w.axis.m.data.feedbackValid
    && w.axis.m.data.velocity == 0.0 && 0 <= w.axis.m.data.position <= 5000
  }

  lemma StayIsAccepted(w: World)
    requires RestingIdle(w)
    ensures var v := MotionReceived(w, STAY);
            && MoveAccepted(w, MotionReceive(STAY)) && v.cycle == w.cycle.(taken := 1)
            && v == w.(axis := v.axis, cycle := v.cycle)
            && v.axis == w.axis.(m := MoveStarted(w.axis.m, w.axis.m.data.position))
  {
  }

  /** The default loop asks for nothing at its target. */
  lemma NoOutputAtTheTarget(p: Pid, x: real)
    requires p.config == DEFAULT_CONFIG.pid && p.sampled && p.integral == 0.0 && p.previousMeasurement == x
    ensures Output(p, x, x, 0.01) == 0.0
  {
    assert Integral(p, 0.0, 0.01) == 0.0 && Derivative(p, x, 0.01) == 0.0;
  }

  /** A new move that is already there. */
  lemma NoDriveAtTheTarget(a: Axis)
    requires a.m.config == DEFAULT_CONFIG && a.m.data.state == Moving && a.m.data.feedbackValid
    requires a.m.data.target == a.m.data.position && a.m.data.velocity == 0.0 && a.m.data.stableCycles == 0
    requires a.m.pid.config == DEFAULT_CONFIG.pid && a.m.pid.sampled && a.m.pid.integral == 0.0
    requires a.m.pid.previousMeasurement == a.m.data.position as real
    requires a.gate.initialized && !a.gate.inhibited && !a.gate.negativeBlocked
    ensures var (b, ok) := MotionUpdated(a, Finite(0.01));
            ok && b.m.data.state == Moving && b.m.data.stableCycles == 1
  {
    NoOutputAtTheTarget(a.m.pid, a.m.data.position as real);
    var m := Dwelled(a.m);
    assert m == a.m.(data := a.m.data.(error := 0.0, stableCycles := 1));
  }

  /** An update without a latch or the contact allowance is the controller's own. */
  lemma FinishIsUpdate(v: World)
    requires v.cycle.Open? && v.cycle.sampled && v.safety.state == Idle && !v.safety.homeContact
    requires v.axis.m.data.state == Moving && MotionUpdated(v.axis, Finite(v.cycle.dt)).1
    ensures MotionFinished(v).axis == MotionUpdated(v.axis, Finite(v.cycle.dt)).0
  {
    assert Synced(v) == v;
  }

  lemma StayCounts(w: World, v: World)
    requires RestingIdle(w) && v == MotionReceived(w, STAY)
    ensures InBandNow(v) && UnderWay(v) && UnderWay(MotionFinished(v))
    ensures MotionFinished(v).axis.m.data.stableCycles == 1
  {
    StayIsAccepted(w);
    NoDriveAtTheTarget(v.axis);
    FinishIsUpdate(v);
  }

  lemma RestingStart(ps: seq<PlantState>) returns (w: World)
    requires CoastsClear(ps) && ps[10].position == ps[20].position
    ensures Reachable(w) && RestingIdle(w)
  {
    w := StartupReaches(ps);
    RestHasNoVelocity(ps);
    ReachableIsTimely(w);
    ListeningAtRest(w, ps[20]);
  }

  lemma ListeningAtRest(w: World, p: PlantState)
    requires Listening(w, p) && Inv(w) && w.axis.m.data.velocity == 0.0
    requires w.axis.m.data.position == ReadingOf(0, p.count) && 0 <= ReadingOf(0, p.count) <= 5000
    ensures RestingIdle(w)
  {
  }

  lemma FlagsOfTwo(ws: seq<World>, es: seq<Event>)
    requires |es| == 2 && |ws| == 3 && es[1] == MotionFinish
    ensures Bands(ws, es, 2) == [InBandNow(ws[1])]
  {
  }

  /** A move to where the axis rests: from power-up on, its first update judges the sample that was there
      before the command, and counts, before any new sample is taken. */
  lemma FirstUpdateNeedsNoSample(ps: seq<PlantState>) returns (ws: seq<World>, es: seq<Event>)
    requires CoastsClear(ps) && ps[10].position == ps[20].position
    ensures es == [MotionReceive(STAY), MotionFinish] && MoveRun(ws, es, 2)
    ensures Bands(ws, es, 2) == [true] && ws[2].axis.m.data.stableCycles == 1
  {
    var w := RestingStart(ps);
    StayIsAccepted(w);
    ReachableGoesOn(w, MotionReceive(STAY));
    var v := MotionReceived(w, STAY);
    StayCounts(w, v);
    ws, es := [w, v, MotionFinished(v)], [MotionReceive(STAY), MotionFinish];
    FlagsOfTwo(ws, es);
  }

  // Silence of a whole timer wrap.

  /** From any reachable state in which Safety would refresh the watchdog, let a timer wrap pass in which
      nothing happens at all: no task has beaten since, and Safety would refresh it again. */
  lemma SilentForAWrapRefreshes(w: World) returns (v: World)
    requires Reachable(w) && !SameRefreshes(w, SafetyCycled(w))
    ensures Reachable(v) && v == w.(clock := w.clock + WORD)
    ensures forall i | 0 <= i < 3 :: v.aux.beatAt[i] + WORD <= v.clock
    ensures !SameRefreshes(v, SafetyCycled(v))
  {
    ReachableGoesOn(w, Tick(WORD));
    v := Step(w, Tick(WORD));
    ReachableIsTimely(w);
    ReachableIsTimely(v);
    LooksTheSame(w, v);
  }

  lemma LooksTheSame(w: World, v: World)
    requires Clocks(w) && Clocks(v) && v == w.(clock := w.clock + WORD) && !SameRefreshes(w, SafetyCycled(w))
    ensures forall i | 0 <= i < 3 :: v.aux.beatAt[i] + WORD <= v.clock
    ensures !SameRefreshes(v, SafetyCycled(v))
  {
    SafetyRefreshes(w);
    SafetyRefreshes(v);
    forall i | 0 <= i < 3
      ensures FreshAt(v, i, v.clock)
    {
      FreshAgain(w, v, i);
    }
  }

  lemma FreshAgain(w: World, v: World, i: nat)
    requires v == w.(clock := w.clock + WORD) && i < 3 && FreshAt(w, i, w.clock)
    requires w.health[i].seen ==> w.aux.beatAt[i] <= w.clock
    ensures FreshAt(v, i, v.clock)
  {
    WrapShift(w.clock - w.aux.beatAt[i], 1);
  }

  /** And such states are reached from power-up. */
  lemma RefreshIsReached(ps: seq<PlantState>) returns (w: World)
    requires CoastsClear(ps)
    ensures Reachable(w) && !SameRefreshes(w, SafetyCycled(w))
  {
    w := StartupReaches(ps);
    ReachableIsTimely(w);
    ListeningRefreshes(w, ps[20]);
  }

  lemma ListeningRefreshes(w: World, p: PlantState)
    requires Listening(w, p) && Clocks(w)
    ensures !SameRefreshes(w, SafetyCycled(w))
  {
    SafetyRefreshes(w);
    forall i | 0 <= i < 3
      ensures FreshAt(w, i, w.clock)
    {
      FreshnessIsModular(w, i);
    }
  }

  // A RESET in the cycle of a latch.

  const RESET := Command(Reset, 0)

  /** A HOME that was accepted in this cycle, with room for one more command and nothing wrong. */
  predicate HomeJustBegun(w: World) {
    && w.cycle.Open? && w.cycle.taken == 1 && w.cycle.sampled && UsableStep(Finite(w.cycle.dt)) && w.app == Idle
    && w.safety.state == Idle && w.axis.m.data.state == Homing && w.axis.m.data.homing.result == HomeRunning
    && w.axis.m.data.feedbackValid && AllFresh(w.health, Now(w))
  }

  /** The E-stop is pressed, seen by a Safety cycle, and released. */
  function Interrupted(w: World): World {
    Step(Step(Step(w, SetPins(Pins(true, Inputs(true, false, false)))), SafetyCycle), SetPins(Pins(true, NO_INPUTS)))
  }

  lemma InterruptionLatches(w: World)
    requires Inv(w) && HomeJustBegun(w)
    ensures var v := Interrupted(w);
            && v.safety.state == Estop && !v.safety.internalActive && !v.safety.stall.recoveryRequired
            && v.axis.m == w.axis.m && v.cycle == w.cycle && v.app == w.app && v.health == w.health
            && v.clock == w.clock && v.pins == Pins(true, NO_INPUTS)
  {
    assert SafetyOk(w.safety);
  }

  lemma InterruptionGoesOn(w: World)
    requires Reachable(w)
    ensures Reachable(Interrupted(w))
  {
    var u := Step(w, SetPins(Pins(true, Inputs(true, false, false))));
    ReachableGoesOn(w, SetPins(Pins(true, Inputs(true, false, false))));
    ReachableGoesOn(u, SafetyCycle);
    ReachableGoesOn(Step(u, SafetyCycle), SetPins(Pins(true, NO_INPUTS)));
  }

  lemma ResetForgets(w: World)
    requires Inv(w) && HomeJustBegun(w) && Inv(Interrupted(w))
    ensures var v := Interrupted(w);
            && Forgets(v, MotionReceive(RESET)) && Enabled(v, MotionReceive(RESET))
            && IdleButRunning(MotionReceived(v, RESET))
  {
    InterruptionLatches(w);
    ResetInTheCycle(Interrupted(w));
  }

  lemma ResetInTheCycle(v: World)
    requires Inv(v) && v.safety.state == Estop && !v.safety.internalActive && !v.safety.stall.recoveryRequired
    requires v.axis.m.data.state == Homing && v.axis.m.data.homing.result == HomeRunning && v.axis.m.data.feedbackValid
    requires v.cycle.Open? && v.cycle.taken == 1 && v.cycle.sampled && UsableStep(Finite(v.cycle.dt)) && v.app == Idle
    requires v.pins == Pins(true, NO_INPUTS) && AllFresh(v.health, Now(v))
    ensures Forgets(v, MotionReceive(RESET)) && IdleButRunning(MotionReceived(v, RESET))
  {
    ResetTakenIsExact(v);
    ResetRecovers(v);
  }

  /** The axis is idle and unlatched, in the middle of a good cycle, and the record says that a HOME is running. */
  predicate IdleButRunning(w: World) {
    && w.safety.state == Idle && !w.safety.homeContact && w.axis.m.data.state == Idle
    && w.axis.m.data.homing.result == HomeRunning && w.axis.m.data.feedbackValid
    && w.cycle.Open? && w.cycle.sampled && UsableStep(Finite(w.cycle.dt))
  }

  lemma FinishPublishesIt(w: World)
    requires IdleButRunning(w)
    ensures var v := MotionFinished(w);
            && v.safety.state == Idle && v.published.state == Idle && v.published.homing.result == HomeRunning
  {
    assert Synced(w) == w;
  }

  lemma HomeIsJustBegun(ps: seq<PlantState>) returns (u: World)
    requires CoastsClear(ps)
    ensures Reachable(u) && HomeJustBegun(u)
  {
    var w := StartupReaches(ps);
    CountOffStops(ps[20]);
    HomeTakenShape(w, ps[20]);
    ReachableGoesOn(w, MotionReceive(HOME_COMMAND));
    u := MotionReceived(w, HOME_COMMAND);
  }

  /** From power-up: an E-stop that Safety latches after Motion has synchronised, and that is released and RESET in
      the same cycle, leaves an idle axis whose published record says that a HOME is running. */
  lemma ResetForgetsHome(ps: seq<PlantState>) returns (v: World)
    requires CoastsClear(ps)
    ensures Reachable(v) && v.safety.state == Idle && v.axis.m.data.state == Idle
    ensures v.published.state == Idle && v.published.homing.result == HomeRunning
  {
    var u := HomeIsJustBegun(ps);
    ReachableIsTimely(u);
    InterruptionGoesOn(u);
    ReachableIsTimely(Interrupted(u));
    ResetForgets(u);
    ReachableGoesOn(Interrupted(u), MotionReceive(RESET));
    var x := MotionReceived(Interrupted(u), RESET);
    FinishPublishesIt(x);
    ReachableGoesOn(x, MotionFinish);
    v := MotionFinished(x);
  }
}
