/** On the negative switch after HOME: the gate stays closed until a departure, and a departure goes through. */
module RuntimeSwitch {
  import opened Words
  import opened Floats
  import opened CommandTypes
  import opened MotorGate
  import opened Encoders
  import opened PidControl
  import opened MotionControl
  import opened SafetyPolicy
  import opened SafetyRules
  import opened SafetyRuns
  import opened RuntimeModel
  import opened RuntimeSafety
  import opened RuntimeRuns
  import opened RuntimeMoves
  import opened RuntimeHoming
  import opened RuntimeCommands

  // When an evaluation leaves the gate open.

  /** Every critical task has beaten in the last 150 ms, modulo 2^32. */
  predicate AllBeat(w: World) {
    forall i | 0 <= i < 3 :: w.health[i].seen && Elapsed(Now(w), w.health[i].lastMs) <= 150
  }

  /** The published record moves, or homes off the switch, with drive and without speed, and has been suspected
      for 500 ms. */
  predicate StuckTooLong(w: World) {
    var m, output := w.published, w.axis.gate.output;
    && (m.state == Moving || (m.state == Homing && !w.pins.inputs.negativeLimit))
    && -25.0 <= m.velocity <= 25.0 && (output >= 0.3 || output <= -0.3)
    && w.safety.stall.candidate && Elapsed(Now(w), w.safety.stall.candidateStartMs) >= 500
  }

  /** On the switch, only a move away from it, under the allowance of a completed HOME and with no drive
      backwards. */
  predicate LeavesSwitch(w: World) {
    && w.safety.homeContact && w.published.state == Moving
    && w.published.target > Logical(w.axis.encoder) && w.axis.gate.output >= 0.0
  }

  /** An evaluation leaves the gate open if and only if nothing was latched before, the inputs are good, every
      critical task is fresh, the axis is not stuck, and the switch is released or being left. A gate that
      was closed opens with the motor off. */
  lemma GateOpensExactly(w: World)
    requires Core(w)
    ensures var v := EvaluatedWorld(w);
            && (!v.axis.gate.inhibited <==>
                  && w.safety.state == Idle
                  && w.pins.ready && !w.pins.inputs.estop && !w.pins.inputs.positiveLimit
                  && AllBeat(w) && !StuckTooLong(w) && (w.pins.inputs.negativeLimit ==> LeavesSwitch(w)))
            && (!v.axis.gate.inhibited ==> v.safety.state == Idle)
            && (w.axis.gate.inhibited ==> v.axis.gate.output == 0.0)
            && (!v.axis.gate.inhibited && !w.axis.gate.inhibited ==> v.axis.gate.output == w.axis.gate.output)
  {
    var o := Observed(w);
    if w.safety.state == Idle {
      StaysUnlatchedExactly(w.safety, o);
      AllowanceSurvivesExactly(w.safety, o);
    } else {
      EvaluateEstablishes(w);
      ObserveKeepsLatches(w.safety, o);
    }
  }

  // From the completion of a HOME on.

  /** While the allowance stands and no departure has been accepted, nothing moves, the published record says
      so, and the gate is closed. */
  predicate Parked(w: World) {
    w.safety.homeContact ==>
      w.axis.m.data.state != Moving && w.published.state != Moving && w.axis.gate.inhibited
  }

  /** An evaluation of a published record that does not move. */
  lemma EvaluationParks(w: World)
    requires Core(w) && (w.safety.homeContact ==> w.published.state != Moving && w.axis.m.data.state != Moving)
    ensures Parked(EvaluatedWorld(w)) && Parked(EvaluatedAndSynced(w))
  {
    EvaluateEstablishes(w);
    ObserveKeepsLatches(w.safety, Observed(w));
    GateOpensExactly(w);
    SyncParks(EvaluatedWorld(w));
  }

  lemma SyncParks(w: World)
    requires Parked(w) && SafetyOk(w.safety)
    ensures Parked(Synced(w))
  {
  }

  lemma CommandParks(w: World, c: Command)
    requires Grounded(w) && Parked(w) && w.cycle.Open? && w.app == Idle && c.kind != Status && c.kind != Help
    requires !MoveAccepted(w, MotionReceive(c))
    ensures Parked(CommandTaken(w, c).0)
  {
    if c.kind == EmergencyStop {
      EstopIsTaken(w, c);
    } else if c.kind == Reset {
      EvaluationParks(w);
    } else if c.kind == Home {
      HomeParks(w);
    } else if c.kind == Stop {
      StopIsTaken(w, c);
      StopParks(w, c);
    } else if c.kind != SetSpeed {
      RefusedMoveParks(w, c);
    } else {
      OthersChangeNothing(w, c);
    }
  }

  lemma HomeParks(w: World)
    requires Inv(w) && Parked(w)
    ensures Parked(HomeTaken(w).0)
  {
    var u := Published(w.(axis := HomingStarted(w.axis, Now(w))));
    var x := u.(aux := u.aux.(homeAt := w.clock));
    HomingStartKeeps(w.axis, Now(w));
    EvaluationParks(x);
  }

  lemma StopParks(w: World, c: Command)
    requires Inv(w) && Parked(w) && c.kind == Stop
    ensures Parked(CommandTaken(w, c).0)
  {
  }

  lemma RefusedMoveParks(w: World, c: Command)
    requires Inv(w) && Parked(w) && (c.kind == MoveAbs || c.kind == MoveRel) && CommandTaken(w, c).1 != Accepted
    ensures Parked(CommandTaken(w, c).0)
  {
    CommandCases(w, c);
    if CommandResult(w.axis.m, c) != Accepted {
      EvaluationParks(Published(w));
    }
  }

  // Updates.

  lemma UpdateParks(w: World, dt: real, now: Word)
    requires Inv(w) && Parked(w) && w.axis.m.data.state != Homing
    ensures Parked(Published(ControlUpdated(w, dt, now).0))
  {
    EvaluationParks(Published(w));
    var v := if w.safety.homeContact then EvaluatedAndSynced(Published(w)) else w;
    UpdateKeeps(v.axis, Finite(dt));
    UpdateStartsNothing(v.axis, Finite(dt));
    EvaluateAndSyncIsQuiet(Published(w));
  }

  lemma UpdateStartsNothing(a: Axis, dt: Float)
    ensures MotionUpdated(a, dt).0.m.data.state == Moving ==> a.m.data.state == Moving
  {
  }

  /** A homing update on the switch completes, or leaves the gate as the evaluation before it did. */
  lemma HomingParks(w: World, now: Word)
    requires Inv(w) && w.axis.m.data.state == Homing && w.safety.state == Idle
    requires Parked(w) || HomingControl(w, now).0.axis.m.data.homing.completed != w.axis.m.data.homing.completed
    ensures Parked(Published(HomingControl(w, now).0))
  {
    if HomingInterrupt(w.pins) {
      EvaluationParks(Published(w));
      EvaluateAndSyncKeeps(Published(w));
      EvaluateAndSyncCarries(Published(w));
      var v := EvaluatedAndSynced(Published(w));
      if v.safety.state == Idle {
        SeekParks(v, w.pins, now);
      }
    } else {
      SeekCompletesNothing(w, now);
      SeekParks(w, w.pins, now);
    }
  }

  /** The update itself, from a state that is parked. */
  lemma SeekParks(v: World, pins: Pins, now: Word)
    requires Inv(v) && v.safety.state == Idle && v.axis.m.data.state == Homing && Parked(v)
    ensures var (a, ok) := HomingUpdated(v.axis, ReadPins(pins), now);
            && Parked(Published(v.(axis := a))) && (ok ==> Parked(Published(HomingSettled(v.(axis := a), now))))
  {
    var (a, ok) := HomingUpdated(v.axis, ReadPins(pins), now);
    HomingKeeps(v.axis, ReadPins(pins), now);
    HomingUpdateCarries(v.axis, ReadPins(pins), now);
    SettleParks(v, a, now);
  }

  /** Off the switch nothing completes. */
  lemma SeekCompletesNothing(w: World, now: Word)
    requires Inv(w) && w.axis.m.data.state == Homing && !HomingInterrupt(w.pins)
    ensures HomingControl(w, now).0.axis.m.data.homing.completed == w.axis.m.data.homing.completed
  {
    var a := HomingUpdated(w.axis, NO_INPUTS, now).0;
    NoContactCompletesNothing(w.axis, now);
    if a.m.data.homing.result == HomeTimeout {
      TimeoutIsQuiet(w.(axis := a), now);
    }
  }

  lemma NoContactCompletesNothing(a: Axis, now: Word)
    requires ControllerOk(a.m) && a.m.data.state == Homing
    ensures var b := HomingUpdated(a, NO_INPUTS, now).0;
            b.m.data.homing.completed == a.m.data.homing.completed && b.m.data.homing.result != HomeComplete
  {
  }

  lemma SettleParks(v: World, a: Axis, now: Word)
    requires Inv(v) && v.safety.state == Idle && GateKept(v.axis.gate, a.gate) && a.m.data.state != Moving
    requires a.encoder.initialized
    requires Parked(v) || a.m.data.homing.result == HomeComplete
    ensures Parked(Published(HomingSettled(v.(axis := a), now)))
  {
    var b := v.(axis := a);
    match a.m.data.homing.result
    case HomeTimeout => EvaluateAndSyncCarries(b);
    case HomeComplete =>
      EvaluationParks(Published(b.(safety := b.safety.(homeContact := true),
                                   aux := b.aux.(contactRaw := a.encoder.raw))));
    case _ =>
  }

  /** A step that completes a HOME. */
  predicate Completes(w: World, v: World) {
    v.axis.m.data.homing.completed != w.axis.m.data.homing.completed
  }

  lemma FinishParks(w: World)
    requires Inv(w) && w.cycle.Open? && (Parked(w) || Completes(w, MotionFinished(w)))
    ensures Parked(MotionFinished(w))
  {
    var v, c := Synced(w), w.cycle;
    SyncKeeps(w);
    ControlKeeps(v, c.dt, c.now);
    var (u, ok) := if c.sampled then ControlUpdated(v, c.dt, c.now) else (v, false);
    if ok {
      if Completes(w, MotionFinished(w)) {
        CompletionWasHoming(w);
      } else {
        SyncParks(w);
      }
      if v.axis.m.data.state == Homing {
        HomingParks(v, c.now);
      } else {
        UpdateParks(v, c.dt, c.now);
      }
    } else {
      LostParks(u, Active(v.axis.m.data.state), c.now);
    }
  }

  lemma LostParks(u: World, active: bool, now: Word)
    requires Inv(u)
    ensures !UpdateLost(u, active, now).safety.homeContact
  {
    UpdateLostKeeps(u, active, now);
    LostCarries(u, active, now);
  }

  lemma SyncSectionParks(w: World)
    requires Inv(w) && w.cycle.Begun? && Parked(w)
    ensures Parked(MotionSynced(w))
  {
    SyncedCycleKeeps(w);
    if w.cycle.sampled {
      SyncParks(w);
    } else {
      LossLatches(w);
    }
  }

  lemma ReceiveParks(w: World, c: Command)
    requires Grounded(w) && Parked(w) && w.cycle.Open? && !MoveAccepted(w, MotionReceive(c))
    ensures Parked(MotionReceived(w, c))
  {
    if w.app == Idle && c.kind != Status && c.kind != Help {
      CommandParks(w, c);
    }
  }

  lemma BeginParks(w: World)
    requires Parked(w) && w.cycle.Resting?
    ensures Parked(MotionBegun(w))
  {
  }

  lemma StepParks(w: World, e: Event)
    requires Grounded(w) && Enabled(w, e) && !MoveAccepted(w, e)
    requires Parked(w) || Completes(w, Step(w, e))
    ensures Parked(Step(w, e))
  {
    if Completes(w, Step(w, e)) {
      OnlyCompletionReferences(w, e);
    }
    match e
    case SafetyCycle => EvaluationParks(w);
    case MotionBegin => BeginParks(w);
    case MotionSync => SyncSectionParks(w);
    case MotionReceive(c) => ReceiveParks(w, c);
    case MotionFinish => FinishParks(w);
    case _ =>
  }

  /** A run in which step h completes a HOME, and no move is accepted from there to n. */
  ghost predicate SinceHome(ws: seq<World>, es: seq<Event>, h: nat, n: nat) {
    && Run(ws, es) && Reachable(ws[0]) && h < n <= |es| && Completes(ws[h], ws[h + 1])
    && forall k | h <= k < n :: !MoveAccepted(ws[k], es[k])
  }

  /** From the completion of a HOME until a move is accepted, and while the allowance stands, the gate is closed
      and the motor off, through any stale requests. */
  lemma GateStaysClosedAfterHome(ws: seq<World>, es: seq<Event>, h: nat, n: nat)
    requires SinceHome(ws, es, h, n) && ws[n].safety.homeContact
    ensures ws[n].axis.gate.inhibited && ws[n].axis.gate.output == 0.0
    ensures ws[n].axis.m.data.state != Moving && ws[n].published.state != Moving
  {
    GroundedRun(ws, es, h);
    for k := h to n
      invariant Grounded(ws[k]) && (k > h ==> Parked(ws[k]))
    {
      assert ws[k + 1] == Step(ws[k], es[k]);
      GroundedStep(ws[k], es[k]);
      StepParks(ws[k], es[k]);
    }
  }

  /** The switch closed, and no other input. */
  const ON_SWITCH := Pins(true, Inputs(false, true, false))

  /** An evaluation of an axis that a completed HOME has left on the switch. */
  lemma ParkedEvaluation(w: World)
    requires Core(w) && w.safety.state == Idle && w.safety.homeContact && w.published.state == Idle
    requires w.pins == ON_SWITCH && AllBeat(w) && w.axis.gate.output == 0.0
    ensures var v := EvaluatedWorld(w);
            && v.safety.state == Idle && v.safety.homeContact && v.safety.sensed.healthy
            && v.axis.gate.inhibited && v.axis.gate.output == 0.0
  {
    StaysUnlatchedExactly(w.safety, Observed(w));
    AllowanceSurvivesExactly(w.safety, Observed(w));
    GateOpensExactly(w);
    EvaluateEstablishes(w);
  }

  lemma CompletionSettles(v: World, a: Axis, now: Word)
    requires Inv(v) && v.safety.state == Idle && v.pins == ON_SWITCH && AllBeat(v)
    requires a.m.data.homing.result == HomeComplete && a.m.data.state == Idle
    requires GateKept(v.axis.gate, a.gate) && a.gate.output == 0.0 && a.encoder.initialized
    ensures var u := HomingSettled(v.(axis := a), now);
            && u.safety.state == Idle && u.safety.homeContact && u.safety.sensed.healthy && u.axis.m == a.m
            && u.axis.gate.inhibited && u.axis.gate.output == 0.0
  {
    var b := v.(axis := a);
    ParkedEvaluation(Published(b.(safety := b.safety.(homeContact := true),
                                  aux := b.aux.(contactRaw := a.encoder.raw))));
  }

  lemma HomingCompletes(w: World, now: Word)
    requires Inv(w) && w.axis.m.data.state == Homing && w.safety.state == Idle && w.pins == ON_SWITCH && AllBeat(w)
    requires Completes(w, HomingControl(w, now).0)
    ensures var (u, ok) := HomingControl(w, now);
            && ok && u.safety.state == Idle && u.safety.homeContact && u.safety.sensed.healthy
            && u.axis.m.data.state == Idle && u.axis.m.data.position == 0 == u.axis.m.data.target
            && u.axis.gate.inhibited && u.axis.gate.output == 0.0
  {
    EvaluateAndSyncKeeps(Published(w));
    EvaluateAndSyncIsQuiet(Published(w));
    EvaluateKeeps(Published(w));
    var v := EvaluatedAndSynced(Published(w));
    if v.safety.state == Idle {
      var (a, ok) := HomingUpdated(v.axis, ReadPins(w.pins), now);
      HomingKeeps(v.axis, ReadPins(w.pins), now);
      HomingUpdateReferences(v.axis, ReadPins(w.pins), now);
      if ok && a.m.data.homing.result == HomeComplete {
        CompletedAxis(v.axis, ReadPins(w.pins), now);
        CompletionSettles(v, a, now);
      } else if ok {
        SettleIsQuietOrReferences(v, a, now);
      }
    }
  }

  /** Such a completion, on good inputs with every critical task fresh, does leave the allowance, and the axis idle
      at zero with nothing latched. */
  lemma CompletionParks(w: World, e: Event)
    requires Inv(w) && Enabled(w, e) && Completes(w, Step(w, e)) && w.pins == ON_SWITCH && AllBeat(w)
    ensures var v := Step(w, e);
            && v.safety.state == Idle && v.safety.homeContact && v.safety.sensed.healthy
            && v.axis.m.data.state == Idle && v.axis.m.data.position == 0 == v.axis.m.data.target
            && Logical(v.axis.encoder) == 0 && v.published == v.axis.m.data
            && v.axis.gate.inhibited && v.axis.gate.output == 0.0
  {
    OnlyCompletionReferences(w, e);
    CompletionWasHoming(w);
    assert Synced(w) == w;
    var (u, ok) := HomingControl(w, w.cycle.now);
    if Completes(w, u) {
      HomingCompletes(w, w.cycle.now);
    } else {
      HomingControlKeeps(w, w.cycle.now);
      LostIsQuiet(u, true, w.cycle.now);
    }
  }

  // A departure.

  /** A completed HOME has left the axis on the switch, at rest behind a closed gate, with nothing to fear; and
      the cycle has room for a command. */
  predicate MayDepart(w: World) {
    && w.cycle.Open? && w.cycle.taken < 2 && w.safety.homeContact && w.safety.sensed.healthy
    && w.axis.m.data.state == Idle && w.axis.gate.inhibited && w.pins == ON_SWITCH && AllBeat(w)
  }

  /** The move is under way in both records, behind an open gate, with the motor still off. */
  predicate Departs(v: World, goal: int) {
    && v.safety.state == Idle && v.safety.homeContact && !v.axis.gate.inhibited && v.axis.gate.output == 0.0
    && GoesTo(v.axis.m, goal) && v.published == v.axis.m.data
  }

  /** An evaluation of a departure, with the motor still off. */
  lemma DepartureEvaluated(u: World)
    requires Inv(u) && u.safety.homeContact && u.axis.gate.output == 0.0 && u.pins == ON_SWITCH && AllBeat(u)
    requires u.published.state == Moving
    ensures var v := EvaluatedWorld(u);
            if u.published.target > Logical(u.axis.encoder)
            then v.safety.state == Idle && v.safety.homeContact && !v.axis.gate.inhibited && v.axis.gate.output == 0.0
            else v.safety.state == Fault && v.safety.faults.active.code == NegativeLimit
  {
    var o := Observed(u);
    GateOpensExactly(u);
    StaysUnlatchedExactly(u.safety, o);
    LatchesInOrder(u.safety, o);
    AllowanceSurvivesExactly(u.safety, o);
  }

  /** The departure branch, from there. */
  lemma DepartureBranch(w: World, c: Command)
    requires Inv(w) && MayDepart(w) && w.axis.m.data.feedbackValid && (c.kind == MoveAbs || c.kind == MoveRel)
    requires w.axis.m.data.position < Goal(c, w.axis.m.data.position)
    ensures var (v, r) := DepartureTaken(w, c);
            var m, goal := w.axis.m, Goal(c, w.axis.m.data.position);
            if !(m.config.minimum <= goal <= m.config.maximum) then
              r == OutOfRange && v.safety.state == Idle && v.axis.m == m && v.axis.gate.inhibited
            else
              && r == Accepted
              && (if goal > Logical(w.axis.encoder)
                  then Departs(v, goal) && v.axis.encoder == w.axis.encoder && v.axis.m.config == m.config
                       && v.axis.m.data.position == m.data.position && v.axis.m.data.feedbackValid
                       && v.axis.m.pid.config == m.pid.config
                       && v.pins == w.pins && v.health == w.health && v.clock == w.clock && v.cycle == w.cycle
                  else v.safety.state == Fault && v.safety.faults.active.code == NegativeLimit)
  {
    ControllerTakesMove(w.axis, c);
    CommandKeeps(w.axis, c);
    var u := Published(w.(axis := Commanded(w.axis, c)));
    SyncCarries(EvaluatedWorld(u));
    if CommandResult(w.axis.m, c) == Accepted {
      DepartureEvaluated(u);
    } else {
      ParkedEvaluation(u);
    }
  }

  /** What becomes of a move from there: it is refused if it does not lead away from the switch, or out of range.
      Otherwise it departs, unless the counter has by now passed its target. */
  lemma DepartureIsTaken(w: World, c: Command)
    requires Grounded(w) && MayDepart(w) && (c.kind == MoveAbs || c.kind == MoveRel)
    ensures var (v, r) := ReceivedResult(w, c);
            var m, goal := w.axis.m, Goal(c, w.axis.m.data.position);
            if goal <= m.data.position then r == InvalidState && v == w
            else if !(m.config.minimum <= goal <= m.config.maximum) then
              r == OutOfRange && v.safety.state == Idle && v.axis.m == m && v.axis.gate.inhibited
            else
              && r == Accepted
              && (if goal > Logical(w.axis.encoder)
                  then Departs(v, goal) && v == DepartureTaken(w, c).0
                  else v.safety.state == Fault && v.safety.faults.active.code == NegativeLimit)
  {
    assert SafetyOk(w.safety);
    MoveIsAcceptedExactly(w, c);
    TrustedFeedback(w);
    if Goal(c, w.axis.m.data.position) > w.axis.m.data.position {
      DepartureBranch(w, c);
      assert ReceivedResult(w, c) == DepartureTaken(w, c);
    }
  }

  // The update after it.

  lemma FirstOutputIsPositive(p: Pid, target: real, position: real, dt: real)
    requires ValidPid(p.config) && p.integral == 0.0 && p.previousMeasurement == position
    requires target > position && dt > 0.0 && p.config.kp > 0.0 && p.config.outputMax > 0.0
    ensures 0.0 < Output(p, target, position, dt) <= p.config.outputMax
  {
    var error := target - position;
    var change := Floats.Times(p.config.ki, error);
    NamedOrder(error, 0.0, p.config.ki, 0.0, change);
    NamedOrder(dt, 0.0, change, 0.0, Floats.Times(change, dt));
    assert Integral(p, error, dt) >= 0.0;
    assert Derivative(p, position, dt) == 0.0;
    assert Floats.Times(p.config.kd, 0.0) == 0.0;
    PositiveProduct(p.config.kp, error);
    assert Floats.Times(p.config.kp, error) > 0.0;
  }

  lemma UpdateDrives(a: Axis, goal: int, dt: real)
    requires ValidConfig(a.m.config) && a.m.pid.config == a.m.config.pid && GoesTo(a.m, goal) && a.m.data.feedbackValid
    requires goal > a.m.data.position && UsableStep(Finite(dt)) && GateOk(a.gate) && !a.gate.inhibited
    requires a.m.config.pid.kp > 0.0 && a.m.config.pid.outputMax > 0.0 && a.m.config.dwellCycles > 1
    ensures var (b, ok) := MotionUpdated(a, Finite(dt));
            ok && b.m.data.state == Moving && b.m.data.target == goal && b.gate.output > 0.0
  {
    FirstOutputIsPositive(a.m.pid, goal as real, a.m.data.position as real, dt);
    var d := Dwelled(a.m);
    assert d.data.state == Moving && d.pid == a.m.pid;
  }

  /** The update of the cycle drives the axis off the switch. */
  lemma DepartureDrives(w: World, goal: int)
    requires Grounded(w) && Departs(w, goal) && w.cycle.Open? && w.pins == ON_SWITCH && AllBeat(w)
    requires goal > w.axis.m.data.position && goal > Logical(w.axis.encoder)
    requires w.axis.m.config.pid.kp > 0.0 && w.axis.m.config.pid.outputMax > 0.0 && w.axis.m.config.dwellCycles > 1
    ensures var v := MotionFinished(w);
            && v.safety.state == Idle && v.axis.m.data.state == Moving && v.axis.m.data.target == goal
            && !v.axis.gate.inhibited && v.axis.gate.output > 0.0
  {
    TrustedFeedback(w);
    assert Published(w) == w && Synced(w) == w;
    DepartureEvaluated(w);
    EvaluateEstablishes(w);
    var v := EvaluatedWorld(w);
    UpdateDrives(v.axis, goal, w.cycle.dt);
    UpdateKeeps(v.axis, Finite(w.cycle.dt));
    assert EvaluatedAndSynced(Published(w)) == v;
  }

  /** A departure goes through. In every run in which a HOME has completed and no move has been accepted since,
      with the allowance still standing, the axis idle, every critical task fresh and no other input: a MOVE to
      any target in range, ahead of both the sampled and the present count, is accepted. The axis then moves
      towards it, with nothing latched and the gate open; and the update of the cycle drives forwards. */
  lemma DepartureGoesThrough(ws: seq<World>, es: seq<Event>, h: nat, n: nat, c: Command)
    requires SinceHome(ws, es, h, n) && (c.kind == MoveAbs || c.kind == MoveRel)
    requires ws[n].cycle.Open? && ws[n].cycle.taken < 2 && ws[n].safety.homeContact && ws[n].safety.sensed.healthy
    requires ws[n].axis.m.data.state == Idle && ws[n].pins == ON_SWITCH && AllBeat(ws[n])
    requires var goal, m := Goal(c, ws[n].axis.m.data.position), ws[n].axis.m;
             && m.config.minimum <= goal <= m.config.maximum
             && goal > m.data.position && goal > Logical(ws[n].axis.encoder)
    ensures var goal, m, v := Goal(c, ws[n].axis.m.data.position), ws[n].axis.m, MotionReceived(ws[n], c);
            && ReceivedResult(ws[n], c).1 == Accepted && Departs(v, goal)
            && (m.config.pid.kp > 0.0 && m.config.pid.outputMax > 0.0 && m.config.dwellCycles > 1 ==>
                  var u := MotionFinished(v);
                  && u.safety.state == Idle && u.axis.m.data.state == Moving && u.axis.m.data.target == goal
                  && !u.axis.gate.inhibited && u.axis.gate.output > 0.0)
  {
    var w, goal := ws[n], Goal(c, ws[n].axis.m.data.position);
    GroundedRun(ws, es, n);
    GateStaysClosedAfterHome(ws, es, h, n);
    DepartureIsTaken(w, c);
    GroundedStep(w, MotionReceive(c));
    TrustedFeedback(w);
    DepartureBranch(w, c);
    if w.axis.m.config.pid.kp > 0.0 && w.axis.m.config.pid.outputMax > 0.0 && w.axis.m.config.dwellCycles > 1 {
      DepartureDrives(MotionReceived(w, c), goal);
    }
  }

  /** And a move that leads nowhere from the switch is refused, with nothing changed. */
  lemma NoMoveOntoTheSwitch(ws: seq<World>, es: seq<Event>, h: nat, n: nat, c: Command)
    requires SinceHome(ws, es, h, n) && (c.kind == MoveAbs || c.kind == MoveRel)
    requires ws[n].cycle.Open? && ws[n].cycle.taken < 2 && ws[n].safety.homeContact
    requires Goal(c, ws[n].axis.m.data.position) <= ws[n].axis.m.data.position
    ensures ReceivedResult(ws[n], c) == (ws[n], InvalidState)
  {
    GroundedRun(ws, es, n);
    MoveIsAcceptedExactly(ws[n], c);
  }
}
