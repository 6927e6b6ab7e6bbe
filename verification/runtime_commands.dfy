/** What commands do: which are accepted, where a move goes, and that STOP silences the motor. */
module RuntimeCommands {
  import opened Words
  import opened Floats
  import opened CommandTypes
  import opened MotionControl
  import opened MotionRules
  import opened SafetyPolicy
  import opened SafetyRuns
  import opened RuntimeModel
  import opened RuntimeSafety
  import opened RuntimeRuns
  import opened RuntimeMoves
  import opened RuntimeHoming
  import opened RuntimeCompletion

  // What every reachable state keeps besides the invariant.

  /** A move under way goes to a target within the limits of the axis, and has not dwelt long enough. */
  predicate Bounded(w: World) {
    UnderWay(w) ==>
      && w.axis.m.config.minimum <= w.axis.m.data.target <= w.axis.m.config.maximum
      && w.axis.m.data.stableCycles < w.axis.m.config.dwellCycles
  }

  /** HOME, and the allowance it leaves, come after startup; and a cycle that lost its sample has latched. */
  predicate StartupOver(w: World) {
    && (w.safety.homeContact || w.axis.m.data.state == Homing ==> w.app == Idle)
    && (w.cycle.Open? && !w.cycle.sampled ==> w.safety.internalActive)
  }

  predicate Grounded(w: World) {
    Sound(w) && Bounded(w) && StartupOver(w)
  }

  // The startup application and the sample of the cycle.

  predicate AppKept(w: World, v: World) {
    v.app == w.app
  }

  lemma EvaluateKeepsApp(w: World)
    ensures AppKept(w, EvaluatedWorld(w)) && AppKept(w, Synced(w)) && AppKept(w, EvaluatedAndSynced(w))
  {
  }

  lemma HomeKeepsApp(w: World)
    ensures AppKept(w, HomeTaken(w).0)
  {
    var v := Published(w.(axis := HomingStarted(w.axis, Now(w))));
    EvaluateKeepsApp(v.(aux := v.aux.(homeAt := w.clock)));
  }

  lemma MoveKeepsApp(w: World, c: Command)
    ensures AppKept(w, w.(axis := Commanded(w.axis, c))) && AppKept(w, DepartureTaken(w, c).0)
    ensures AppKept(w, HomeCancelled(w))
  {
    EvaluateKeepsApp(Published(w.(axis := Commanded(w.axis, c))));
  }

  lemma CommandKeepsApp(w: World, c: Command)
    ensures AppKept(w, CommandTaken(w, c).0)
  {
    if c.kind == EmergencyStop {
      EvaluateKeepsApp(Enforced(w.(safety := Stopped(w.safety, Now(w)))));
    } else if c.kind == Reset {
      EvaluateKeepsApp(w);
    } else if c.kind == Home {
      HomeKeepsApp(w);
    } else {
      CommandCases(w, c);
      MoveKeepsApp(w, c);
    }
  }

  lemma ControlKeepsApp(w: World, dt: real, now: Word)
    ensures AppKept(w, ControlUpdated(w, dt, now).0)
  {
    EvaluateKeepsApp(Published(w));
    if w.axis.m.data.state == Homing {
      var v := if HomingInterrupt(w.pins) then EvaluatedAndSynced(Published(w)) else w;
      SettleKeepsApp(v.(axis := HomingUpdated(v.axis, ReadPins(w.pins), now).0), now);
    }
  }

  lemma SettleKeepsApp(w: World, now: Word)
    ensures AppKept(w, HomingSettled(w, now))
  {
    EvaluateKeepsApp(Enforced(w.(safety := HomingTimedOut(w.safety, now))));
    EvaluateKeepsApp(Published(w.(safety := w.safety.(homeContact := true),
                                  aux := w.aux.(contactRaw := w.axis.encoder.raw))));
  }

  lemma FinishKeepsApp(w: World)
    requires w.cycle.Open?
    ensures AppKept(w, MotionFinished(w))
  {
    var v, c := Synced(w), w.cycle;
    EvaluateKeepsApp(w);
    ControlKeepsApp(v, c.dt, c.now);
    var (u, ok) := if c.sampled then ControlUpdated(v, c.dt, c.now) else (v, false);
    var s := if Active(v.axis.m.data.state) then MoreAborted(u.safety) else u.safety;
    EvaluateKeepsApp(IntegrityLost(u.(safety := s), c.now));
  }

  lemma StepKeepsApp(w: World, e: Event)
    requires Enabled(w, e)
    ensures w.app == Idle ==> Step(w, e).app == Idle
  {
    match e
    case SafetyCycle => EvaluateKeepsApp(w);
    case MotionSync => EvaluateKeepsApp(if w.cycle.sampled then w else SampleLost(w, w.cycle.before, w.cycle.now));
    case MotionReceive(c) => CommandKeepsApp(w, c);
    case MotionFinish => FinishKeepsApp(w);
    case _ =>
  }

  /** No attempt begins before startup has finished. */
  lemma HomingNeedsStartup(w: World, e: Event)
    requires Enabled(w, e) && Step(w, e).axis.m.data.state == Homing
    ensures w.axis.m.data.state == Homing || w.app == Idle
  {
    match e
    case SafetyCycle => EvaluateKeeps(w);
    case MotionSync => SyncSectionKeepsAttempt(w);
    case MotionFinish => FinishKeepsAttempt(w);
    case _ =>
  }

  lemma LossLatches(w: World)
    requires Inv(w) && w.cycle.Begun? && !w.cycle.sampled
    ensures MotionSynced(w).safety.internalActive
  {
    EvaluateKeeps(SampleLost(w, w.cycle.before, w.cycle.now));
  }

  lemma StartedStep(w: World, e: Event)
    requires Sound(w) && StartupOver(w) && Enabled(w, e)
    ensures StartupOver(Step(w, e))
  {
    var v := Step(w, e);
    StepKeepsApp(w, e);
    StepIsClassified(w, e);
    ResetNeedsIntegrity(w, e);
    CycleCarries(w, e);
    if v.axis.m.data.state == Homing {
      HomingNeedsStartup(w, e);
    }
    if v.safety.homeContact && !w.safety.homeContact {
      OnlyCompletionGrants(w, e);
      CompletionWasHoming(w);
    }
    if e.MotionSync? && !w.cycle.sampled {
      LossLatches(w);
    }
  }

  /** Only an update of a live attempt completes it. */
  lemma CompletionWasHoming(w: World)
    requires Inv(w) && w.cycle.Open?
    requires MotionFinished(w).axis.m.data.homing.completed != w.axis.m.data.homing.completed
    ensures w.axis.m.data.state == Homing && w.safety.state == Idle && w.cycle.sampled
  {
    var v, c := Synced(w), w.cycle;
    SyncKeeps(w);
    SyncIsQuiet(w);
    ControlKeeps(v, c.dt, c.now);
    if v.axis.m.data.state != Homing {
      MoveCompletesNoHome(v, c.dt, c.now);
    }
    var (u, ok) := if c.sampled then ControlUpdated(v, c.dt, c.now) else (v, false);
    LostIsQuiet(u, Active(v.axis.m.data.state), c.now);
  }

  lemma MoveCompletesNoHome(v: World, dt: real, now: Word)
    requires Inv(v) && v.axis.m.data.state != Homing
    ensures ControlUpdated(v, dt, now).0.axis.m.data.homing.completed == v.axis.m.data.homing.completed
  {
    EvaluateAndSyncIsQuiet(Published(v));
    var x := if v.safety.homeContact then EvaluatedAndSynced(Published(v)) else v;
    UpdateReferences(x.axis, Finite(dt));
  }

  // Moves.

  /** Where a move from here leads. */
  function Goal(c: Command, position: int): int {
    if c.kind == MoveRel then position + c.value else c.value
  }

  /** The axis may begin to move or to home: startup is over, nothing is latched, Motion is idle; and the gate is
      open, or else closed because a completed HOME has left the axis on the switch. */
  predicate Ready(w: World) {
    && w.app == Idle && w.safety.state == Idle && w.axis.m.data.state == Idle
    && (!w.axis.gate.inhibited || (w.safety.homeContact && w.safety.sensed.healthy))
  }

  /** A move is on its way to its goal. It has dwelt for no update, and its loop remembers nothing but the present
      position. */
  predicate GoesTo(m: Motion, goal: int) {
    && m.data.state == Moving && m.data.target == goal && m.data.stableCycles == 0
    && m.pid.integral == 0.0 && m.pid.sampled && m.pid.previousMeasurement == m.data.position as real
  }

  lemma TrustedFeedback(w: World)
    requires Grounded(w) && w.cycle.Open? && w.safety.state == Idle
    ensures w.cycle.sampled && w.axis.m.data.feedbackValid
  {
    assert SafetyOk(w.safety);
  }

  /** What the controller makes of a move. */
  lemma ControllerTakesMove(a: Axis, c: Command)
    requires a.m.data.feedbackValid && (c.kind == MoveAbs || c.kind == MoveRel)
    ensures var m, b, goal := a.m, Commanded(a, c), Goal(c, a.m.data.position);
            && CommandResult(m, c) == (if m.data.state != Idle then InvalidState
                                       else if m.config.minimum <= goal <= m.config.maximum then Accepted
                                       else OutOfRange)
            && (CommandResult(m, c) == Accepted ==> GoesTo(b.m, goal) && b.m.config == m.config && b == a.(m := b.m))
            && (CommandResult(m, c) != Accepted ==> b == a)
  {
  }

  lemma DepartureTakesMove(w: World, c: Command)
    requires w.axis.m.data.feedbackValid && (c.kind == MoveAbs || c.kind == MoveRel)
    requires w.safety.state == Idle && w.safety.homeContact
    ensures var (v, r) := DepartureTaken(w, c);
            var m, goal := w.axis.m, Goal(c, w.axis.m.data.position);
            && r == (if goal <= m.data.position || m.data.state != Idle then InvalidState
                     else if m.config.minimum <= goal <= m.config.maximum then Accepted else OutOfRange)
            && (goal <= m.data.position ==> v == w)
            && (v.safety.state == Idle ==> if r == Accepted then GoesTo(v.axis.m, goal) else v.axis.m == m)
  {
    ControllerTakesMove(w.axis, c);
    EvaluateAndSyncCarries(Published(w.(axis := Commanded(w.axis, c))));
  }

  /** Which moves are accepted, in every reachable state: those that the axis is ready for, that lead away from
      the switch if HOME has left it there, and to a target in range. What is accepted begins. */
  lemma MoveIsAcceptedExactly(w: World, c: Command)
    requires Grounded(w) && w.cycle.Open? && (c.kind == MoveAbs || c.kind == MoveRel)
    ensures var (v, r) := ReceivedResult(w, c);
            var m, goal := w.axis.m, Goal(c, w.axis.m.data.position);
            var willing := Ready(w) && (w.safety.homeContact ==> goal > m.data.position);
            && r == (if !willing then InvalidState
                     else if m.config.minimum <= goal <= m.config.maximum then Accepted else OutOfRange)
            && (r != Accepted && (w.safety.homeContact ==> goal <= m.data.position) ==> v == w)
            && (v.safety.state == Idle ==> if r == Accepted then GoesTo(v.axis.m, goal) else v.axis.m == m)
            && (r == Accepted && !w.safety.homeContact ==> v == w.(axis := w.axis.(m := v.axis.m)))
  {
    if w.safety.state == Idle {
      TrustedFeedback(w);
      ControllerTakesMove(w.axis, c);
      if w.safety.homeContact {
        DepartureTakesMove(w, c);
      }
    }
  }

  /** HOME is accepted exactly when the axis is ready. An accepted HOME that nothing latches at once has begun:
      now, with the old reference given up, and the motor off. */
  lemma HomeIsAcceptedExactly(w: World, c: Command)
    requires Grounded(w) && w.cycle.Open? && c.kind == Home
    ensures var (v, r) := ReceivedResult(w, c);
            var h := v.axis.m.data.homing;
            && r == (if Ready(w) then Accepted else InvalidState)
            && (r == InvalidState ==> v.(published := w.published) == w)
            && (r == Accepted && v.safety.state == Idle ==>
                  && v.axis.m.data.state == Homing && h.result == HomeRunning && h.startedMs == Now(w)
                  && h.elapsedMs == 0 && !h.referenced && v.published == v.axis.m.data
                  && v.published.target == v.published.position && v.published.stableCycles == 0
                  && v.axis.gate.output == 0.0 && v.axis.gate.requested == 0.0 && v.axis.encoder == w.axis.encoder)
            && (r == Accepted && v.safety.state != Idle ==>
                  && v.axis.m.data.state == v.safety.state && v.axis.gate.output == 0.0
                  && h.result == (if v.safety.state == Estop then HomeEstopped else HomeFaulted))
  {
    if Ready(w) {
      TrustedFeedback(w);
      HomeBegins(w);
    }
  }

  lemma HomeBegins(w: World)
    requires Inv(w) && HomingStartResult(w.axis.m) == Accepted
    ensures var v := HomeTaken(w).0;
            var h := v.axis.m.data.homing;
            if v.safety.state == Idle then
              && v.axis.m.data.state == Homing && h.result == HomeRunning && h.startedMs == Now(w)
              && h.elapsedMs == 0 && !h.referenced && v.published == v.axis.m.data
              && v.published.target == v.published.position && v.published.stableCycles == 0
              && v.axis.gate.output == 0.0 && v.axis.gate.requested == 0.0 && v.axis.encoder == w.axis.encoder
            else
              && v.axis.m.data.state == v.safety.state && v.axis.gate.output == 0.0
              && h.result == (if v.safety.state == Estop then HomeEstopped else HomeFaulted)
  {
    var u := Published(w.(axis := HomingStarted(w.axis, Now(w))));
    var x := u.(aux := u.aux.(homeAt := w.clock));
    HomingStartKeeps(w.axis, Now(w));
    EvaluateEstablishes(x);
    assert EvaluatedWorld(x).axis.gate.requested == 0.0;
  }

  /** STOP heeds a closed gate only on the switch after HOME; with a latch it has nothing to do. */
  predicate Stoppable(w: World) {
    w.safety.state == Idle && (w.axis.m.data.state == Homing || !w.axis.gate.inhibited || Ready(w))
  }

  /** STOP is always accepted after startup, and leaves the motor off. It ends a move or a HOME unless the gate is
      closed, and then it does nothing: there is no drive to end. */
  lemma StopIsTaken(w: World, c: Command)
    requires Grounded(w) && w.cycle.Open? && c.kind == Stop && w.app == Idle
    ensures var (v, r) := ReceivedResult(w, c);
            var before, after := w.axis.m.data, v.axis.m.data;
            && r == Accepted && v.axis.gate.output == 0.0 && v.axis.gate.inhibited == w.axis.gate.inhibited
            && v.safety.state == w.safety.state && v.axis.m.config == w.axis.m.config
            && (!Stoppable(w) ==> v == w)
            && (Stoppable(w) ==>
                  && v.axis.gate.requested == 0.0 && after.pwm == 0.0 && after.pidOutput == 0.0
                  && v.axis.m.pid.integral == 0.0 && !v.axis.m.pid.sampled
                  && (if before.state == Moving || before.state == Homing
                      then after.state == Stopping && after.stableCycles == 0 else after.state == before.state)
                  && (before.state == Homing ==> after.homing.result == HomeStopped && v.published == after))
  {
    if w.safety.state == Idle {
      TrustedFeedback(w);
    }
  }

  /** ESTOP latches whatever the state, takes a running HOME with it, and closes the gate. */
  lemma EstopIsTaken(w: World, c: Command)
    requires Inv(w) && w.cycle.Open? && c.kind == EmergencyStop && w.app == Idle
    ensures var (v, r) := ReceivedResult(w, c);
            && r == Accepted && v.safety.state == Estop && v.axis.m.data.state == Estop && !v.safety.homeContact
            && v.axis.gate.inhibited && v.axis.gate.output == 0.0
            && v.axis.m.data.target == v.axis.m.data.position && v.axis.m.data.pwm == 0.0
            && (w.axis.m.data.state == Homing ==> v.axis.m.data.homing.result == HomeEstopped)
  {
    var u := w.(safety := Stopped(w.safety, Now(w)));
    EnforceEstablishes(u);
    SyncCarries(Enforced(u));
  }

  /** The rest changes nothing: SET_SPEED, STATUS, HELP, and every command before startup has finished. */
  lemma OthersChangeNothing(w: World, c: Command)
    requires Grounded(w) && w.cycle.Open?
    requires c.kind == SetSpeed || c.kind == Status || c.kind == Help || w.app != Idle
    ensures var (v, r) := ReceivedResult(w, c);
            && v == w && (r == InvalidState || r == NotImplemented)
            && (c.kind == Status || c.kind == Help ==> r == NotImplemented)
            && (c.kind == SetSpeed ==>
                  (r == NotImplemented <==> w.app == Idle && Stoppable(w) && w.axis.m.data.state != Homing))
  {
    if w.safety.state == Idle {
      TrustedFeedback(w);
    }
  }

  // Targets over runs.

  lemma AcceptanceIsBounded(w: World, c: Command)
    requires Grounded(w) && MoveAccepted(w, MotionReceive(c)) && UnderWay(MotionReceived(w, c))
    ensures Bounded(MotionReceived(w, c))
  {
    MoveIsAcceptedExactly(w, c);
    AcceptanceStartsAtZero(w, c);
    SyncCarries(ReceivedResult(w, c).0);
    assert ValidConfig(w.axis.m.config);
  }

  lemma BoundedStep(w: World, e: Event)
    requires Grounded(w) && Enabled(w, e)
    ensures Bounded(Step(w, e))
    ensures UnderWay(w) && UnderWay(Step(w, e)) ==> Step(w, e).axis.m.data.target == w.axis.m.data.target
    ensures !UnderWay(w) && UnderWay(Step(w, e)) ==> MoveAccepted(w, e)
  {
    StepBalances(w, e);
    if UnderWay(w) {
      MoveStep(w, e);
    } else if MoveAccepted(w, e) && UnderWay(Step(w, e)) {
      AcceptanceIsBounded(w, e.command);
    }
  }

  lemma GroundedStep(w: World, e: Event)
    requires Grounded(w) && Enabled(w, e)
    ensures Grounded(Step(w, e))
  {
    SoundStep(w, e);
    StartedStep(w, e);
    BoundedStep(w, e);
  }

  lemma ReachableIsGrounded(w: World)
    requires Reachable(w)
    ensures Grounded(w)
  {
    var ws: seq<World>, es: seq<Event> :| Run(ws, es) && Start(ws[0]) && ws[|es|] == w;
    StartIsSafe(ws[0]);
    for k := 0 to |es|
      invariant Grounded(ws[k])
    {
      GroundedStep(ws[k], es[k]);
    }
  }

  lemma GroundedRun(ws: seq<World>, es: seq<Event>, n: nat)
    requires Run(ws, es) && Reachable(ws[0]) && n <= |es|
    ensures Grounded(ws[n])
  {
    ReachableIsGrounded(ws[0]);
    for k := 0 to n
      invariant Grounded(ws[k])
    {
      GroundedStep(ws[k], es[k]);
    }
  }

  /** In every reachable state in which the axis moves, its target is within the limits. */
  lemma TargetsAreInRange(w: World)
    requires Reachable(w) && w.axis.m.data.state == Moving
    ensures w.axis.m.config.minimum <= w.axis.m.data.target <= w.axis.m.config.maximum
  {
    ReachableIsGrounded(w);
  }

  // STOP over runs.

  /** Motion neither moves nor homes. */
  predicate Still(w: World) {
    w.axis.m.data.state != Moving && w.axis.m.data.state != Homing
  }

  /** A move or a HOME is accepted. */
  predicate Starts(w: World, e: Event) {
    && e.MotionReceive? && w.cycle.Open? && ReceivedResult(w, e.command).1 == Accepted
    && (e.command.kind == MoveAbs || e.command.kind == MoveRel || e.command.kind == Home)
  }

  /** A section that starts nothing, and drives nothing. */
  predicate StaysStill(w: World, v: World) {
    Still(w) ==> Still(v) && (w.axis.gate.output == 0.0 ==> v.axis.gate.output == 0.0)
  }

  lemma EvaluateStaysStill(w: World)
    ensures StaysStill(w, EvaluatedWorld(w)) && StaysStill(w, Synced(w)) && StaysStill(w, EvaluatedAndSynced(w))
    ensures StaysStill(w, Enforced(w))
  {
  }

  lemma CommandStaysStill(w: World, c: Command)
    requires w.cycle.Open? && w.app == Idle && c.kind != Status && c.kind != Help && !Starts(w, MotionReceive(c))
    ensures StaysStill(w, CommandTaken(w, c).0)
  {
    if c.kind == EmergencyStop {
      EvaluateStaysStill(w.(safety := Stopped(w.safety, Now(w))));
      EvaluateStaysStill(Enforced(w.(safety := Stopped(w.safety, Now(w)))));
    } else if c.kind == Reset {
      EvaluateStaysStill(w);
    } else if c.kind == Home {
      assert HomeTaken(w).1 != Accepted ==> StaysStill(w, HomeTaken(w).0);
    } else {
      CommandCases(w, c);
      EvaluateStaysStill(Published(w.(axis := Commanded(w.axis, c))));
    }
  }

  /** An update of a controller that neither moves nor homes leaves the motor off, whatever it was. */
  lemma UpdateStops(a: Axis, dt: Float)
    requires a.m.data.state != Moving && a.m.data.state != Homing
    ensures var b := MotionUpdated(a, dt).0;
            b.gate.output == 0.0 && b.m.data.state != Moving && b.m.data.state != Homing
  {
  }

  lemma FinishStops(w: World)
    requires Inv(w) && w.cycle.Open? && Still(w)
    ensures Still(MotionFinished(w)) && MotionFinished(w).axis.gate.output == 0.0
  {
    var v, c := Synced(w), w.cycle;
    SyncKeeps(w);
    EvaluateStaysStill(w);
    ControlKeeps(v, c.dt, c.now);
    EvaluateStaysStill(Published(v));
    var x := if v.safety.homeContact then EvaluatedAndSynced(Published(v)) else v;
    UpdateStops(x.axis, Finite(c.dt));
    var (u, ok) := if c.sampled then ControlUpdated(v, c.dt, c.now) else (v, false);
    LostStops(u, Active(v.axis.m.data.state), c.now);
  }

  lemma LostStops(u: World, active: bool, now: Word)
    requires Inv(u) && Still(u)
    ensures Still(UpdateLost(u, active, now)) && UpdateLost(u, active, now).axis.gate.output == 0.0
  {
    var v := u.(safety := InternalFailed(if active then MoreAborted(u.safety) else u.safety, now));
    EnforceEstablishes(v);
    EvaluateStaysStill(Enforced(v));
  }

  lemma StillStep(w: World, e: Event)
    requires Inv(w) && Enabled(w, e) && Still(w) && !Starts(w, e)
    ensures Still(Step(w, e))
    ensures w.axis.gate.output == 0.0 && !e.StaleSet? ==> Step(w, e).axis.gate.output == 0.0
    ensures e.MotionFinish? ==> Step(w, e).axis.gate.output == 0.0
  {
    match e
    case SafetyCycle => EvaluateStaysStill(w);
    case MotionSync => SyncStaysStill(w);
    case MotionReceive(c) => ReceiveStaysStill(w, c);
    case MotionFinish => FinishStops(w);
    case _ =>
  }

  lemma SyncStaysStill(w: World)
    requires w.cycle.Begun?
    ensures StaysStill(w, MotionSynced(w))
  {
    var v := if w.cycle.sampled then w else SampleLost(w, w.cycle.before, w.cycle.now);
    EvaluateStaysStill(v);
  }

  lemma ReceiveStaysStill(w: World, c: Command)
    requires w.cycle.Open? && !Starts(w, MotionReceive(c))
    ensures StaysStill(w, MotionReceived(w, c))
  {
    if w.app == Idle && c.kind != Status && c.kind != Help {
      CommandStaysStill(w, c);
    }
  }

  /** STOP is for good. Over every run from a STOP that ends a move or a HOME, until a move or a HOME is
      accepted: the axis neither moves nor homes; each update leaves the motor off, whatever stale requests have
      come between; and without such requests it is off all the time. */
  lemma StopHolds(ws: seq<World>, es: seq<Event>, n: nat)
    requires Run(ws, es) && 1 <= n <= |es| && Reachable(ws[0])
    requires es[0].MotionReceive? && es[0].command.kind == Stop && ws[0].app == Idle && Stoppable(ws[0])
    requires forall k | 0 <= k < n :: !Starts(ws[k], es[k])
    ensures Still(ws[n])
    ensures es[n - 1].MotionFinish? ==> ws[n].axis.gate.output == 0.0
    ensures (forall k | 0 <= k < n :: !es[k].StaleSet?) ==> ws[n].axis.gate.output == 0.0
  {
    ReachableIsGrounded(ws[0]);
    StopIsTaken(ws[0], es[0].command);
    assert ws[1] == Step(ws[0], es[0]);
    StepKeepsInv(ws[0], es[0]);
    for k := 1 to n
      invariant Inv(ws[k]) && Still(ws[k])
      invariant es[k - 1].MotionFinish? ==> ws[k].axis.gate.output == 0.0
      invariant (forall j | 0 <= j < k :: !es[j].StaleSet?) ==> ws[k].axis.gate.output == 0.0
    {
      assert ws[k + 1] == Step(ws[k], es[k]);
      StepKeepsInv(ws[k], es[k]);
      StillStep(ws[k], es[k]);
    }
  }

  // Nothing is remembered between moves.

  /** Unless the axis moves, its loop holds no integral and no measurement. */
  predicate LoopEmpty(m: Motion) {
    m.data.state != Moving ==> m.pid.integral == 0.0 && !m.pid.sampled
  }

  /** An operation after which an empty loop is still empty. */
  predicate StaysEmpty(m: Motion, n: Motion) {
    LoopEmpty(m) ==> LoopEmpty(n)
  }

  lemma ControllerStaysEmpty(a: Axis, c: Command, dt: Float, inputs: Inputs, now: Word)
    ensures StaysEmpty(a.m, Sampled(a, dt).m) && StaysEmpty(a.m, Commanded(a, c).m)
    ensures StaysEmpty(a.m, HomingStarted(a, now).m) && StaysEmpty(a.m, HomingUpdated(a, inputs, now).0.m)
  {
  }

  lemma UpdateStaysEmpty(a: Axis, dt: Float)
    ensures StaysEmpty(a.m, MotionUpdated(a, dt).0.m)
  {
    if a.m.data.state == Moving {
      CompletionCounts(a.m);
    }
  }

  lemma EvaluateStaysEmpty(w: World)
    ensures StaysEmpty(w.axis.m, EvaluatedWorld(w).axis.m) && StaysEmpty(w.axis.m, Synced(w).axis.m)
    ensures StaysEmpty(w.axis.m, EvaluatedAndSynced(w).axis.m)
  {
  }

  lemma CommandStaysEmpty(w: World, c: Command)
    ensures StaysEmpty(w.axis.m, CommandTaken(w, c).0.axis.m)
  {
    if c.kind == EmergencyStop {
      EvaluateStaysEmpty(Enforced(w.(safety := Stopped(w.safety, Now(w)))));
    } else if c.kind == Home {
      HomeStaysEmpty(w);
    } else if c.kind != Reset {
      CommandCases(w, c);
      MoveStaysEmpty(w, c);
    }
  }

  lemma HomeStaysEmpty(w: World)
    ensures StaysEmpty(w.axis.m, HomeTaken(w).0.axis.m)
  {
    ControllerStaysEmpty(w.axis, Command(Home, 0), NotFinite, NO_INPUTS, Now(w));
    var v := Published(w.(axis := HomingStarted(w.axis, Now(w))));
    EvaluateStaysEmpty(v.(aux := v.aux.(homeAt := w.clock)));
  }

  lemma MoveStaysEmpty(w: World, c: Command)
    ensures StaysEmpty(w.axis.m, Commanded(w.axis, c).m) && StaysEmpty(w.axis.m, DepartureTaken(w, c).0.axis.m)
    ensures StaysEmpty(w.axis.m, HomeCancelled(w).axis.m)
  {
    ControllerStaysEmpty(w.axis, c, NotFinite, NO_INPUTS, Now(w));
    EvaluateStaysEmpty(Published(w.(axis := Commanded(w.axis, c))));
  }

  lemma SettleStaysEmpty(w: World, now: Word)
    ensures StaysEmpty(w.axis.m, HomingSettled(w, now).axis.m)
  {
    EvaluateStaysEmpty(Enforced(w.(safety := HomingTimedOut(w.safety, now))));
  }

  lemma ControlStaysEmpty(w: World, dt: real, now: Word)
    ensures StaysEmpty(w.axis.m, ControlUpdated(w, dt, now).0.axis.m)
  {
    EvaluateStaysEmpty(Published(w));
    if w.axis.m.data.state == Homing {
      var v := if HomingInterrupt(w.pins) then EvaluatedAndSynced(Published(w)) else w;
      ControllerStaysEmpty(v.axis, Command(Home, 0), NotFinite, ReadPins(w.pins), now);
      SettleStaysEmpty(v.(axis := HomingUpdated(v.axis, ReadPins(w.pins), now).0), now);
    } else {
      var v := if w.safety.homeContact then EvaluatedAndSynced(Published(w)) else w;
      UpdateStaysEmpty(v.axis, Finite(dt));
    }
  }

  lemma FinishStaysEmpty(w: World)
    requires w.cycle.Open?
    ensures StaysEmpty(w.axis.m, MotionFinished(w).axis.m)
  {
    var v, c := Synced(w), w.cycle;
    EvaluateStaysEmpty(w);
    ControlStaysEmpty(v, c.dt, c.now);
    var (u, ok) := if c.sampled then ControlUpdated(v, c.dt, c.now) else (v, false);
    var s := if Active(v.axis.m.data.state) then MoreAborted(u.safety) else u.safety;
    EvaluateStaysEmpty(IntegrityLost(u.(safety := s), c.now));
  }

  lemma SyncSectionStaysEmpty(w: World)
    requires w.cycle.Begun?
    ensures StaysEmpty(w.axis.m, MotionSynced(w).axis.m)
  {
    EvaluateStaysEmpty(if w.cycle.sampled then w else SampleLost(w, w.cycle.before, w.cycle.now));
  }

  lemma StepStaysEmpty(w: World, e: Event)
    requires Enabled(w, e)
    ensures StaysEmpty(w.axis.m, Step(w, e).axis.m)
  {
    match e
    case SafetyCycle => EvaluateStaysEmpty(w);
    case MotionBegin =>
      ControllerStaysEmpty(AppStepped(w).axis, Command(Stop, 0), Finite(Gap(w) as real / 1000.0), NO_INPUTS, 0);
    case MotionSync => SyncSectionStaysEmpty(w);
    case MotionReceive(c) => CommandStaysEmpty(w, c);
    case MotionFinish => FinishStaysEmpty(w);
    case _ =>
  }

  /** In every reachable state in which the axis does not move, its loop is empty: however a move has ended, and
      whatever a HOME or a latch has done, nothing of it is left for the next. */
  lemma LoopIsEmptyAtRest(w: World)
    requires Reachable(w) && w.axis.m.data.state != Moving
    ensures w.axis.m.pid.integral == 0.0 && !w.axis.m.pid.sampled
  {
    var ws: seq<World>, es: seq<Event> :| Run(ws, es) && Start(ws[0]) && ws[|es|] == w;
    for k := 0 to |es|
      invariant LoopEmpty(ws[k].axis.m)
    {
      StepStaysEmpty(ws[k], es[k]);
    }
  }
}
