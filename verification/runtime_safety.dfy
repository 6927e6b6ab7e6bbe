/** Safety of every interleaving: what each atomic section keeps, and what follows in every reachable state. */
module RuntimeSafety {
  import opened Words
  import opened Floats
  import opened CommandTypes
  import opened MotorGate
  import opened PidControl
  import opened MotionControl
  import opened SafetyPolicy
  import opened SafetyRuns
  import opened RuntimeModel

  // The invariant.

  predicate ControllerOk(m: Motion) {
    && ValidConfig(m.config) && m.pid.config == m.config.pid && PidOk(m.pid)
    && (m.data.state == Homing ==> m.data.homing.result == HomeRunning)
  }

  /** What each part keeps on its own. */
  predicate Core(w: World) {
    GateOk(w.axis.gate) && SafetyOk(w.safety) && w.axis.encoder.initialized
  }

  /** The policy permits drive, judged on the inputs it last evaluated. */
  predicate Permitted(s: Safety) {
    && s.state == Idle && s.sensed.healthy && s.sensed.valid
    && !s.sensed.inputs.estop && !s.sensed.inputs.positiveLimit
    && (s.sensed.inputs.negativeLimit ==> s.homeContact)
  }

  /** How the gate and the policy are tied to each other. */
  predicate Bound(s: Safety, g: Gate) {
    && (s.homeContact ==>
          s.sensed.valid && s.sensed.inputs.negativeLimit && !s.sensed.inputs.estop && !s.sensed.inputs.positiveLimit)
    && g.negativeBlocked == s.homeContact
    && (!g.inhibited ==> Permitted(s))
  }

  predicate Supervised(w: World) {
    Core(w) && Bound(w.safety, w.axis.gate)
  }

  predicate Inv(w: World) {
    Supervised(w) && ControllerOk(w.axis.m)
  }

  // Axis operations reach the gate only through requests and disables.

  /** The latches of the gate are as they were, and it is still sound. */
  predicate GateKept(g: Gate, h: Gate) {
    h.inhibited == g.inhibited && h.negativeBlocked == g.negativeBlocked && (GateOk(g) ==> GateOk(h))
  }

  /** An axis operation: sound controller, same latches, encoder still running. */
  predicate AxisKept(a: Axis, b: Axis) {
    && GateKept(a.gate, b.gate)
    && (a.encoder.initialized ==> b.encoder.initialized)
    && (ControllerOk(a.m) ==> ControllerOk(b.m))
  }

  lemma SampleKeeps(a: Axis, dt: Float)
    ensures AxisKept(a, Sampled(a, dt))
  {
  }

  lemma CommandKeeps(a: Axis, c: Command)
    ensures AxisKept(a, Commanded(a, c))
  {
  }

  lemma UpdateKeeps(a: Axis, dt: Float)
    ensures AxisKept(a, MotionUpdated(a, dt).0)
  {
    if a.m.data.feedbackValid && UsableStep(dt) {
      var m := Dwelled(a.m);
      if m.data.state == Moving {
        DriveKeeps(a.(m := m), dt.value);
      }
    }
  }

  lemma DriveKeeps(a: Axis, dt: real)
    requires dt > 0.0 && a.m.data.state == Moving
    ensures AxisKept(a, Driven(a, dt).0)
  {
  }

  lemma HomingStartKeeps(a: Axis, now: Word)
    ensures AxisKept(a, HomingStarted(a, now))
  {
  }

  lemma HomingKeeps(a: Axis, inputs: Inputs, now: Word)
    ensures var (b, ok) := HomingUpdated(a, inputs, now);
            && GateKept(a.gate, b.gate) && (a.encoder.initialized ==> b.encoder.initialized)
            && (ControllerOk(a.m) ==>
                  && ControllerOk(b.m.(data := b.m.data.(state := Idle)))
                  && (ControllerOk(b.m) || (ok && b.m.data.homing.result == HomeTimeout)))
  {
  }

  lemma AxisPreservesInv(w: World, a: Axis)
    requires Inv(w) && AxisKept(w.axis, a)
    ensures Inv(w.(axis := a))
  {
  }

  // Enforcement ties the gate to the policy.

  lemma EvaluateEstablishes(w: World)
    requires Core(w)
    ensures Supervised(EvaluatedWorld(w))
    ensures EvaluatedWorld(w).axis.m == w.axis.m && EvaluatedWorld(w).axis.encoder == w.axis.encoder
  {
    ObserveKeepsLatches(w.safety, Observed(w));
  }

  lemma EnforceEstablishes(w: World)
    requires Core(w) && w.safety.state != Idle
    ensures Supervised(Enforced(w)) && Enforced(w).axis.gate.output == 0.0
    ensures Enforced(w).axis.m == w.axis.m && Enforced(w).safety.state == w.safety.state
  {
  }

  /** A controller that is sound, or that becomes sound once synchronisation has taken it out of its state. */
  predicate SoundAfterSync(w: World) {
    ControllerOk(w.axis.m) || (w.safety.state != Idle && ControllerOk(w.axis.m.(data := w.axis.m.data.(state := Idle))))
  }

  lemma SyncKeeps(w: World)
    requires Supervised(w) && SoundAfterSync(w)
    ensures Inv(Synced(w))
    ensures Synced(w).axis.m.data.state == Homing ==> Synced(w).safety.state == Idle
  {
  }

  lemma EvaluateAndSyncKeeps(w: World)
    requires Core(w) && ControllerOk(w.axis.m)
    ensures Inv(EvaluatedAndSynced(w))
    ensures EvaluatedAndSynced(w).axis.m.data.state == Homing ==> EvaluatedAndSynced(w).safety.state == Idle
  {
    EvaluateEstablishes(w);
    SyncKeeps(EvaluatedWorld(w));
  }

  // Commands.

  lemma StopKeeps(w: World)
    requires Inv(w)
    ensures Inv(StopLatched(w))
  {
    var v := w.(safety := Stopped(w.safety, Now(w)));
    EnforceEstablishes(v);
    SyncKeeps(Enforced(v));
  }

  lemma ResetKeeps(w: World)
    requires Inv(w)
    ensures Inv(ResetTaken(w).0)
  {
    EvaluateEstablishes(w);
    StepKeepsLatches(EvaluatedWorld(w).safety, Recover);
  }

  lemma HomeKeeps(w: World)
    requires Inv(w)
    ensures Inv(HomeTaken(w).0)
  {
    HomingStartKeeps(w.axis, Now(w));
    var v := Published(w.(axis := HomingStarted(w.axis, Now(w))));
    EvaluateAndSyncKeeps(v.(aux := v.aux.(homeAt := w.clock)));
  }

  lemma CancelKeeps(w: World)
    requires Inv(w)
    ensures Inv(HomeCancelled(w))
  {
  }

  lemma DepartureKeeps(w: World, c: Command)
    requires Inv(w)
    ensures Inv(DepartureTaken(w, c).0)
  {
    CommandKeeps(w.axis, c);
    EvaluateAndSyncKeeps(Published(w.(axis := Commanded(w.axis, c))));
  }

  lemma CommandTakenKeeps(w: World, c: Command)
    requires Inv(w)
    ensures Inv(CommandTaken(w, c).0)
  {
    if c.kind == EmergencyStop {
      StopKeeps(w);
    } else if c.kind == Reset {
      ResetKeeps(w);
    } else if c.kind == Home || c.kind == Stop {
      HomeKeeps(w);
      CancelKeeps(w);
      CommandKeeps(w.axis, c);
    } else {
      DepartureKeeps(w, c);
      CommandKeeps(w.axis, c);
    }
  }

  // The control update.

  lemma SettleKeeps(w: World, now: Word)
    requires Supervised(w) && w.safety.state == Idle
    requires ControllerOk(w.axis.m.(data := w.axis.m.data.(state := Idle)))
    requires ControllerOk(w.axis.m) || w.axis.m.data.homing.result == HomeTimeout
    ensures Inv(HomingSettled(w, now))
  {
    match w.axis.m.data.homing.result
    case HomeTimeout =>
      var v := w.(safety := HomingTimedOut(w.safety, now));
      EnforceEstablishes(v);
      SyncKeeps(Enforced(v));
    case HomeComplete =>
      EvaluateEstablishes(Published(w.(safety := w.safety.(homeContact := true),
                                       aux := w.aux.(contactRaw := w.axis.encoder.raw))));
    case _ =>
  }

  lemma HomingControlKeeps(w: World, now: Word)
    requires Inv(w) && w.axis.m.data.state == Homing && w.safety.state == Idle
    ensures Inv(HomingControl(w, now).0)
  {
    EvaluateAndSyncKeeps(Published(w));
    var v := if HomingInterrupt(w.pins) then EvaluatedAndSynced(Published(w)) else w;
    HomingKeeps(v.axis, ReadPins(w.pins), now);
    if v.safety.state == Idle {
      var (a, ok) := HomingUpdated(v.axis, ReadPins(w.pins), now);
      if ok {
        SettleKeeps(v.(axis := a), now);
      }
    }
  }

  lemma ControlKeeps(w: World, dt: real, now: Word)
    requires Inv(w) && (w.axis.m.data.state == Homing ==> w.safety.state == Idle)
    ensures Inv(ControlUpdated(w, dt, now).0)
  {
    if w.axis.m.data.state == Homing {
      HomingControlKeeps(w, now);
    } else {
      EvaluateAndSyncKeeps(Published(w));
      var v := if w.safety.homeContact then EvaluatedAndSynced(Published(w)) else w;
      UpdateKeeps(v.axis, Finite(dt));
      AxisPreservesInv(v, MotionUpdated(v.axis, Finite(dt)).0);
    }
  }

  lemma IntegrityKeeps(w: World, now: Word)
    requires Core(w)
    ensures Supervised(IntegrityLost(w, now))
    ensures IntegrityLost(w, now).axis.m == w.axis.m && IntegrityLost(w, now).safety.state != Idle
  {
    StepKeepsLatches(w.safety, FailNow(now));
    EnforceEstablishes(w.(safety := InternalFailed(w.safety, now)));
  }

  // The atomic sections.

  lemma SyncedCycleKeeps(w: World)
    requires Inv(w) && w.cycle.Begun?
    ensures Inv(MotionSynced(w))
  {
    var c := w.cycle;
    if c.sampled {
      SyncKeeps(w);
    } else {
      var s := if Active(c.before) then MoreAborted(w.safety) else w.safety;
      var a := if c.before == Homing then HomingAborted(w.axis, HomeFaulted) else w.axis;
      var v := w.(safety := s, axis := a);
      IntegrityKeeps(v, c.now);
      SyncKeeps(SampleLost(w, c.before, c.now));
    }
  }

  lemma UpdateLostKeeps(w: World, active: bool, now: Word)
    requires Inv(w)
    ensures Inv(UpdateLost(w, active, now))
  {
    var v := w.(safety := if active then MoreAborted(w.safety) else w.safety);
    IntegrityKeeps(v, now);
    SyncKeeps(IntegrityLost(v, now));
  }

  lemma FinishKeeps(w: World)
    requires Inv(w) && w.cycle.Open?
    ensures Inv(MotionFinished(w))
  {
    var c := w.cycle;
    var v := Synced(w);
    SyncKeeps(w);
    ControlKeeps(v, c.dt, c.now);
    var (u, ok) := if c.sampled then ControlUpdated(v, c.dt, c.now) else (v, false);
    if !ok {
      UpdateLostKeeps(u, Active(v.axis.m.data.state), c.now);
    }
  }

  lemma BeginKeeps(w: World)
    requires Inv(w) && w.cycle.Resting?
    ensures Inv(MotionBegun(w))
  {
    var v := AppStepped(w);
    SampleKeeps(v.axis, Finite(Gap(w) as real / 1000.0));
  }

  lemma ReceiveKeeps(w: World, c: Command)
    requires Inv(w) && w.cycle.Open?
    ensures Inv(MotionReceived(w, c))
  {
    CommandTakenKeeps(w, c);
  }

  /** Nothing the environment does, stale motor requests included, breaks the invariant. */
  lemma EnvironmentKeeps(w: World, e: Event)
    requires Inv(w) && Enabled(w, e)
    requires e.Beat? || e.Tick? || e.SetPins? || e.SetRaw? || e.StaleSet? || e.StaleDisable?
    ensures Inv(Step(w, e))
  {
  }

  lemma StepKeepsInv(w: World, e: Event)
    requires Inv(w) && Enabled(w, e)
    ensures Inv(Step(w, e))
  {
    match e
    case SafetyCycle => EvaluateEstablishes(w);
    case MotionBegin => BeginKeeps(w);
    case MotionSync => SyncedCycleKeeps(w);
    case MotionReceive(c) => ReceiveKeeps(w, c);
    case MotionFinish => FinishKeeps(w);
    case _ => EnvironmentKeeps(w, e);
  }

  lemma StartIsSafe(w: World)
    requires Start(w)
    ensures Inv(w)
  {
  }

  lemma {:induction false} RunKeepsInv(ws: seq<World>, es: seq<Event>, n: nat)
    requires Run(ws, es) && n <= |es| && Inv(ws[0])
    ensures Inv(ws[n])
  {
    if n > 0 {
      RunKeepsInv(ws, es, n - 1);
      StepKeepsInv(ws[n - 1], es[n - 1]);
    }
  }

  /** What supervised drive means: the output is nonzero only while nothing is latched, every critical
      task was fresh at the last evaluation, the inputs it evaluated were good, without E-stop or
      positive limit, and, on the negative switch, only under the allowance of a completed HOME and
      away from the switch. */
  predicate DriveIsSupervised(w: World) {
    w.axis.gate.output != 0.0 ==>
      var s := w.safety;
      && s.state == Idle && s.sensed.healthy && s.sensed.valid
      && !s.sensed.inputs.estop && !s.sensed.inputs.positiveLimit
      && (s.sensed.inputs.negativeLimit ==> s.homeContact && w.axis.gate.output > 0.0)
      && -1.0 <= w.axis.gate.output <= 1.0 && w.axis.gate.output == w.axis.gate.requested
  }

  /** The contact allowance and the directional guard of the driver are one thing. */
  predicate AllowanceIsGuarded(w: World) {
    && (w.safety.homeContact <==> w.axis.gate.negativeBlocked)
    && (w.safety.homeContact ==>
          && w.safety.state == Idle && w.safety.sensed.valid && w.safety.sensed.inputs.negativeLimit
          && w.axis.gate.output >= 0.0)
  }

  /** In every reachable state of every interleaving of Safety, Motion, commands, heartbeats and the
      environment, including arbitrary stale motor requests at any moment. */
  lemma EveryReachableStateIsSafe(w: World)
    requires Reachable(w)
    ensures DriveIsSupervised(w) && AllowanceIsGuarded(w)
    ensures w.safety.state != Idle || !w.safety.sensed.healthy ==> w.axis.gate.inhibited && w.axis.gate.output == 0.0
    ensures w.safety.state == Idle ==> w.safety.faults.active.code == NoFault
    ensures w.safety.state == Fault ==> w.safety.faults.active.code != NoFault
  {
    var ws: seq<World>, es: seq<Event> :| Run(ws, es) && Start(ws[0]) && ws[|es|] == w;
    StartIsSafe(ws[0]);
    RunKeepsInv(ws, es, |es|);
  }
}
