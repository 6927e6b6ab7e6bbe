/** The adapter and the task bodies as the firmware runs them, section by section, each proved against
    its step of the transition system. */
module RuntimeAdapter {
  import opened Words
  import opened Floats
  import opened CommandTypes
  import opened MotorGate
  import opened MotionControl
  import opened SafetyPolicy
  import opened RuntimeModel
  import opened RuntimeSafety

  /** The invariant of every interleaving, through a section. */
  predicate KeepsInv(w: World, v: World) {
    Inv(w) ==> Inv(v)
  }

  lemma SectionKeepsInv(w: World, e: Event)
    requires Enabled(w, e)
    ensures KeepsInv(w, Step(w, e))
  {
    if Inv(w) {
      StepKeepsInv(w, e);
    }
  }

  /** The second half of the opening section. */
  function SampledCycle(v: World, before: AppState): World {
    var dt := Gap(v) as real / 1000.0;
    v.(axis := Sampled(v.axis, Finite(dt)),
       cycle := Begun(Now(v), dt, SampleOk(v.axis, Finite(dt)), before),
       aux := v.aux.(capturedAt := v.clock))
  }

  lemma BeginInTwo(w: World)
    ensures MotionBegun(w) == SampledCycle(AppStepped(w), AppStepped(w).axis.m.data.state)
  {
  }

  class Runtime {
    const safety: SafetyManager
    const motion: Controller
    var published: Snapshot
    var health: HealthTable
    var pins: Pins
    var clock: nat
    var app: AppState
    var first: bool
    var previousMs: Word
    var cycle: Cycle
    ghost var aux: Aux

    ghost function View(): World
      reads this, safety, motion, motion.pid, motion.motor, motion.encoder
    {
      World(motion.View(), safety.View(), published, health, pins, clock, app, first, previousMs, cycle, aux)
    }

    /** platform_init and runtime_init, on an axis that has just been configured. */
    constructor (motion: Controller, clock: nat, pins: Pins)
      requires ValidConfig(motion.config) && motion.View().m == Initial(motion.config)
      requires motion.View().gate == READY && motion.View().encoder.initialized
      modifies motion.motor
      ensures this.motion == motion && fresh(safety) && Start(View())
    {
      this.motion := motion;
      safety := new SafetyManager(Wrap(clock));
      published := BLANK;
      health := seq(3, _ => Health(0, 0, false));
      this.pins, this.clock := pins, clock;
      app, first, previousMs, cycle := Boot, true, 0, Resting;
      aux := Aux(clock, clock, [0, 0, 0], clock, clock, false, 0);
      new;
      motion.motor.Inhibit(true);
    }

    /** The guard first, then the latch, which zeroes the output only when it changes. */
    method FollowPolicy(unsafe: bool, guard: bool) returns (requested: real, tripped: bool)
      modifies motion.motor
      ensures motion.motor.View() == Followed(old(motion.motor.View()), unsafe, guard)
      ensures requested == old(motion.motor.requested) && tripped == (unsafe && !old(motion.motor.inhibited))
    {
      motion.motor.BlockNegative(guard);
      requested := motion.motor.requested;
      tripped := false;
      if unsafe != motion.motor.inhibited {
        tripped := unsafe;
        motion.motor.Inhibit(unsafe);
      }
    }

    method Enforce()
      modifies safety`account, motion.motor
      ensures View() == Enforced(old(View()))
    {
      var state := published.state;
      var contact := safety.sensed.valid && safety.sensed.inputs.negativeLimit;
      var homeStop := contact && (state == Homing || (safety.homeContact && state != Moving));
      var unsafe := safety.state != Idle || !safety.sensed.healthy || homeStop;
      assert unsafe == Unsafe(safety.View(), state);
      var requested, tripped := FollowPolicy(unsafe, safety.homeContact && contact);
      var a := safety.account;
      safety.account := a.(
        requestedPwm := requested,
        requestedAtTrip := if tripped then requested else a.requestedAtTrip,
        appliedPwm := motion.motor.output,
        zeroMs := if safety.state != Idle && a.zeroMs != safety.detectionMs then Wrap(clock) else a.zeroMs);
    }

    method Evaluate()
      modifies this`aux, safety, motion.motor
      ensures View() == EvaluatedWorld(old(View()))
    {
      var inputs := NO_INPUTS;
      var valid := pins.ready;
      if valid {
        inputs := pins.inputs;
      }
      var mask := 0;
      var now := Wrap(clock);
      for i := 0 to 3
        invariant mask == StaleMask(health, now, i)
      {
        if !(health[i].seen && Elapsed(now, health[i].lastMs) <= HEALTH_MAXIMUM_AGE_MS) {
          mask := mask + [1, 2, 4][i];
        }
      }
      var feedback := published;
      var ready, position := motion.encoder.GetCount(feedback.position);
      feedback := feedback.(feedbackValid := ready, position := position);
      safety.Evaluate(now, inputs, valid, feedback, motion.motor.output, mask);
      aux := aux.(evaluatedAt := clock, pinsSeen := true);
      Enforce();
    }

    method CountAborted()
      modifies safety`account
      ensures View() == old(View()).(safety := MoreAborted(old(View()).safety))
    {
      safety.account := safety.account.(abortedMoves := Wrap(safety.account.abortedMoves + 1));
    }

    method Sync()
      modifies safety`account, motion, motion.pid, motion.motor
      ensures View() == Synced(old(View()))
    {
      var state := safety.state;
      if state == Idle {
        return;
      }
      if motion.data.state == Moving || motion.data.state == Stopping || motion.data.state == Homing {
        CountAborted();
      }
      if motion.data.state == Homing {
        InterruptHome(if state == Estop then HomeEstopped else HomeFaulted);
      }
      Halt(state);
    }

    method InterruptHome(result: HomingResult)
      modifies motion, motion.pid, motion.motor
      ensures View() == old(View()).(axis := HomeInterrupted(old(View()).axis, result, Wrap(clock)))
    {
      var elapsed := Elapsed(Wrap(clock), motion.data.homing.startedMs);
      motion.data := motion.data.(homing := motion.data.homing.(elapsedMs := elapsed));
      motion.HomingAbort(result);
    }

    method Halt(state: AppState)
      modifies motion, motion.pid
      ensures View() == old(View()).(axis := Halted(old(View()).axis, state))
    {
      motion.data := motion.data.(state := state, target := motion.data.position);
      motion.data := motion.data.(pwm := 0.0, pidOutput := 0.0, stableCycles := 0);
      motion.pid.Reset();
    }

    /** The published record follows the controller, the policy judges it, the controller obeys. */
    method PublishAndEvaluate()
      modifies this`published, this`aux, safety, motion, motion.pid, motion.motor
      ensures View() == EvaluatedAndSynced(Published(old(View())))
    {
      published := motion.data;
      Evaluate();
      Sync();
    }

    method TakeReset() returns (result: MotionResult)
      modifies this`aux, safety, motion, motion.pid, motion.motor
      ensures (View(), result) == ResetTaken(old(View()))
    {
      if safety.state == Idle && motion.data.state != Idle {
        return InvalidState;
      }
      Evaluate();
      var ok := safety.Recover();
      if !ok {
        return InvalidState;
      }
      motion.motor.Disable();
      motion.motor.Inhibit(false);
      Halt(Idle);
      return Accepted;
    }

    method TakeHome() returns (result: MotionResult)
      modifies this`published, this`aux, safety, motion, motion.pid, motion.motor
      ensures (View(), result) == HomeTaken(old(View()))
    {
      result := motion.HomingBegin(Wrap(clock));
      published := motion.data;
      if result == Accepted {
        aux := aux.(homeAt := clock);
        Evaluate();
        Sync();
      }
    }

    method TakeDeparture(command: Command) returns (result: MotionResult)
      modifies this`published, this`aux, safety, motion, motion.pid, motion.motor
      ensures (View(), result) == DepartureTaken(old(View()), command)
    {
      var target: int := if command.kind == MoveRel then motion.data.position + command.value else command.value;
      if target <= motion.data.position {
        return InvalidState;
      }
      result := motion.Take(command);
      PublishAndEvaluate();
    }

    method CancelHome()
      modifies this`published, safety`account, motion, motion.pid, motion.motor
      ensures View() == HomeCancelled(old(View()))
    {
      InterruptHome(HomeStopped);
      CountAborted();
      motion.data := motion.data.(state := Stopping);
      published := motion.data;
    }

    method LatchStop()
      modifies safety, motion, motion.pid, motion.motor
      ensures View() == StopLatched(old(View()))
    {
      safety.EmergencyStop(Wrap(clock));
      Enforce();
      Sync();
    }

    /** STOP and the moves, when neither the policy nor the gate refuses them. */
    method TakeMotion(command: Command) returns (result: MotionResult)
      requires command.kind != EmergencyStop && command.kind != Reset && command.kind != Home
      requires safety.state == Idle && motion.data.state == Homing ==> command.kind != Stop
      requires ParkedHome(View()) || (safety.state == Idle && !motion.motor.inhibited)
      modifies this`published, this`aux, safety, motion, motion.pid, motion.motor
      ensures (View(), result) == CommandTaken(old(View()), command)
    {
      if motion.data.state == Homing {
        return InvalidState;
      }
      if safety.homeContact && (command.kind == MoveAbs || command.kind == MoveRel) {
        result := TakeDeparture(command);
        return;
      }
      result := motion.Take(command);
    }

    method TakeCommand(command: Command) returns (result: MotionResult)
      modifies this`published, this`aux, safety, motion, motion.pid, motion.motor
      ensures (View(), result) == CommandTaken(old(View()), command)
    {
      if command.kind == EmergencyStop {
        LatchStop();
        return Accepted;
      }
      if command.kind == Reset {
        result := TakeReset();
        return;
      }
      if safety.state == Idle && motion.data.state == Homing && command.kind == Stop {
        CancelHome();
        return Accepted;
      }
      if safety.state != Idle || motion.motor.inhibited {
        var parkedHome := safety.state == Idle && safety.sensed.healthy && safety.homeContact &&
          motion.data.state == Idle;
        if !parkedHome {
          return if command.kind == Stop then Accepted else InvalidState;
        }
      }
      if command.kind == Home {
        result := TakeHome();
        return;
      }
      result := TakeMotion(command);
    }

    method LatchTimeout(now: Word)
      modifies safety, motion, motion.pid, motion.motor
      ensures View() == Synced(Enforced(old(View()).(safety := HomingTimedOut(old(View()).safety, now))))
    {
      safety.TimeOutHoming(now);
      Enforce();
      Sync();
    }

    method GrantContact()
      modifies this`published, this`aux, safety, motion.motor
      ensures var w := old(View());
              View() == EvaluatedWorld(Published(w.(safety := w.safety.(homeContact := true),
                                                    aux := w.aux.(contactRaw := w.axis.encoder.raw))))
    {
      safety.homeContact := true;
      aux := aux.(contactRaw := motion.encoder.raw);
      published := motion.data;
      Evaluate();
    }

    method SettleHoming(now: Word)
      modifies this`published, this`aux, safety, motion, motion.pid, motion.motor
      ensures View() == HomingSettled(old(View()), now)
    {
      if motion.data.homing.result == HomeTimeout {
        LatchTimeout(now);
      } else if motion.data.homing.result == HomeComplete {
        GrantContact();
      }
    }

    method UpdateHoming(now: Word) returns (ok: bool)
      modifies this`published, this`aux, safety, motion, motion.pid, motion.motor, motion.encoder
      ensures (View(), ok) == HomingControl(old(View()), now)
    {
      var inputs := if pins.ready then pins.inputs else NO_INPUTS;
      if !pins.ready || inputs.estop || inputs.positiveLimit || inputs.negativeLimit {
        PublishAndEvaluate();
        if safety.state != Idle {
          return true;
        }
      }
      ok := motion.HomingUpdate(inputs, now);
      if !ok {
        return;
      }
      SettleHoming(now);
    }

    method UpdateControl(dt: real, now: Word) returns (ok: bool)
      modifies this`published, this`aux, safety, motion, motion.pid, motion.motor, motion.encoder
      ensures (View(), ok) == ControlUpdated(old(View()), dt, now)
    {
      if motion.data.state == Homing {
        ok := UpdateHoming(now);
        return;
      }
      if safety.homeContact {
        PublishAndEvaluate();
      }
      ok := motion.Update(Finite(dt));
    }

    method LoseIntegrity(now: Word)
      modifies safety, motion.motor
      ensures View() == IntegrityLost(old(View()), now)
    {
      safety.FailInternally(now);
      Enforce();
    }

    // The task bodies.

    method SafetyTaskCycle()
      modifies this`aux, safety, motion.motor
      ensures View() == Step(old(View()), SafetyCycle)
      ensures KeepsInv(old(View()), View())
    {
      EvaluateAndRefresh();
      SectionKeepsInv(old(View()), SafetyCycle);
    }

    method EvaluateAndRefresh()
      modifies this`aux, safety, motion.motor
      ensures View() == SafetyCycled(old(View()))
    {
      Evaluate();
      ghost var v := View();
      if safety.sensed.healthy {
        RefreshWatchdog();
      }
      assert v == EvaluatedWorld(old(View()));
    }

    /** The refresh itself has no effect on anything modelled here but its count. */
    method RefreshWatchdog()
      modifies safety`account
      ensures View() == old(View()).(safety := old(View()).safety.(account := old(View()).safety.account.(
                          watchdogRefreshes := Wrap(old(View()).safety.account.watchdogRefreshes + 1))))
    {
      safety.account := safety.account.(watchdogRefreshes := Wrap(safety.account.watchdogRefreshes + 1));
    }

    method Heartbeat(task: nat)
      requires Enabled(View(), Beat(task))
      modifies this`health, this`aux
      ensures View() == Step(old(View()), Beat(task))
      ensures KeepsInv(old(View()), View())
    {
      var h := health[task];
      h := h.(count := Wrap(h.count + 1));
      h := h.(lastMs := Wrap(clock));
      h := h.(seen := true);
      health := health[task := h];
      aux := aux.(beatAt := aux.beatAt[task := clock]);
      SectionKeepsInv(old(View()), Beat(task));
    }

    /** Startup takes one step per cycle, with the drive off. */
    method StepApplication()
      modifies this`app, motion.motor
      ensures View() == AppStepped(old(View()))
    {
      if app == Boot || app == Initializing {
        motion.motor.Disable();
        app := if app == Boot then Initializing else Idle;
      }
    }

    method CaptureAndSample()
      modifies this`cycle, this`aux, motion, motion.pid, motion.motor
      ensures View() == SampledCycle(old(View()), old(View()).axis.m.data.state)
    {
      var now := Wrap(clock);
      var gap := if first then MOTION_PERIOD_MS else Elapsed(now, previousMs);
      var dt := gap as real / 1000.0;
      var before := motion.data.state;
      var sampled := motion.Sample(Finite(dt));
      cycle := Begun(now, dt, sampled, before);
      aux := aux.(capturedAt := clock);
    }

    method BeginMotionCycle()
      requires Enabled(View(), MotionBegin)
      modifies this`app, this`cycle, this`aux, motion, motion.pid, motion.motor
      ensures View() == Step(old(View()), MotionBegin)
      ensures KeepsInv(old(View()), View())
    {
      StepApplication();
      CaptureAndSample();
      BeginInTwo(old(View()));
      SectionKeepsInv(old(View()), MotionBegin);
    }

    method SyncMotionCycle()
      requires Enabled(View(), MotionSync)
      modifies this`cycle, safety, motion, motion.pid, motion.motor
      ensures View() == Step(old(View()), MotionSync)
      ensures KeepsInv(old(View()), View())
    {
      var c := cycle;
      if !c.sampled {
        LoseSample(c.before, c.now);
      }
      Sync();
      cycle := Open(c.now, c.dt, c.sampled, 0);
      SectionKeepsInv(old(View()), MotionSync);
    }

    method LoseSample(before: AppState, now: Word)
      modifies safety, motion, motion.pid, motion.motor
      ensures View() == SampleLost(old(View()), before, now)
    {
      if before == Moving || before == Stopping || before == Homing {
        CountAborted();
      }
      if before == Homing {
        motion.HomingAbort(HomeFaulted);
      }
      LoseIntegrity(now);
    }

    method ReceiveCommand(command: Command) returns (result: MotionResult)
      requires Enabled(View(), MotionReceive(command))
      modifies this`published, this`aux, this`cycle, safety, motion, motion.pid, motion.motor
      ensures View() == Step(old(View()), MotionReceive(command))
      ensures KeepsInv(old(View()), View())
      ensures result == ReceivedResult(old(View()), command).1
    {
      result := NotImplemented;
      if command.kind != Status && command.kind != Help {
        result := InvalidState;
        if app == Idle {
          result := TakeCommand(command);
        }
      }
      cycle := cycle.(taken := cycle.taken + 1);
      SectionKeepsInv(old(View()), MotionReceive(command));
    }

    method CloseCycle(now: Word)
      modifies this`published, this`cycle, this`first, this`previousMs
      ensures View() == Published(old(View())).(cycle := Resting, first := false, previousMs := now)
    {
      published := motion.data;
      first := false;
      previousMs := now;
      cycle := Resting;
    }

    method FinishMotionCycle()
      requires Enabled(View(), MotionFinish)
      modifies this`published, this`aux, this`cycle, this`first, this`previousMs,
               safety, motion, motion.pid, motion.motor, motion.encoder
      ensures View() == Step(old(View()), MotionFinish)
      ensures KeepsInv(old(View()), View())
    {
      var c := cycle;
      Sync();
      RunUpdate(c);
      CloseCycle(c.now);
      SectionKeepsInv(old(View()), MotionFinish);
    }

    method RunUpdate(c: Cycle)
      requires c.Open?
      modifies this`published, this`aux, safety, motion, motion.pid, motion.motor, motion.encoder
      ensures View() == Settle(old(View()), c)
    {
      var active := motion.data.state == Moving || motion.data.state == Stopping || motion.data.state == Homing;
      var updated := false;
      if c.sampled {
        updated := UpdateControl(c.dt, c.now);
      }
      if !updated {
        LoseUpdate(active, c.now);
      }
    }

    method LoseUpdate(active: bool, now: Word)
      modifies safety, motion, motion.pid, motion.motor
      ensures View() == UpdateLost(old(View()), active, now)
    {
      if active {
        CountAborted();
      }
      LoseIntegrity(now);
      Sync();
    }
  }
}
