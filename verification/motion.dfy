/** Commands as the protocol delivers them to the Motion task. */
module CommandTypes {
  import opened Words

  datatype CommandType = MoveAbs | MoveRel | SetSpeed | Home | Stop | EmergencyStop | Reset | Status | Help

  datatype Command = Command(kind: CommandType, value: Count)
}

/** The position controller and the homing sequence. Both work on one axis: the controller's own
    record, the motor gate it drives and the encoder it reads. */
module MotionControl {
  import opened Words
  import opened Floats
  import opened CommandTypes
  import opened MotorGate
  import opened Encoders
  import opened PidControl

  datatype AppState = Boot | Initializing | Idle | Moving | Stopping | Fault | Estop | Homing

  datatype HomingResult =
    HomeNone | HomeRunning | HomeComplete | HomeStopped | HomeEstopped | HomeFaulted | HomeTimeout

  datatype MotionResult = Accepted | InvalidState | OutOfRange | NotImplemented | InputError

  datatype HomingSnapshot = HomingSnapshot(
    result: HomingResult, startedMs: Word, elapsedMs: Word, completed: Word, referenced: bool)

  datatype Snapshot = Snapshot(
    state: AppState,
    position: Count, target: Count,
    velocity: real, error: real, pidOutput: real, pwm: real,
    stableCycles: Word, completedMoves: Word,
    feedbackValid: bool,
    homing: HomingSnapshot)

  datatype MotionConfig = MotionConfig(
    pid: PidConfig, minimum: Count, maximum: Count,
    tolerance: real, completionVelocity: real, dwellCycles: Word)

  datatype Motion = Motion(config: MotionConfig, pid: Pid, data: Snapshot, previousCount: Count, sampled: bool)

  datatype Axis = Axis(m: Motion, gate: Gate, encoder: Encoder)

  const DEFAULT_CONFIG := MotionConfig(
    PidConfig(0.006, 0.0002, 0.0015, -0.8, 0.8, -0.005, 0.005),
    0, 5000, 3.0, 25.0, 20)

  const HOMING_PWM := -0.30
  const HOMING_TIMEOUT_MS := 40000

  /** What motion_init demands. */
  predicate ValidConfig(c: MotionConfig) {
    && -1000000 <= c.minimum < c.maximum <= 1000000
    && c.tolerance >= 0.0 && c.completionVelocity >= 0.0 && c.dwellCycles != 0
    && -1.0 <= c.pid.outputMin <= 0.0 <= c.pid.outputMax <= 1.0
    && ValidPid(c.pid)
  }

  /** A zeroed record. */
  const BLANK := Snapshot(Boot, 0, 0, 0.0, 0.0, 0.0, 0.0, 0, 0, false, HomingSnapshot(HomeNone, 0, 0, 0, false))

  function Initial(c: MotionConfig): Motion {
    Motion(c, Pid(c.pid, 0.0, 0.0, false), BLANK.(state := Idle), 0, false)
  }

  predicate UsableStep(dt: Float) {
    dt.Finite? && 0.0 < dt.value <= 1.0
  }

  /** A control failure: drive off, move cancelled, feedback no longer trusted. */
  function Failed(a: Axis): Axis {
    a.(m := a.m.(data := a.m.data.(state := Idle, feedbackValid := false, pwm := 0.0, pidOutput := 0.0,
                                   stableCycles := 0),
                 sampled := false, pid := Cleared(a.m.pid)),
       gate := Disabled(a.gate))
  }

  predicate SampleOk(a: Axis, dt: Float) {
    && UsableStep(dt) && a.encoder.initialized
    && (a.m.sampled ==> DeltaBits(Logical(a.encoder), a.m.previousCount) != AMBIGUOUS)
  }

  function EstimatedVelocity(m: Motion, count: Count, dt: real): real
    requires dt > 0.0
  {
    if m.sampled then SignedDelta(count, m.previousCount) as real / dt else 0.0
  }

  function Sampled(a: Axis, dt: Float): Axis {
    if !SampleOk(a, dt) then Failed(a)
    else
      var count := Logical(a.encoder);
      a.(m := a.m.(data := a.m.data.(position := count,
                                     velocity := EstimatedVelocity(a.m, count, dt.value),
                                     error := (a.m.data.target - count) as real,
                                     feedbackValid := true),
                   previousCount := count, sampled := true))
  }

  /** The target a move command asks for. */
  function Destination(m: Motion, c: Command): int {
    if c.kind == MoveRel then m.data.position + c.value else c.value
  }

  function CommandResult(m: Motion, c: Command): MotionResult {
    if !m.data.feedbackValid then InputError
    else if c.kind == Stop then Accepted
    else if c.kind != MoveAbs && c.kind != MoveRel then NotImplemented
    else if m.data.state != Idle then InvalidState
    else if !(m.config.minimum <= Destination(m, c) <= m.config.maximum) then OutOfRange
    else Accepted
  }

  /** An accepted move: fresh dwell, fresh loop, measurement seeded at the present position. */
  function MoveStarted(m: Motion, target: Count): Motion {
    m.(data := m.data.(target := target, error := (target - m.data.position) as real, state := Moving,
                       stableCycles := 0, pidOutput := 0.0, pwm := 0.0),
       pid := m.pid.(integral := 0.0, previousMeasurement := m.data.position as real, sampled := true))
  }

  function StopTaken(a: Axis): Axis {
    var d := a.m.data.(pwm := 0.0, pidOutput := 0.0);
    a.(gate := Disabled(a.gate),
       m := a.m.(pid := Cleared(a.m.pid),
                 data := if d.state == Moving then d.(state := Stopping, stableCycles := 0) else d))
  }

  function Commanded(a: Axis, c: Command): Axis {
    if CommandResult(a.m, c) != Accepted then a
    else if c.kind == Stop then StopTaken(a)
    else a.(m := MoveStarted(a.m, Destination(a.m, c)))
  }

  /** The completion band of one update. */
  predicate InBand(c: MotionConfig, state: AppState, velocity: real, error: real) {
    Abs(velocity) <= c.completionVelocity && (state == Stopping || Abs(error) <= c.tolerance)
  }

  /** Dwell counting: the record after the completion test of an update. */
  function Dwelled(m: Motion): Motion {
    var d := m.data.(error := (m.data.target - m.data.position) as real);
    if d.state != Moving && d.state != Stopping then m.(data := d)
    else
      var stable := if InBand(m.config, d.state, d.velocity, d.error) then Wrap(d.stableCycles + 1) else 0;
      if stable < m.config.dwellCycles then m.(data := d.(stableCycles := stable))
      else
        m.(data := d.(stableCycles := stable, state := Idle,
                      completedMoves := if d.state == Moving then Wrap(d.completedMoves + 1) else d.completedMoves),
           pid := Cleared(m.pid))
  }

  /** The drive of one update of a controller that is still moving. */
  function Driven(a: Axis, dt: real): (r: (Axis, bool))
    requires dt > 0.0
  {
    var d := a.m.data;
    var output := Output(a.m.pid, d.target as real, d.position as real, dt);
    var (gate, result) := OutputSet(a.gate, Finite(output));
    var m := a.m.(pid := Updated(a.m.pid, d.target as real, d.position as real, dt),
                  data := d.(pidOutput := output, pwm := output));
    if result == MotorOk then (a.(m := m, gate := gate), true) else (Failed(a.(m := m, gate := gate)), false)
  }

  function MotionUpdated(a: Axis, dt: Float): (Axis, bool) {
    if !a.m.data.feedbackValid || !UsableStep(dt) then (Failed(a), false)
    else
      var m := Dwelled(a.m);
      if m.data.state == Moving then Driven(a.(m := m), dt.value)
      else (a.(m := m.(data := m.data.(pwm := 0.0, pidOutput := 0.0)), gate := Disabled(a.gate)), true)
  }

  // Homing.

  datatype Inputs = Inputs(estop: bool, negativeLimit: bool, positiveLimit: bool)

  const NO_INPUTS := Inputs(false, false, false)

  function ControlCleared(a: Axis): Axis {
    a.(gate := Disabled(a.gate),
       m := a.m.(data := a.m.data.(pwm := 0.0, pidOutput := 0.0, error := 0.0, target := a.m.data.position,
                                   stableCycles := 0),
                 pid := Cleared(a.m.pid)))
  }

  function HomingStartResult(m: Motion): MotionResult {
    if !m.data.feedbackValid then InputError else if m.data.state != Idle then InvalidState else Accepted
  }

  function HomingStarted(a: Axis, now: Word): Axis {
    if HomingStartResult(a.m) != Accepted then a
    else
      var b := ControlCleared(a);
      b.(m := b.m.(data := b.m.data.(
        state := Homing,
        homing := b.m.data.homing.(result := HomeRunning, startedMs := now, elapsedMs := 0, referenced := false))))
  }

  function HomingAborted(a: Axis, result: HomingResult): Axis {
    var b := ControlCleared(a);
    if b.m.data.homing.result == HomeRunning
    then b.(m := b.m.(data := b.m.data.(homing := b.m.data.homing.(result := result))))
    else b
  }

  /** Contact: drive off, the encoder referenced, the estimator restarted, the attempt complete. */
  function HomingCompleted(a: Axis): Axis {
    var b := ControlCleared(a);
    var h := b.m.data.homing;
    Axis(b.m.(data := b.m.data.(position := 0, target := 0, velocity := 0.0, state := Idle,
                                homing := h.(result := HomeComplete, referenced := true,
                                             completed := Wrap(h.completed + 1))),
              previousCount := 0, sampled := false),
         b.gate, Referenced(b.encoder, 0))
  }

  function HomingUpdated(a: Axis, inputs: Inputs, now: Word): (Axis, bool) {
    if !a.m.data.feedbackValid || a.m.data.state != Homing then (a, false)
    else
      var elapsed := Elapsed(now, a.m.data.homing.startedMs);
      var b := a.(m := a.m.(data := a.m.data.(homing := a.m.data.homing.(elapsedMs := elapsed))));
      if inputs.estop || inputs.positiveLimit then (ControlCleared(b), false)
      else if Elapsed(now, a.m.data.homing.startedMs) >= HOMING_TIMEOUT_MS then (HomingAborted(b, HomeTimeout), true)
      else if inputs.negativeLimit then
        if b.encoder.initialized then (HomingCompleted(b), true) else (ControlCleared(b), false)
      else
        var (gate, result) := OutputSet(b.gate, Finite(HOMING_PWM));
        (b.(gate := gate, m := b.m.(data := b.m.data.(pwm := HOMING_PWM))), result == MotorOk)
  }

  class Controller {
    const config: MotionConfig
    const pid: PidController
    const motor: Motor
    const encoder: EncoderDriver
    var data: Snapshot
    var previousCount: Count
    var sampled: bool

    ghost function View(): Axis
      reads this, pid, motor, encoder
    {
      Axis(Motion(config, pid.View(), data, previousCount, sampled), motor.View(), encoder.View())
    }

    constructor (c: MotionConfig, motor: Motor, encoder: EncoderDriver)
      requires ValidConfig(c)
      modifies motor
      ensures fresh(pid) && this.motor == motor && this.encoder == encoder
      ensures View() == Axis(Initial(c), Disabled(old(motor.View())), old(encoder.View()))
    {
      config := c;
      pid := new PidController(c.pid);
      this.motor := motor;
      this.encoder := encoder;
      data := BLANK.(state := Idle);
      previousCount := 0;
      sampled := false;
      new;
      motor.Disable();
    }

    method Fail()
      modifies this, pid, motor
      ensures View() == Failed(old(View()))
    {
      motor.Disable();
      data := data.(state := Idle);
      data := data.(feedbackValid := false);
      data := data.(pwm := 0.0, pidOutput := 0.0);
      data := data.(stableCycles := 0);
      sampled := false;
      pid.Reset();
    }

    method Sample(dt: Float) returns (ok: bool)
      modifies this, pid, motor
      ensures ok == SampleOk(old(View()), dt)
      ensures View() == Sampled(old(View()), dt)
    {
      ok := false;
      if dt.NotFinite? || dt.value <= 0.0 || dt.value > 1.0 {
        Fail();
        return;
      }
      var ready, count := encoder.GetCount(0);
      if !ready {
        Fail();
        return;
      }
      var velocity := 0.0;
      if sampled {
        var bits := Wrap(Wrap(count) - Wrap(previousCount));
        if bits == 0x8000_0000 {
          Fail();
          return;
        }
        var wide: int := bits;
        var delta := if wide <= 0x7fff_ffff then wide else -0x8000_0000 + (wide - 0x8000_0000);
        velocity := delta as real / dt.value;
      }
      previousCount := count;
      sampled := true;
      data := data.(position := count);
      data := data.(velocity := velocity);
      data := data.(error := (data.target - count) as real);
      data := data.(feedbackValid := true);
      ok := true;
    }

    method Take(command: Command) returns (result: MotionResult)
      modifies this, pid, motor
      ensures result == CommandResult(old(View()).m, command)
      ensures View() == Commanded(old(View()), command)
    {
      if !data.feedbackValid {
        return InputError;
      }
      if command.kind == Stop {
        motor.Disable();
        data := data.(pwm := 0.0, pidOutput := 0.0);
        pid.Reset();
        if data.state == Moving {
          data := data.(state := Stopping, stableCycles := 0);
        }
        return Accepted;
      }
      if command.kind != MoveAbs && command.kind != MoveRel {
        return NotImplemented;
      }
      if data.state != Idle {
        return InvalidState;
      }
      var target: int := if command.kind == MoveRel then data.position + command.value else command.value;
      if target < config.minimum || target > config.maximum {
        return OutOfRange;
      }
      data := data.(target := target);
      data := data.(error := (target - data.position) as real);
      data := data.(state := Moving);
      data := data.(stableCycles := 0);
      data := data.(pidOutput := 0.0, pwm := 0.0);
      pid.Reset();
      pid.Seed(data.position as real);
      return Accepted;
    }

    method Update(dt: Float) returns (ok: bool)
      modifies this, pid, motor
      ensures (View(), ok) == MotionUpdated(old(View()), dt)
    {
      if !data.feedbackValid || dt.NotFinite? || dt.value <= 0.0 || dt.value > 1.0 {
        Fail();
        return false;
      }
      data := data.(error := (data.target - data.position) as real);
      if data.state == Moving || data.state == Stopping {
        var inBand := Abs(data.velocity) <= config.completionVelocity &&
                      (data.state == Stopping || Abs(data.error) <= config.tolerance);
        data := data.(stableCycles := if inBand then Wrap(data.stableCycles + 1) else 0);
        if data.stableCycles >= config.dwellCycles {
          if data.state == Moving {
            data := data.(completedMoves := Wrap(data.completedMoves + 1));
          }
          data := data.(state := Idle);
          pid.Reset();
        }
      }
      if data.state == Moving {
        var updated, output := pid.Update(Finite(data.target as real), Finite(data.position as real), dt,
                                          data.pidOutput);
        assert updated;  // finite operands and a usable step: the loop cannot refuse them here
        data := data.(pidOutput := output);
        data := data.(pwm := data.pidOutput);
        var result := motor.SetOutput(Finite(data.pwm));
        if result != MotorOk {
          Fail();
          return false;
        }
      } else {
        data := data.(pwm := 0.0, pidOutput := 0.0);
        motor.Disable();
      }
      return true;
    }

    method ClearControl()
      modifies this, pid, motor
      ensures View() == ControlCleared(old(View()))
    {
      motor.Disable();
      data := data.(pwm := 0.0, pidOutput := 0.0, error := 0.0);
      data := data.(target := data.position, stableCycles := 0);
      pid.Reset();
    }

    method HomingBegin(now: Word) returns (result: MotionResult)
      modifies this, pid, motor
      ensures result == HomingStartResult(old(View()).m)
      ensures View() == HomingStarted(old(View()), now)
    {
      if !data.feedbackValid {
        return InputError;
      }
      if data.state != Idle {
        return InvalidState;
      }
      ClearControl();
      data := data.(homing := data.homing.(result := HomeRunning));
      data := data.(homing := data.homing.(startedMs := now, elapsedMs := 0));
      data := data.(homing := data.homing.(referenced := false));
      data := data.(state := Homing);
      return Accepted;
    }

    method HomingAbort(result: HomingResult)
      modifies this, pid, motor
      ensures View() == HomingAborted(old(View()), result)
    {
      ClearControl();
      if data.homing.result == HomeRunning {
        data := data.(homing := data.homing.(result := result));
      }
    }

    /** The contact branch of an update. */
    method ReferenceAtContact() returns (ok: bool)
      modifies this, pid, motor, encoder
      ensures ok == old(View()).encoder.initialized
      ensures View() == if ok then HomingCompleted(old(View())) else ControlCleared(old(View()))
    {
      ClearControl();
      ok := encoder.SetReference(0);
      if !ok {
        return;
      }
      data := data.(position := 0, target := 0);
      previousCount := 0;
      data := data.(velocity := 0.0);
      sampled := false;
      var completed := Wrap(data.homing.completed + 1);
      data := data.(homing := data.homing.(result := HomeComplete, referenced := true, completed := completed));
      data := data.(state := Idle);
    }

    method HomingUpdate(inputs: Inputs, now: Word) returns (ok: bool)
      modifies this, pid, motor, encoder
      ensures (View(), ok) == HomingUpdated(old(View()), inputs, now)
    {
      if !data.feedbackValid || data.state != Homing {
        return false;
      }
      data := data.(homing := data.homing.(elapsedMs := Elapsed(now, data.homing.startedMs)));
      if inputs.estop || inputs.positiveLimit {
        ClearControl();
        return false;
      }
      if data.homing.elapsedMs >= HOMING_TIMEOUT_MS {
        HomingAbort(HomeTimeout);
        return true;
      }
      if inputs.negativeLimit {
        ok := ReferenceAtContact();
        return;
      }
      data := data.(pwm := HOMING_PWM);
      var result := motor.SetOutput(Finite(HOMING_PWM));
      return result == MotorOk;
    }
  }
}
