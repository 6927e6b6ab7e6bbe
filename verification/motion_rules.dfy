/** What the controller's operations do on every axis, spelled out in what they are given. */
module MotionRules {
  import opened Words
  import opened Floats
  import opened Encoders
  import opened PidControl
  import opened MotionControl

  /** A usable step of time: a finite number of seconds, more than none and at most one. */
  predicate GoodStep(dt: Float) {
    dt.Finite? && dt.value > 0.0 && dt.value <= 1.0
  }

  /** The controller has given up: idle, with the motor off and nothing remembered, and its feedback not trusted. */
  predicate GivenUp(a: Axis) {
    var d := a.m.data;
    && d.state == Idle && !d.feedbackValid && !a.m.sampled
    && d.pwm == 0.0 && d.pidOutput == 0.0 && d.stableCycles == 0
    && a.m.pid.integral == 0.0 && !a.m.pid.sampled
    && a.gate.output == 0.0 && a.gate.requested == 0.0
  }

  /** A sample is good if and only if the step is usable, the encoder is ready, and the count has not jumped by
      exactly half the range since the last one. Otherwise the controller gives up. */
  lemma SampleFailsExactly(a: Axis, dt: Float)
    ensures var b, jump := Sampled(a, dt), Wrap(Logical(a.encoder) - a.m.previousCount);
            var good := GoodStep(dt) && a.encoder.initialized && (a.m.sampled ==> jump != 0x8000_0000);
            && (if good then b.m.data.feedbackValid && b.m.data.position == Logical(a.encoder) else GivenUp(b))
            && (good ==> b.gate == a.gate && b.m.data.state == a.m.data.state && b.m.data.target == a.m.data.target)
            && (good && !a.m.sampled ==> b.m.data.velocity == 0.0)
            && b.encoder == a.encoder && b.m.data.target == a.m.data.target && SampleOk(a, dt) == good
  {
    WrapDifference(Logical(a.encoder), a.m.previousCount);
  }

  /** The velocity is the true one. Whatever the reference, if the raw counter showed x at the last sample and shows
      y now, less than half the range away, then the axis has moved by y - x in the time of the step. */
  lemma VelocityIsTrue(a: Axis, dt: Float, x: int, y: int)
    requires GoodStep(dt) && a.encoder.initialized && a.encoder.raw == Wrap(y) && -0x8000_0000 < y - x < 0x8000_0000
    requires a.m.sampled && a.m.previousCount == Logical(a.encoder.(raw := Wrap(x)))
    ensures SampleOk(a, dt) && Sampled(a, dt).m.data.velocity == (y - x) as real / dt.value
  {
    DeltaIsDisplacement(x, y, a.encoder.offset);
    assert a.encoder.(raw := Wrap(x)) == Encoder(true, Wrap(x), a.encoder.offset);
    assert a.encoder == Encoder(true, Wrap(y), a.encoder.offset);
  }

  /** A move that the dwell does not complete is driven by the loop, exactly, unless the gate refuses: then the
      controller gives up. So it does without trusted feedback or a usable step. */
  lemma UpdateDrivesExactly(a: Axis, dt: Float)
    requires ValidConfig(a.m.config) && a.m.pid.config == a.m.config.pid && PidOk(a.m.pid) && a.m.data.state == Moving
    requires MotionUpdated(a, dt).0.m.data.completedMoves == a.m.data.completedMoves
    ensures var (b, ok) := MotionUpdated(a, dt);
            var usable := a.m.data.feedbackValid && GoodStep(dt);
            && (!ok ==> GivenUp(b))
            && (!usable ==> !ok)
            && (usable ==>
                  var output := Output(a.m.pid, a.m.data.target as real, a.m.data.position as real, dt.value);
                  && (ok <==> a.gate.initialized && !a.gate.inhibited && !(a.gate.negativeBlocked && output < 0.0))
                  && (ok ==> b.gate.output == b.gate.requested == b.m.data.pwm == output && b.m.data.state == Moving))
  {
    if a.m.data.feedbackValid && GoodStep(dt) {
      UpdateIsBounded(a.m.pid, a.m.data.target as real, a.m.data.position as real, dt.value);
      CompletionCounts(a.m);
    }
  }

  lemma CompletionCounts(m: Motion)
    requires m.data.state == Moving
    ensures Dwelled(m).data.completedMoves == m.data.completedMoves <==> Dwelled(m).data.state == Moving
    ensures Dwelled(m).data.state == Moving ==> Dwelled(m).pid == m.pid
  {
  }

  /** The motor is off, and the controller has nothing to move to. */
  predicate AllOff(a: Axis, b: Axis) {
    && b.gate.output == 0.0 && b.gate.requested == 0.0 && b.m.data.pwm == 0.0 && b.m.data.target == b.m.data.position
    && b.m.data.stableCycles == 0 && b.m.pid.integral == 0.0 && !b.m.pid.sampled
    && b.gate.inhibited == a.gate.inhibited && b.gate.negativeBlocked == a.gate.negativeBlocked
  }

  /** What a homing update decides, on every axis: a hazard, or a switch that cannot be used, refuses it with the
      drive cleared; the deadline of 40000 ms ends the attempt before the switch does; the switch completes it at
      zero, with the estimator restarted and no velocity; and otherwise it drives at -0.30 if the gate lets it. */
  lemma HomingUpdateDecides(a: Axis, inputs: Inputs, now: Word)
    requires a.m.data.feedbackValid && a.m.data.state == Homing && a.m.data.homing.result == HomeRunning
    requires a.gate.initialized
    ensures var (b, ok) := HomingUpdated(a, inputs, now);
            var age, h := Wrap(now - a.m.data.homing.startedMs), b.m.data.homing;
            if inputs.estop || inputs.positiveLimit then
              !ok && AllOff(a, b) && h.result == HomeRunning && b.encoder == a.encoder
            else if age >= 40000 then
              ok && AllOff(a, b) && h.result == HomeTimeout && b.encoder == a.encoder
            else if inputs.negativeLimit then
              && ok == a.encoder.initialized && AllOff(a, b)
              && (ok ==>
                    && h.result == HomeComplete && h.referenced && h.completed == Wrap(a.m.data.homing.completed + 1)
                    && b.m.data.state == Idle && b.m.data.position == 0 == Logical(b.encoder)
                    && b.m.data.velocity == 0.0 && !b.m.sampled)
              && (!ok ==> h.result == HomeRunning && b.encoder == a.encoder)
            else
              && ok == !(a.gate.inhibited || a.gate.negativeBlocked) && b.encoder == a.encoder
              && b.m.data.state == Homing && h.result == HomeRunning && b.m.data.pwm == -0.30
              && b.gate.requested == -0.30 && b.gate.output == (if ok then -0.30 else 0.0)
  {
    if a.encoder.initialized {
      ReferenceRoundTrip(a.encoder, 0, a.encoder.raw);
    }
  }
}
