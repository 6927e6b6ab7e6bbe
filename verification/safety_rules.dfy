/** What an evaluation of the supervisor decides, spelled out in what it is given. */
module SafetyRules {
  import opened Words
  import opened MotionControl
  import opened SafetyPolicy

  /** The inputs can be read, and neither E-stop nor the positive limit is active. */
  predicate GoodInputs(o: Observation) {
    o.valid && !o.inputs.estop && !o.inputs.positiveLimit
  }

  /** Every critical task is fresh, or startup is less than 200 ms ago. */
  predicate TasksGood(s: Safety, o: Observation) {
    o.mask == 0 || Elapsed(o.now, s.startupMs) < 200
  }

  /** Contact with the negative switch is in order: HOME looks for it; or a completed HOME has left the axis
      there, and the axis rests without drive, or leaves with a target ahead and no drive backwards. */
  predicate ContactInOrder(s: Safety, o: Observation) {
    var m := o.motion;
    || !o.inputs.negativeLimit
    || m.state == Homing
    || (s.homeContact && (m.state == Idle || m.state == Stopping) && o.pwm == 0.0)
    || (s.homeContact && m.state == Moving && m.target > m.position && o.pwm >= 0.0)
  }

  /** A jam: a move, or a HOME off the switch, driven at 0.3 or more either way, on trusted feedback that
      shows at most 25 counts a second either way. */
  predicate LooksJammed(o: Observation) {
    var m := o.motion;
    && (m.state == Moving || (m.state == Homing && !o.inputs.negativeLimit))
    && m.feedbackValid && (o.pwm >= 0.3 || o.pwm <= -0.3) && -25.0 <= m.velocity <= 25.0
  }

  /** Nothing latched before, and nothing but a jam to latch now. */
  predicate NothingElse(s: Safety, o: Observation) {
    s.state == Idle && GoodInputs(o) && TasksGood(s, o) && ContactInOrder(s, o)
  }

  /** The suspicion is exact: an evaluation raises or keeps it if and only if all of this holds, dates it from
      the evaluation that raised it, and otherwise ends it. */
  lemma SuspicionIsExact(s: Safety, o: Observation)
    ensures var t := Evaluated(s, o).stall;
            && (t.candidate <==> NothingElse(s, o) && LooksJammed(o))
            && (t.candidate ==>
                  && t.candidateStartMs == (if s.stall.candidate then s.stall.candidateStartMs else o.now)
                  && t.candidateMs == Elapsed(o.now, t.candidateStartMs))
            && (!t.candidate ==> t.candidateMs == 0)
  {
  }

  /** The jam has been suspected for 500 ms. */
  predicate JammedTooLong(s: Safety, o: Observation) {
    LooksJammed(o) && s.stall.candidate && Elapsed(o.now, s.stall.candidateStartMs) >= 500
  }

  /** An evaluation of an unlatched supervisor latches nothing if and only if all of this holds. */
  lemma StaysUnlatchedExactly(s: Safety, o: Observation)
    requires s.state == Idle
    ensures Evaluated(s, o).state == Idle <==> NothingElse(s, o) && !JammedTooLong(s, o)
  {
  }

  /** What it latches otherwise: E-stop above all; and the fault to retain, if none is retained yet, is the
      first of these. */
  lemma LatchesInOrder(s: Safety, o: Observation)
    requires s.state == Idle && s.faults.active.code == NoFault
    ensures var t := Evaluated(s, o);
            && (o.inputs.estop ==> t.state == Estop)
            && (!o.inputs.estop && t.state != Idle ==> t.state == Fault)
            && (t.faults.active.code != NoFault ==>
                  && t.faults.active.timestampMs == o.now
                  && t.faults.active.source == if t.faults.active.code == WatchdogFault then o.mask else 0)
            && t.faults.active.code ==
               if !o.valid then InternalFault
               else if o.inputs.positiveLimit then PositiveLimit
               else if !ContactInOrder(s, o) || (o.inputs.negativeLimit && o.inputs.estop) then NegativeLimit
               else if !TasksGood(s, o) then WatchdogFault
               else if !o.inputs.estop && JammedTooLong(s, o) then NoMotion
               else NoFault
  {
  }

  /** The allowance of a completed HOME survives an evaluation if and only if the switch is still closed and
      nothing is latched. */
  lemma AllowanceSurvivesExactly(s: Safety, o: Observation)
    requires s.homeContact ==> s.state == Idle
    ensures Evaluated(s, o).homeContact <==> s.homeContact && o.inputs.negativeLimit && Evaluated(s, o).state == Idle
  {
  }

  /** What recovery will have to wait for. Inputs that could not be read are an integrity failure for good; lost
      motion, from the evaluation that latches it, stands until trusted feedback is two counts away from where it
      was latched; and the retained fault is marked active while any hazard is present. */
  lemma EvidenceIsKept(s: Safety, o: Observation)
    requires s.stall.recoveryRequired ==> s.state != Idle
    ensures var t := Evaluated(s, o);
            var lost := NothingElse(s, o) && JammedTooLong(s, o);
            var moved := o.motion.position - s.stall.faultPosition;
            && (t.internalActive <==> s.internalActive || !o.valid)
            && (t.stall.recoveryRequired <==>
                  || lost
                  || (s.stall.recoveryRequired && !(o.motion.feedbackValid && (moved >= 2 || moved <= -2))))
            && t.stall.faultPosition == (if lost then o.motion.position else s.stall.faultPosition)
            && (t.faults.active.conditionActive <==>
                  && t.faults.active.code != NoFault
                  && (!o.valid || o.inputs.positiveLimit || o.inputs.negativeLimit || o.mask != 0
                      || t.stall.recoveryRequired || t.internalActive))
  {
  }
}
