/** The safety policy: which fault is retained, which latch is set, and what recovery needs. */
module SafetyPolicy {
  import opened Words
  import opened Floats
  import opened MotionControl

  datatype FaultCode =
    NoFault | PositiveLimit | NegativeLimit | NoMotion | WatchdogFault | InternalFault | HomingTimeoutFault

  datatype FaultRecord = FaultRecord(code: FaultCode, timestampMs: Word, source: Word, conditionActive: bool)

  const NO_RECORD := FaultRecord(NoFault, 0, 0, false)

  /** The supervisor is either idle or latched. */
  type SafetyState = s: AppState | s == Idle || s == Fault || s == Estop witness Idle

  const STALL_PWM := 0.3
  const STALL_VELOCITY := 25.0
  const STALL_TIMEOUT_MS := 500
  const STARTUP_GRACE_MS := 200

  datatype Faults = Faults(active: FaultRecord, history: FaultRecord)

  /** The last inputs and the last health verdict. */
  datatype Sensed = Sensed(inputs: Inputs, valid: bool, healthy: bool, unhealthyMask: Word)

  /** No-motion supervision and its recovery condition. */
  datatype Stall = Stall(
    candidate: bool, candidateMs: Word, candidateStartMs: Word, recoveryRequired: bool, faultPosition: Count)

  /** Counters and diagnostics that the runtime keeps here; no decision reads them. */
  datatype Account = Account(
    zeroMs: Word, watchdogRefreshes: Word, abortedMoves: Word,
    requestedPwm: real, appliedPwm: real, requestedAtTrip: real)

  /** safety_manager_t, its flat fields grouped by purpose. */
  datatype Safety = Safety(
    faults: Faults,
    state: SafetyState,
    homeContact: bool,
    sensed: Sensed,
    stall: Stall,
    internalActive: bool,
    detectionMs: Word,
    startupMs: Word,
    account: Account)

  function Started(now: Word): Safety {
    Safety(Faults(NO_RECORD, NO_RECORD), Idle, false, Sensed(NO_INPUTS, false, false, 0), Stall(false, 0, 0, false, 0),
           false, 0, now, Account(0, 0, 0, 0.0, 0.0, 0.0))
  }

  /** The first fault is the one retained. */
  function Raised(f: Faults, code: FaultCode, now: Word, source: Word): Faults {
    if f.active.code == NoFault && code != NoFault then f.(active := FaultRecord(code, now, source, true)) else f
  }

  function Tripped(s: Safety, code: FaultCode, now: Word, source: Word): Safety {
    s.(homeContact := false, faults := Raised(s.faults, code, now, source),
       state := if s.state == Idle then Fault else s.state,
       detectionMs := if s.state == Idle then now else s.detectionMs)
  }

  function Stopped(s: Safety, now: Word): Safety {
    s.(homeContact := false, detectionMs := if s.state != Estop then now else s.detectionMs, state := Estop)
  }

  function InternalFailed(s: Safety, now: Word): Safety {
    Tripped(s.(internalActive := true), InternalFault, now, 0)
  }

  function HomingTimedOut(s: Safety, now: Word): Safety {
    Tripped(s, HomingTimeoutFault, now, 0)
  }

  // One evaluation, as a table of conditions rather than a sequence of steps.

  /** All that one evaluation looks at. */
  datatype Observation = Observation(
    now: Word, inputs: Inputs, valid: bool, motion: Snapshot, pwm: real, mask: Word)

  /** The supervisor is unlatched and nothing about the inputs alone latches it. */
  predicate Unlatched(s: Safety, o: Observation) {
    s.state == Idle && o.valid && !o.inputs.estop && !o.inputs.positiveLimit
  }

  predicate ExpectedHome(s: Safety, o: Observation) {
    o.motion.state == Homing && Unlatched(s, o)
  }

  /** Contact retained since HOME: still touching, on good inputs. */
  predicate ContactHeld(s: Safety, o: Observation) {
    s.homeContact && o.valid && o.inputs.negativeLimit && !o.inputs.estop && !o.inputs.positiveLimit
  }

  /** At rest, or driving away from the switch. */
  predicate ParkedOrDeparting(o: Observation) {
    || ((o.motion.state == Idle || o.motion.state == Stopping) && o.pwm == 0.0)
    || (o.motion.state == Moving && o.motion.target > o.motion.position && o.pwm >= 0.0)
  }

  predicate UnexpectedContact(s: Safety, o: Observation) {
    o.inputs.negativeLimit && !ExpectedHome(s, o) && !(ContactHeld(s, o) && ParkedOrDeparting(o))
  }

  predicate Overdue(s: Safety, o: Observation) {
    o.mask != 0 && Elapsed(o.now, s.startupMs) >= STARTUP_GRACE_MS
  }

  /** Nothing but a stall could latch this evaluation. */
  predicate Clear(s: Safety, o: Observation) {
    Unlatched(s, o) && !UnexpectedContact(s, o) && !Overdue(s, o)
  }

  /** Drive without motion, on trusted feedback. */
  predicate Qualifying(s: Safety, o: Observation) {
    && Clear(s, o)
    && (o.motion.state == Moving || (o.motion.state == Homing && !o.inputs.negativeLimit))
    && o.motion.feedbackValid && Abs(o.pwm) >= STALL_PWM && Abs(o.motion.velocity) <= STALL_VELOCITY
  }

  function CandidateStart(s: Safety, o: Observation): Word {
    if Qualifying(s, o) && !s.stall.candidate then o.now else s.stall.candidateStartMs
  }

  predicate Stalled(s: Safety, o: Observation) {
    Qualifying(s, o) && Elapsed(o.now, CandidateStart(s, o)) >= STALL_TIMEOUT_MS
  }

  /** The first hazard besides a stall, in the order of priority. */
  function EarlyHazard(s: Safety, o: Observation): FaultCode {
    if !o.valid then InternalFault
    else if o.inputs.positiveLimit then PositiveLimit
    else if UnexpectedContact(s, o) then NegativeLimit
    else if Overdue(s, o) then WatchdogFault
    else NoFault
  }

  function FirstHazard(s: Safety, o: Observation): FaultCode {
    if EarlyHazard(s, o) != NoFault then EarlyHazard(s, o) else if Stalled(s, o) then NoMotion else NoFault
  }

  predicate RecoveryRequired(s: Safety, o: Observation) {
    || Stalled(s, o)
    || (s.stall.recoveryRequired && !(o.motion.feedbackValid && DistanceFrom(s, o) >= 2))
  }

  function DistanceFrom(s: Safety, o: Observation): int {
    var d := o.motion.position - s.stall.faultPosition;
    if d < 0 then -d else d
  }

  function StateAfter(s: Safety, o: Observation): SafetyState {
    if o.inputs.estop || s.state == Estop then Estop
    else if s.state == Idle && FirstHazard(s, o) == NoFault then Idle
    else Fault
  }

  function StallAfter(s: Safety, o: Observation): Stall {
    Stall(Qualifying(s, o),
          if Qualifying(s, o) then Elapsed(o.now, CandidateStart(s, o)) else 0,
          CandidateStart(s, o),
          RecoveryRequired(s, o),
          if Stalled(s, o) then o.motion.position else s.stall.faultPosition)
  }

  /** Some hazard that recovery must wait for is present, whichever fault is the retained one. */
  predicate HazardAfter(s: Safety, o: Observation) {
    || !o.valid || o.inputs.positiveLimit || o.inputs.negativeLimit || o.mask != 0
    || RecoveryRequired(s, o) || s.internalActive
  }

  function FaultsAfter(s: Safety, o: Observation): Faults {
    var hazard := FirstHazard(s, o);
    var f := Raised(s.faults, hazard, o.now, if hazard == WatchdogFault then o.mask else 0);
    f.(active := f.active.(conditionActive := f.active.code != NoFault && HazardAfter(s, o)))
  }

  function Evaluated(s: Safety, o: Observation): Safety {
    Safety(FaultsAfter(s, o),
           StateAfter(s, o),
           ContactHeld(s, o) && FirstHazard(s, o) == NoFault,
           Sensed(o.inputs, o.valid, o.mask == 0, o.mask),
           StallAfter(s, o),
           s.internalActive || !o.valid,
           if StateAfter(s, o) != s.state then o.now else s.detectionMs,
           s.startupMs,
           s.account)
  }

  /** No current hazard, whichever fault was recorded first. */
  predicate HazardFree(s: Safety) {
    && s.sensed.valid && !s.sensed.inputs.estop && !s.sensed.inputs.positiveLimit && !s.sensed.inputs.negativeLimit
    && s.sensed.healthy && !s.stall.recoveryRequired && !s.internalActive
  }

  predicate ResetAllowed(s: Safety) {
    HazardFree(s) && !s.faults.active.conditionActive
  }

  function Recovered(s: Safety): Safety {
    if !ResetAllowed(s) then s
    else
      s.(faults := Faults(NO_RECORD, if s.faults.active.code != NoFault then s.faults.active else s.faults.history),
         state := Idle,
         stall := s.stall.(candidate := false, candidateMs := 0))
  }

  class SafetyManager {
    var faults: Faults
    var state: SafetyState
    var homeContact: bool
    var sensed: Sensed
    var stall: Stall
    var internalActive: bool
    var detectionMs: Word
    var startupMs: Word
    var account: Account

    ghost function View(): Safety
      reads this
    {
      Safety(faults, state, homeContact, sensed, stall, internalActive, detectionMs, startupMs, account)
    }

    constructor (now: Word)
      ensures View() == Started(now)
    {
      faults, state, homeContact := Faults(NO_RECORD, NO_RECORD), Idle, false;
      sensed, stall := Sensed(NO_INPUTS, false, false, 0), Stall(false, 0, 0, false, 0);
      internalActive, detectionMs, startupMs := false, 0, now;
      account := Account(0, 0, 0, 0.0, 0.0, 0.0);
    }

    method RaiseFault(code: FaultCode, now: Word, source: Word)
      modifies this`faults
      ensures faults == Raised(old(faults), code, now, source)
    {
      if faults.active.code == NoFault && code != NoFault {
        faults := faults.(active := FaultRecord(code, now, source, true));
      }
    }

    method Trip(code: FaultCode, now: Word, source: Word)
      modifies this`homeContact, this`faults, this`state, this`detectionMs
      ensures View() == Tripped(old(View()), code, now, source)
    {
      homeContact := false;
      RaiseFault(code, now, source);
      if state != Estop && state != Fault {
        state := Fault;
        detectionMs := now;
      }
    }

    method EmergencyStop(now: Word)
      modifies this`homeContact, this`state, this`detectionMs
      ensures View() == Stopped(old(View()), now)
    {
      homeContact := false;
      if state != Estop {
        detectionMs := now;
      }
      state := Estop;
    }

    method FailInternally(now: Word)
      modifies this`homeContact, this`faults, this`state, this`detectionMs, this`internalActive
      ensures View() == InternalFailed(old(View()), now)
    {
      internalActive := true;
      Trip(InternalFault, now, 0);
    }

    method TimeOutHoming(now: Word)
      modifies this`homeContact, this`faults, this`state, this`detectionMs
      ensures View() == HomingTimedOut(old(View()), now)
    {
      Trip(HomingTimeoutFault, now, 0);
    }

    /** Bad or dangerous inputs, and the release of the switch. */
    method CheckInputs(now: Word)
      modifies this`homeContact, this`faults, this`state, this`detectionMs, this`internalActive
      ensures internalActive == (old(internalActive) || !sensed.valid)
      ensures state == if sensed.inputs.estop || old(state) == Estop then Estop
                       else if old(state) == Idle && sensed.valid && !sensed.inputs.positiveLimit then Idle else Fault
      ensures detectionMs == if state != old(state) then now else old(detectionMs)
      ensures faults == Raised(old(faults), if !sensed.valid then InternalFault
                                            else if sensed.inputs.positiveLimit then PositiveLimit else NoFault, now, 0)
      ensures homeContact == (old(homeContact) && sensed.valid && sensed.inputs.negativeLimit &&
                              !sensed.inputs.estop && !sensed.inputs.positiveLimit)
    {
      if !sensed.valid {
        FailInternally(now);
      }
      if sensed.inputs.estop {
        EmergencyStop(now);
      }
      if sensed.inputs.positiveLimit {
        Trip(PositiveLimit, now, 0);
      }
      if sensed.valid && !sensed.inputs.negativeLimit {
        homeContact := false;
      }
    }

    /** Contact that nothing explains, and supervision overdue after the startup grace. */
    method CheckContactAndHealth(now: Word, m: Snapshot, pwm: real) returns (expectedHome: bool)
      modifies this`homeContact, this`faults, this`state, this`detectionMs
      ensures expectedHome == (m.state == Homing && old(state) == Idle)
      ensures var o := Observation(now, sensed.inputs, sensed.valid, m, pwm, sensed.unhealthyMask);
              var contact := sensed.inputs.negativeLimit && !expectedHome &&
                !(old(homeContact) && ParkedOrDeparting(o));
              var overdue := !sensed.healthy && Elapsed(now, startupMs) >= STARTUP_GRACE_MS;
              && faults == Raised(old(faults),
                                  if contact then NegativeLimit else if overdue then WatchdogFault else NoFault, now,
                                  if contact then 0 else sensed.unhealthyMask)
              && state == (if old(state) == Idle && (contact || overdue) then Fault else old(state))
              && homeContact == (old(homeContact) && !contact && !overdue)
      ensures detectionMs == if state != old(state) then now else old(detectionMs)
    {
      expectedHome := m.state == Homing && state == Idle;
      var departing := m.state == Moving && m.target > m.position && pwm >= 0.0;
      var parked := (m.state == Idle || m.state == Stopping) && pwm == 0.0;
      if sensed.inputs.negativeLimit && !expectedHome && !(homeContact && (parked || departing)) {
        Trip(NegativeLimit, now, 0);
      }
      if !sensed.healthy && Elapsed(now, startupMs) >= STARTUP_GRACE_MS {
        Trip(WatchdogFault, now, sensed.unhealthyMask);
      }
    }

    /** Drive without motion: the candidate's age, and the trip when it is old enough. */
    method TrackStall(now: Word, position: Count, qualifying: bool)
      requires qualifying ==> state == Idle
      modifies this`homeContact, this`faults, this`state, this`detectionMs, this`stall
      ensures var start := if qualifying && !old(stall).candidate then now else old(stall).candidateStartMs;
              var age := if qualifying then Elapsed(now, start) else 0;
              var stalled := qualifying && age >= STALL_TIMEOUT_MS;
              && stall == Stall(qualifying, age, start, stalled || old(stall).recoveryRequired,
                                if stalled then position else old(stall).faultPosition)
              && faults == Raised(old(faults), if stalled then NoMotion else NoFault, now, 0)
              && state == (if stalled then Fault else old(state))
              && homeContact == (old(homeContact) && !stalled)
      ensures detectionMs == if state != old(state) then now else old(detectionMs)
    {
      if qualifying {
        if !stall.candidate {
          stall := stall.(candidate := true, candidateStartMs := now);
        }
        stall := stall.(candidateMs := Elapsed(now, stall.candidateStartMs));
        if stall.candidateMs >= STALL_TIMEOUT_MS {
          stall := stall.(recoveryRequired := true, faultPosition := position);
          Trip(NoMotion, now, 0);
        }
      } else {
        stall := stall.(candidate := false, candidateMs := 0);
      }
    }

    /** Everything that latches before the stall test, on the inputs just stored. */
    method LatchHazards(now: Word, m: Snapshot, pwm: real, ghost s: Safety) returns (expectedHome: bool)
      requires sensed.healthy == (sensed.unhealthyMask == 0) && View() == s.(sensed := sensed)
      modifies this`homeContact, this`faults, this`state, this`detectionMs, this`internalActive
      ensures var o := Observation(now, sensed.inputs, sensed.valid, m, pwm, sensed.unhealthyMask);
              && expectedHome == ExpectedHome(s, o)
              && (state == Idle <==> Clear(s, o))
              && state == (if o.inputs.estop || s.state == Estop then Estop else if Clear(s, o) then Idle else Fault)
              && homeContact == (ContactHeld(s, o) && !UnexpectedContact(s, o) && !Overdue(s, o))
              && faults == Raised(s.faults, EarlyHazard(s, o), now,
                                  if EarlyHazard(s, o) == WatchdogFault then o.mask else 0)
              && internalActive == (s.internalActive || !o.valid)
      ensures detectionMs == if state != old(state) then now else old(detectionMs)
    {
      ghost var o := Observation(now, sensed.inputs, sensed.valid, m, pwm, sensed.unhealthyMask);
      CheckInputs(now);
      assert state == Idle <==> Unlatched(s, o);
      assert homeContact == ContactHeld(s, o);
      expectedHome := CheckContactAndHealth(now, m, pwm);
    }

    /** The recovery displacement, then the stall test. */
    method CheckMotion(now: Word, m: Snapshot, pwm: real, expectedHome: bool, ghost s: Safety, ghost o: Observation)
      requires o == Observation(now, sensed.inputs, sensed.valid, m, pwm, sensed.unhealthyMask)
      requires expectedHome == ExpectedHome(s, o) && (state == Idle <==> Clear(s, o)) && stall == s.stall
      modifies this`homeContact, this`faults, this`state, this`detectionMs, this`stall
      ensures stall == StallAfter(s, o)
      ensures faults == Raised(old(faults), if Stalled(s, o) then NoMotion else NoFault, now, 0)
      ensures state == if Stalled(s, o) then Fault else old(state)
      ensures homeContact == (old(homeContact) && !Stalled(s, o))
      ensures detectionMs == if state != old(state) then now else old(detectionMs)
    {
      if stall.recoveryRequired && m.feedbackValid &&
         (m.position - stall.faultPosition >= 2 || stall.faultPosition - m.position >= 2) {
        stall := stall.(recoveryRequired := false);
      }
      var qualifying := state == Idle && (m.state == Moving || m.state == Homing) &&
                        !(expectedHome && sensed.inputs.negativeLimit) &&
                        m.feedbackValid && Abs(pwm) >= STALL_PWM && Abs(m.velocity) <= STALL_VELOCITY;
      assert qualifying == Qualifying(s, o);
      TrackStall(now, m.position, qualifying);
    }

    /** The condition of the retained fault holds while any hazard does, not only the one that it names. */
    method RefreshCondition(ghost s: Safety, ghost o: Observation)
      requires sensed == Sensed(o.inputs, o.valid, o.mask == 0, o.mask)
      requires faults == Raised(s.faults, FirstHazard(s, o), o.now,
                                if FirstHazard(s, o) == WatchdogFault then o.mask else 0)
      requires stall == StallAfter(s, o) && internalActive == (s.internalActive || !o.valid)
      modifies this`faults
      ensures faults == FaultsAfter(s, o)
    {
      faults := faults.(active := faults.active.(conditionActive := faults.active.code != NoFault &&
        (!sensed.valid || sensed.inputs.positiveLimit || sensed.inputs.negativeLimit || !sensed.healthy ||
         stall.recoveryRequired || internalActive)));
    }

    /** The hazards in the order the firmware checks them; the table above is what they amount to. */
    method Evaluate(now: Word, inputs: Inputs, valid: bool, m: Snapshot, pwm: real, mask: Word)
      modifies this
      ensures View() == Evaluated(old(View()), Observation(now, inputs, valid, m, pwm, mask))
    {
      ghost var s, o := View(), Observation(now, inputs, valid, m, pwm, mask);
      sensed := Sensed(inputs, valid, mask == 0, mask);
      var expectedHome := LatchHazards(now, m, pwm, s);
      CheckMotion(now, m, pwm, expectedHome, s, o);
      assert state == StateAfter(s, o);
      RefreshCondition(s, o);
    }

    method ResetFault() returns (ok: bool)
      modifies this`faults
      ensures ok == !old(faults).active.conditionActive
      ensures !ok ==> faults == old(faults)
      ensures ok ==> faults == Faults(NO_RECORD,
                                      if old(faults).active.code != NoFault then
                                        old(faults).active else old(faults).history)
    {
      if faults.active.conditionActive {
        return false;
      }
      if faults.active.code != NoFault {
        faults := faults.(history := faults.active);
      }
      faults := faults.(active := NO_RECORD);
      return true;
    }

    method Recover() returns (ok: bool)
      modifies this
      ensures ok == ResetAllowed(old(View()))
      ensures View() == Recovered(old(View()))
    {
      if !sensed.valid || sensed.inputs.estop || sensed.inputs.positiveLimit || sensed.inputs.negativeLimit ||
         !sensed.healthy || stall.recoveryRequired || internalActive {
        return false;
      }
      ok := ResetFault();
      if !ok {
        return;
      }
      state := Idle;
      stall := stall.(candidate := false, candidateMs := 0);
    }
  }
}
