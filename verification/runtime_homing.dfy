/** The HOME deadline against true time. */
module RuntimeHoming {
  import opened Words
  import opened Floats
  import opened CommandTypes
  import opened MotorGate
  import opened MotionControl
  import opened SafetyPolicy
  import opened SafetyRuns
  import opened RuntimeModel
  import opened RuntimeSafety
  import opened RuntimeRuns

  /** The wrapped times of an attempt and of a cycle, and the true ones behind them. */
  predicate HomeClock(w: World) {
    && (w.axis.m.data.state == Homing ==>
          w.axis.m.data.homing.startedMs == Wrap(w.aux.homeAt) && w.aux.homeAt <= w.clock)
    && w.aux.capturedAt <= w.clock
    && (w.cycle.Resting? && !w.first ==> w.previousMs == Wrap(w.aux.capturedAt))
    && (!w.cycle.Resting? ==> w.cycle.now == Wrap(w.aux.capturedAt))
    && (!w.cycle.Resting? && w.cycle.sampled ==> w.axis.m.data.feedbackValid)
  }

  /** No HOME begins, and the cycle keeps its times. */
  predicate HomeKept(w: World, v: World) {
    && (v.axis.m.data.state == Homing ==>
          w.axis.m.data.state == Homing && v.axis.m.data.homing.startedMs == w.axis.m.data.homing.startedMs)
    && (w.axis.m.data.feedbackValid ==> v.axis.m.data.feedbackValid)
    && v.aux.homeAt == w.aux.homeAt && v.aux.capturedAt == w.aux.capturedAt
    && v.clock == w.clock && v.cycle == w.cycle && v.first == w.first && v.previousMs == w.previousMs
  }

  lemma KeptClock(w: World, v: World)
    requires HomeClock(w) && HomeKept(w, v)
    ensures HomeClock(v)
  {
  }

  lemma EvaluateKeeps(w: World)
    ensures HomeKept(w, EvaluatedWorld(w)) && HomeKept(w, Synced(w)) && HomeKept(w, EvaluatedAndSynced(w))
    ensures EvaluatedAndSynced(w).safety.state == EvaluatedWorld(w).safety.state
  {
  }

  lemma StopKeepsHome(w: World)
    ensures HomeKept(w, StopLatched(w))
  {
    EvaluateKeeps(Enforced(w.(safety := Stopped(w.safety, Now(w)))));
  }

  lemma ResetKeepsHome(w: World)
    ensures HomeKept(w, ResetTaken(w).0)
  {
    EvaluateKeeps(w);
  }

  lemma MoveKeepsHome(w: World, c: Command)
    requires c.kind != Home
    ensures HomeKept(w, w.(axis := Commanded(w.axis, c))) && HomeKept(w, DepartureTaken(w, c).0)
  {
    var v := w.(axis := Commanded(w.axis, c));
    assert HomeKept(w, v);
    EvaluateKeeps(Published(v));
  }

  lemma CancelKeepsHome(w: World)
    ensures HomeKept(w, HomeCancelled(w))
  {
  }

  lemma OrdinaryKeepsHome(w: World, c: Command)
    requires c.kind != EmergencyStop && c.kind != Reset && c.kind != Home
    ensures HomeKept(w, CommandTaken(w, c).0)
  {
    CancelKeepsHome(w);
    MoveKeepsHome(w, c);
    CommandCases(w, c);
  }

  lemma CommandCases(w: World, c: Command)
    requires c.kind != EmergencyStop && c.kind != Reset && c.kind != Home
    ensures CommandTaken(w, c).0 in [w, HomeCancelled(w), w.(axis := Commanded(w.axis, c)), DepartureTaken(w, c).0]
  {
  }

  lemma CommandKeepsHome(w: World, c: Command)
    requires c.kind != Home
    ensures HomeKept(w, CommandTaken(w, c).0)
  {
    if c.kind == EmergencyStop {
      StopKeepsHome(w);
    } else if c.kind == Reset {
      ResetKeepsHome(w);
    } else {
      OrdinaryKeepsHome(w, c);
    }
  }

  /** An accepted HOME starts its clock now. */
  lemma HomeStartsClock(w: World)
    requires HomeClock(w)
    ensures HomeClock(HomeTaken(w).0)
  {
    var v := Published(w.(axis := HomingStarted(w.axis, Now(w))));
    var u := v.(aux := v.aux.(homeAt := w.clock));
    EvaluateKeeps(u);
    if HomingStartResult(w.axis.m) == Accepted {
      assert HomeClock(u);
      KeptClock(u, EvaluatedAndSynced(u));
    }
  }

  lemma CommandKeepsClock(w: World, c: Command)
    requires HomeClock(w)
    ensures HomeClock(CommandTaken(w, c).0) && CommandTaken(w, c).0.cycle == w.cycle
  {
    if c.kind == Home {
      HomeStartsClock(w);
      HomeKeepsCycle(w);
    } else {
      CommandKeepsHome(w, c);
      KeptClock(w, CommandTaken(w, c).0);
    }
  }

  lemma HomeKeepsCycle(w: World)
    ensures HomeTaken(w).0.cycle == w.cycle
  {
    var v := Published(w.(axis := HomingStarted(w.axis, Now(w))));
    EvaluateKeeps(v.(aux := v.aux.(homeAt := w.clock)));
  }

  lemma CountedClock(w: World, taken: nat)
    requires HomeClock(w) && w.cycle.Open?
    ensures HomeClock(w.(cycle := w.cycle.(taken := taken)))
  {
  }

  lemma ReceiveKeepsClock(w: World, c: Command)
    requires HomeClock(w) && w.cycle.Open?
    ensures HomeClock(MotionReceived(w, c))
  {
    CommandKeepsClock(w, c);
    CountedClock(ReceivedResult(w, c).0, w.cycle.taken + 1);
  }

  /** After the closing section the cycle rests, so only the attempt's own clock matters. */
  predicate AttemptKept(w: World, v: World) {
    && (v.axis.m.data.state == Homing ==>
          w.axis.m.data.state == Homing && v.axis.m.data.homing.startedMs == w.axis.m.data.homing.startedMs)
    && v.aux.homeAt == w.aux.homeAt && v.aux.capturedAt == w.aux.capturedAt && v.clock == w.clock
  }

  lemma UpdateKeepsAttempt(a: Axis, dt: Float)
    ensures MotionUpdated(a, dt).0.m.data.state == Homing ==>
              a.m.data.state == Homing && MotionUpdated(a, dt).0.m.data.homing == a.m.data.homing
  {
  }

  lemma HomingKeepsAttempt(w: World, now: Word)
    requires w.axis.m.data.state == Homing
    ensures AttemptKept(w, HomingControl(w, now).0)
  {
    EvaluateKeeps(Published(w));
    var v := if HomingInterrupt(w.pins) then EvaluatedAndSynced(Published(w)) else w;
    var u := v.(axis := HomingUpdated(v.axis, ReadPins(w.pins), now).0);
    SeekKeepsAttempt(v.axis, ReadPins(w.pins), now);
    assert AttemptKept(w, v) && AttemptKept(v, u);
    SettleKeepsAttempt(u, now);
  }

  lemma SeekKeepsAttempt(a: Axis, inputs: Inputs, now: Word)
    ensures var b := HomingUpdated(a, inputs, now).0;
            b.m.data.state == Homing ==>
              a.m.data.state == Homing && b.m.data.homing.startedMs == a.m.data.homing.startedMs
  {
  }

  lemma ControlKeepsAttempt(w: World, dt: real, now: Word)
    ensures AttemptKept(w, ControlUpdated(w, dt, now).0)
  {
    if w.axis.m.data.state == Homing {
      HomingKeepsAttempt(w, now);
    } else {
      EvaluateKeeps(Published(w));
      var v := if w.safety.homeContact then EvaluatedAndSynced(Published(w)) else w;
      UpdateKeepsAttempt(v.axis, Finite(dt));
    }
  }

  lemma SettleKeepsAttempt(w: World, now: Word)
    ensures AttemptKept(w, HomingSettled(w, now))
  {
    match w.axis.m.data.homing.result
    case HomeTimeout => EvaluateKeeps(Enforced(w.(safety := HomingTimedOut(w.safety, now))));
    case HomeComplete =>
      EvaluateKeeps(Published(w.(safety := w.safety.(homeContact := true),
                                 aux := w.aux.(contactRaw := w.axis.encoder.raw))));
    case _ =>
  }

  lemma FinishKeepsAttempt(w: World)
    requires w.cycle.Open?
    ensures AttemptKept(w, MotionFinished(w)) && AttemptKept(Synced(w), MotionFinished(w))
  {
    var c := w.cycle;
    var v := Synced(w);
    EvaluateKeeps(w);
    ControlKeepsAttempt(v, c.dt, c.now);
    var (u, ok) := if c.sampled then ControlUpdated(v, c.dt, c.now) else (v, false);
    var s := if Active(v.axis.m.data.state) then MoreAborted(u.safety) else u.safety;
    EvaluateKeeps(IntegrityLost(u.(safety := s), c.now));
  }

  /** A cycle that ends keeps its time as the one before. */
  lemma FinishRests(w: World)
    requires w.cycle.Open?
    ensures MotionFinished(w).cycle.Resting? && MotionFinished(w).previousMs == w.cycle.now
  {
  }

  lemma FinishKeepsClock(w: World)
    requires HomeClock(w) && w.cycle.Open?
    ensures HomeClock(MotionFinished(w))
  {
    FinishKeepsAttempt(w);
    FinishRests(w);
    RestedClock(w, MotionFinished(w));
  }

  lemma RestedClock(w: World, v: World)
    requires HomeClock(w) && w.cycle.Open? && AttemptKept(w, v) && v.cycle.Resting? && v.previousMs == w.cycle.now
    ensures HomeClock(v)
  {
  }

  lemma SyncSectionKeepsClock(w: World)
    requires HomeClock(w) && w.cycle.Begun?
    ensures HomeClock(MotionSynced(w))
  {
    var c := w.cycle;
    EvaluateKeeps(if c.sampled then w else SampleLost(w, c.before, c.now));
  }

  lemma BeginKeepsClock(w: World)
    requires HomeClock(w) && w.cycle.Resting?
    ensures HomeClock(MotionBegun(w))
  {
  }

  lemma StepKeepsClock(w: World, e: Event)
    requires HomeClock(w) && Enabled(w, e)
    ensures HomeClock(Step(w, e))
  {
    match e
    case SafetyCycle => EvaluateKeeps(w);
    case MotionBegin => BeginKeepsClock(w);
    case MotionSync => SyncSectionKeepsClock(w);
    case MotionReceive(c) => ReceiveKeepsClock(w, c);
    case MotionFinish => FinishKeepsClock(w);
    case _ =>
  }

  lemma ReachableClock(w: World)
    requires Reachable(w)
    ensures Inv(w) && HomeClock(w)
  {
    var ws: seq<World>, es: seq<Event> :| Run(ws, es) && Start(ws[0]) && ws[|es|] == w;
    StartIsSafe(ws[0]);
    for k := 0 to |es|
      invariant Inv(ws[k]) && HomeClock(ws[k])
    {
      StepKeepsInv(ws[k], es[k]);
      StepKeepsClock(ws[k], es[k]);
    }
  }

  // The outcome of one homing update.

  /** The world as a homing update finds it: re-evaluated if any input is active or unreadable. */
  function Judged(w: World): World {
    if HomingInterrupt(w.pins) then EvaluatedAndSynced(Published(w)) else w
  }

  /** An update of a live attempt is about to close the cycle. */
  predicate Seeking(w: World) {
    w.axis.m.data.state == Homing && w.safety.state == Idle && w.cycle.Open? && w.cycle.sampled
  }

  /** True time since HOME was accepted, as this cycle captured it. */
  function Age(w: World): int {
    w.aux.capturedAt - w.aux.homeAt
  }

  datatype Outcome = Latched | TimedOut | Homed | Driving | Refused

  function OutcomeOf(w: World): Outcome {
    if Judged(w).safety.state != Idle then Latched
    else if Wrap(Age(w)) >= HOMING_TIMEOUT_MS then TimedOut
    else if w.pins.ready && w.pins.inputs.negativeLimit then Homed
    else if Blocks(Judged(w).axis.gate, HOMING_PWM) then Refused
    else Driving
  }

  /** What each outcome leaves behind. */
  predicate Leaves(w: World, o: Outcome, v: World) {
    match o
    case Latched =>
      && v.safety.state != Idle && v.axis.m.data.state == v.safety.state
      && v.axis.m.data.homing.result == (if v.safety.state == Estop then HomeEstopped else HomeFaulted)
      && v.axis.encoder == w.axis.encoder && v.axis.gate.output == 0.0
    case TimedOut =>
      && v.safety.state == Fault && v.axis.m.data.state == Fault && v.safety.faults.active.code == HomingTimeoutFault
      && v.axis.m.data.homing.result == HomeTimeout
      && v.axis.encoder == w.axis.encoder && v.axis.gate.output == 0.0
    case Homed =>
      References(w, v)
    case Driving =>
      && v.axis.m.data.state == Homing && v.safety.state == Idle && v.axis.m.data.homing.result == HomeRunning
      && v.axis.encoder == w.axis.encoder && v.axis.gate.output == -0.30
    case Refused =>
      && v.safety.internalActive && v.safety.state == Fault && v.axis.m.data.state == Fault
      && v.axis.m.data.homing.result == HomeFaulted
      && v.axis.encoder == w.axis.encoder && v.axis.gate.output == 0.0
  }

  /** A judged world that is still unlatched is the same attempt at the same age. */
  lemma JudgedSeeks(w: World)
    requires Inv(w) && HomeClock(w) && Seeking(w)
    ensures var v := Judged(w);
            && Inv(v) && v.axis.encoder == w.axis.encoder
            && (v.safety.state == Idle ==> v.axis.m == w.axis.m)
            && (v.safety.state != Idle ==>
                  && v.axis.m.data.state == v.safety.state && v.axis.gate.output == 0.0
                  && v.axis.m.data.homing.result == if v.safety.state == Estop then HomeEstopped else HomeFaulted)
            && (v.safety.state == Idle ==> w.pins.ready && !w.pins.inputs.estop && !w.pins.inputs.positiveLimit)
  {
    EvaluateAndSyncKeeps(Published(w));
    EvaluateAndSyncIsQuiet(Published(w));
  }

  /** The age the code computes is the true age, modulo 2^32. */
  lemma AgeInWords(w: World)
    requires HomeClock(w) && Seeking(w)
    ensures Elapsed(w.cycle.now, w.axis.m.data.homing.startedMs) == Wrap(Age(w))
  {
    WrapDifference(w.aux.capturedAt, w.aux.homeAt);
  }

  lemma TimeoutOutcome(v: World, now: Word)
    requires Inv(v) && v.safety.state == Idle && v.axis.m.data.state == Homing && v.axis.m.data.feedbackValid
    requires !ReadPins(v.pins).estop && !ReadPins(v.pins).positiveLimit
    requires Elapsed(now, v.axis.m.data.homing.startedMs) >= HOMING_TIMEOUT_MS
    ensures var (a, ok) := HomingUpdated(v.axis, ReadPins(v.pins), now);
            ok && Leaves(v, TimedOut, HomingSettled(v.(axis := a), now))
  {
    var (a, ok) := HomingUpdated(v.axis, ReadPins(v.pins), now);
    var t := v.(axis := a, safety := HomingTimedOut(v.safety, now));
    EnforceEstablishes(t);
    assert t.safety.faults.active.code == HomingTimeoutFault;
  }

  lemma ContactOutcome(v: World, now: Word)
    requires Inv(v) && v.safety.state == Idle && v.axis.m.data.state == Homing && v.axis.m.data.feedbackValid
    requires !ReadPins(v.pins).estop && !ReadPins(v.pins).positiveLimit && ReadPins(v.pins).negativeLimit
    requires Elapsed(now, v.axis.m.data.homing.startedMs) < HOMING_TIMEOUT_MS
    ensures var (a, ok) := HomingUpdated(v.axis, ReadPins(v.pins), now);
            ok && References(v, HomingSettled(v.(axis := a), now))
  {
    var (a, ok) := HomingUpdated(v.axis, ReadPins(v.pins), now);
    CompletionReferences(v, a, now);
  }

  lemma SeekOutcome(v: World, now: Word)
    requires Inv(v) && v.safety.state == Idle && v.axis.m.data.state == Homing && v.axis.m.data.feedbackValid
    requires ReadPins(v.pins) == NO_INPUTS
    requires Elapsed(now, v.axis.m.data.homing.startedMs) < HOMING_TIMEOUT_MS
    ensures var (a, ok) := HomingUpdated(v.axis, ReadPins(v.pins), now);
            && ok == !Blocks(v.axis.gate, HOMING_PWM)
            && a.encoder == v.axis.encoder && a.m.data.state == Homing && a.m.data.homing.result == HomeRunning
            && (ok ==> HomingSettled(v.(axis := a), now) == v.(axis := a) && a.gate.output == HOMING_PWM)
  {
  }

  /** A refused drive is an integrity failure, and takes the attempt down with it. */
  lemma RefusedOutcome(u: World, now: Word)
    requires Core(u) && u.safety.state == Idle && u.axis.m.data.state == Homing
    requires u.axis.m.data.homing.result == HomeRunning
    ensures var t := UpdateLost(u, true, now);
            && t.safety.internalActive && t.safety.state == Fault && t.axis.m.data.state == Fault
            && t.axis.m.data.homing.result == HomeFaulted
            && t.axis.encoder == u.axis.encoder && t.axis.gate.output == 0.0
  {
    var v := u.(safety := MoreAborted(u.safety));
    EnforceEstablishes(v.(safety := InternalFailed(v.safety, now)));
  }

  /** Every homing update has exactly one of five outcomes, fixed by the policy's judgement, the true age
      of the attempt modulo 2^32, the switch and the gate, in this order: a timeout is preferred to a switch
      first seen at the deadline. */
  lemma UpdateOutcome(w: World)
    requires Inv(w) && HomeClock(w) && Seeking(w)
    ensures Leaves(w, OutcomeOf(w), MotionFinished(w))
  {
    JudgedSeeks(w);
    AgeInWords(w);
    var v, now := Judged(w), w.cycle.now;
    assert Synced(w) == w;
    if v.safety.state == Idle {
      if OutcomeOf(w) == TimedOut {
        TimeoutOutcome(v, now);
      } else if OutcomeOf(w) == Homed {
        ContactOutcome(v, now);
        EvaluateAndSyncIsQuiet(Published(w));
        QuietThenReferences(w, v, MotionFinished(w));
      } else {
        SeekLeaves(w, v);
      }
    }
  }

  /** The update that drives on, or is refused. */
  lemma SeekLeaves(w: World, v: World)
    requires Inv(w) && HomeClock(w) && Seeking(w) && v == Judged(w) && v.safety.state == Idle && v.axis.m == w.axis.m
    requires Inv(v) && v.axis.encoder == w.axis.encoder && ReadPins(w.pins) == NO_INPUTS
    requires Wrap(Age(w)) < HOMING_TIMEOUT_MS
    ensures Leaves(w, if Blocks(v.axis.gate, HOMING_PWM) then Refused else Driving, MotionFinished(w))
  {
    var now := w.cycle.now;
    AgeInWords(w);
    SeekOutcome(v, now);
    HomingKeeps(v.axis, ReadPins(w.pins), now);
    RefusedOutcome(v.(axis := HomingUpdated(v.axis, ReadPins(w.pins), now).0), now);
    assert Synced(w) == w;
  }

  /** The verdict on a true age short of a wrap. */
  predicate VerdictOk(age: int, o: Outcome) {
    && (o == TimedOut ==> age >= 40000)
    && (age >= 40000 ==> o == TimedOut || o == Latched)
  }

  lemma OutcomeVerdict(w: World)
    requires 0 <= Age(w) < WORD
    ensures VerdictOk(Age(w), OutcomeOf(w))
  {
  }

  lemma OnlyDrivingSeeks(w: World, o: Outcome, v: World)
    requires Leaves(w, o, v) && VerdictOk(Age(w), o)
    ensures v.axis.m.data.state == Homing ==> Age(w) < 40000
  {
  }

  /** In every reachable state: if the clock has not moved between the cycle's capture and its HOME, as in
      stepped operation, then an update at a true age of 40000 ms or more leaves HOMING, and none times out
      earlier; all this across timer wrap. */
  lemma DeadlineIsExact(w: World, v: World)
    requires Reachable(w) && Seeking(w) && 0 <= Age(w) < WORD && v == MotionFinished(w)
    ensures Leaves(w, OutcomeOf(w), v) && VerdictOk(Age(w), OutcomeOf(w))
    ensures v.axis.m.data.state == Homing ==> Age(w) < 40000
  {
    ReachableClock(w);
    UpdateOutcome(w);
    OutcomeVerdict(w);
    OnlyDrivingSeeks(w, OutcomeOf(w), v);
  }

  predicate TimesOut(w: World)
    requires w.cycle.Open?
  {
    MotionFinished(w).axis.m.data.homing.result == HomeTimeout
  }

  lemma TimeoutIsTheVerdict(w: World, o: Outcome, v: World)
    requires Leaves(w, o, v)
    ensures v.axis.m.data.homing.result == HomeTimeout <==> o == TimedOut
  {
  }

  /** The assumption is needed, and exactly that: in every reachable state in which an update judges the age
      of an attempt, and that within a wrap of its deadline, the update times the attempt out when it should,
      and only then, if and only if HOME was not accepted after the cycle's capture. */
  lemma VerdictIsRightIffCapturedAfter(w: World)
    requires Reachable(w) && Seeking(w) && Judged(w).safety.state == Idle
    requires -(WORD - 40000) <= Age(w) < WORD
    ensures (TimesOut(w) <==> Age(w) >= 40000) <==> w.aux.capturedAt >= w.aux.homeAt
  {
    ReachableClock(w);
    UpdateOutcome(w);
    TimeoutIsTheVerdict(w, OutcomeOf(w), MotionFinished(w));
    AgesWithinAWrap(Age(w));
  }

  lemma AgesWithinAWrap(age: int)
    requires -(WORD - 40000) <= age < WORD
    ensures (Wrap(age) >= 40000 <==> age >= 40000) <==> age >= 0
  {
  }

  // The deadline over runs.

  predicate HomeAccepted(w: World, e: Event)
    requires Enabled(w, e)
  {
    e.MotionReceive? && e.command.kind == Home && ReceivedResult(w, e.command).1 == Accepted
  }

  /** During an attempt the next cycle begins less than 2^32 - 40000 ms after the one before; and HOME is
      accepted at the time that its cycle captured. */
  predicate Punctual(w: World, e: Event)
    requires Enabled(w, e)
  {
    && (e.MotionBegin? && w.axis.m.data.state == Homing ==> w.clock - w.aux.capturedAt < WORD - 40000)
    && (HomeAccepted(w, e) ==> w.clock == w.aux.capturedAt)
  }

  /** An attempt that its last update has left under way was short of its deadline then. */
  predicate Young(w: World) {
    w.axis.m.data.state == Homing ==> 0 <= Age(w) < if w.cycle.Resting? then 40000 else WORD
  }

  lemma KeptYoung(w: World, v: World)
    requires Young(w) && AttemptKept(w, v) && (w.cycle.Resting? <==> v.cycle.Resting?)
    ensures Young(v)
  {
  }

  lemma BeginKeepsYoung(w: World)
    requires Young(w) && HomeClock(w) && w.cycle.Resting? && Punctual(w, MotionBegin)
    ensures Young(MotionBegun(w))
  {
  }

  lemma SyncSectionKeepsAttempt(w: World)
    requires w.cycle.Begun?
    ensures AttemptKept(w, MotionSynced(w)) && MotionSynced(w).cycle.Open?
  {
    EvaluateKeeps(if w.cycle.sampled then w else SampleLost(w, w.cycle.before, w.cycle.now));
  }

  lemma HomeStartsYoung(w: World)
    ensures var v := HomeTaken(w).0;
            if HomingStartResult(w.axis.m) == Accepted
            then v.aux.homeAt == w.clock && v.aux.capturedAt == w.aux.capturedAt
            else AttemptKept(w, v)
  {
    var v := Published(w.(axis := HomingStarted(w.axis, Now(w))));
    EvaluateKeeps(v.(aux := v.aux.(homeAt := w.clock)));
  }

  lemma ReceiveKeepsYoung(w: World, c: Command)
    requires Young(w) && Enabled(w, MotionReceive(c)) && Punctual(w, MotionReceive(c))
    ensures Young(MotionReceived(w, c))
  {
    if c.kind == Home {
      HomeStartsYoung(w);
      HomeReceivedYoung(w, c);
    } else {
      CommandKeepsHome(w, c);
      KeptYoung(w, MotionReceived(w, c));
    }
  }

  lemma HomeReceivedYoung(w: World, c: Command)
    requires Young(w) && Enabled(w, MotionReceive(c)) && Punctual(w, MotionReceive(c)) && c.kind == Home
    requires var v := HomeTaken(w).0;
             if HomingStartResult(w.axis.m) == Accepted
             then v.aux.homeAt == w.clock && v.aux.capturedAt == w.aux.capturedAt
             else AttemptKept(w, v)
    ensures Young(MotionReceived(w, c))
  {
    var v := MotionReceived(w, c);
    if ReceivedResult(w, c).0 == HomeTaken(w).0 {
      assert v.aux == HomeTaken(w).0.aux && v.axis == HomeTaken(w).0.axis && v.clock == HomeTaken(w).0.clock;
    } else {
      assert ReceivedResult(w, c).0 == w;
    }
  }

  lemma LostIsNoHoming(w: World)
    requires w.cycle.Open? && !w.cycle.sampled
    ensures MotionFinished(w).axis.m.data.state != Homing
  {
  }

  /** Only an update of a live attempt leaves it under way. */
  lemma OnlySeekingGoesOn(w: World, v: World)
    requires Inv(w) && w.cycle.Open? && AttemptKept(Synced(w), v) && v.axis.m.data.state == Homing
    requires !w.cycle.sampled ==> v.axis.m.data.state != Homing
    ensures Seeking(w)
  {
    assert SafetyOk(w.safety);
  }

  lemma FinishKeepsYoung(w: World)
    requires Inv(w) && HomeClock(w) && Young(w) && w.cycle.Open?
    ensures Young(MotionFinished(w))
  {
    FinishKeepsAttempt(w);
    FinishRests(w);
    if !w.cycle.sampled {
      LostIsNoHoming(w);
    }
    if MotionFinished(w).axis.m.data.state == Homing {
      OnlySeekingGoesOn(w, MotionFinished(w));
      UpdateOutcome(w);
      OutcomeVerdict(w);
      OnlyDrivingSeeks(w, OutcomeOf(w), MotionFinished(w));
    }
  }

  lemma StepKeepsYoung(w: World, e: Event)
    requires Inv(w) && HomeClock(w) && Young(w) && Enabled(w, e) && Punctual(w, e)
    ensures Young(Step(w, e))
  {
    match e
    case SafetyCycle =>
      EvaluateKeeps(w);
      KeptYoung(w, SafetyCycled(w));
    case MotionBegin => BeginKeepsYoung(w);
    case MotionSync =>
      SyncSectionKeepsAttempt(w);
      KeptYoung(w, MotionSynced(w));
    case MotionReceive(c) => ReceiveKeepsYoung(w, c);
    case MotionFinish => FinishKeepsYoung(w);
    case _ =>
  }

  /** The deadline over runs from power-up, with no bound on the age: however long an attempt lasts, and across
      timer wraps, each of its updates sees its true age; from 40000 ms on the attempt is over, and before
      that no update times it out. */
  lemma DeadlineOverRuns(ws: seq<World>, es: seq<Event>, n: nat)
    requires Run(ws, es) && Start(ws[0]) && n < |es| && es[n] == MotionFinish && Seeking(ws[n])
    requires forall k | 0 <= k < n :: Punctual(ws[k], es[k])
    ensures 0 <= Age(ws[n]) < WORD
    ensures Leaves(ws[n], OutcomeOf(ws[n]), ws[n + 1]) && VerdictOk(Age(ws[n]), OutcomeOf(ws[n]))
    ensures ws[n + 1].axis.m.data.state == Homing ==> Age(ws[n]) < 40000
  {
    StartIsSafe(ws[0]);
    for k := 0 to n
      invariant Inv(ws[k]) && HomeClock(ws[k]) && Young(ws[k])
    {
      StepKeepsInv(ws[k], es[k]);
      StepKeepsClock(ws[k], es[k]);
      StepKeepsYoung(ws[k], es[k]);
    }
    UpdateOutcome(ws[n]);
    OutcomeVerdict(ws[n]);
    OnlyDrivingSeeks(ws[n], OutcomeOf(ws[n]), ws[n + 1]);
  }

  /** An attempt always gets nearer its deadline: each sampled cycle is captured later than the one before. */
  lemma CyclesAdvance(w: World)
    requires Reachable(w) && w.cycle.Resting? && !w.first
    requires MotionBegun(w).cycle.sampled
    ensures MotionBegun(w).aux.capturedAt > w.aux.capturedAt
    ensures MotionBegun(w).aux.homeAt == w.aux.homeAt
  {
    ReachableClock(w);
    assert w.clock == w.aux.capturedAt ==> Gap(w) == 0;
  }
}
