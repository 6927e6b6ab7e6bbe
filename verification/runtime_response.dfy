/** How soon the supervisor reacts: stale tasks, held inputs, and the watchdog. */
module RuntimeResponse {
  import opened Words
  import opened Floats
  import opened CommandTypes
  import opened MotionControl
  import opened SafetyPolicy
  import opened RuntimeModel
  import opened RuntimeSafety
  import opened RuntimeRuns

  // True times behind the wrapped ones.

  /** The health records hold the wrapped true times of the last beats. */
  predicate Clocks(w: World) {
    && (forall i | 0 <= i < 3 :: w.aux.beatAt[i] <= w.clock || !w.health[i].seen)
    && (forall i | 0 <= i < 3 :: w.health[i].seen ==> w.health[i].lastMs == Wrap(w.aux.beatAt[i]))
    && w.aux.startedAt <= w.aux.evaluatedAt <= w.clock
    && w.safety.startupMs == Wrap(w.aux.startedAt)
  }

  /** Task i had beaten, and at time t its last beat is at most 150 ms old, modulo 2^32. */
  predicate FreshAt(w: World, i: nat, t: nat)
    requires i < 3
  {
    w.health[i].seen && (w.aux.beatAt[i] <= t ==> Wrap(t - w.aux.beatAt[i]) <= HEALTH_MAXIMUM_AGE_MS)
  }

  predicate GraceOver(w: World) {
    Wrap(w.aux.evaluatedAt - w.aux.startedAt) >= STARTUP_GRACE_MS
  }

  /** Inputs that nothing may be driven on: unreadable, E-stop, or the positive limit. */
  predicate Hazardous(p: Pins) {
    !p.ready || p.inputs.estop || p.inputs.positiveLimit
  }

  /** What the last evaluation still guarantees. */
  predicate Sensible(w: World) {
    && (w.safety.sensed.healthy ==> forall i | 0 <= i < 3 :: FreshAt(w, i, w.aux.evaluatedAt))
    && (!w.safety.sensed.healthy && GraceOver(w) ==> w.safety.state != Idle)
    && (w.aux.pinsSeen ==> w.safety.sensed.valid == w.pins.ready && w.safety.sensed.inputs == ReadPins(w.pins))
    && (w.aux.pinsSeen && Hazardous(w.pins) ==> w.safety.state != Idle)
    && (w.safety.sensed.inputs.estop ==> w.safety.state == Estop)
  }

  predicate Timely(w: World) {
    Clocks(w) && Sensible(w)
  }

  /** Freshness against true time: the code's test is exact modulo 2^32 ms. */
  lemma FreshnessIsModular(w: World, i: nat)
    requires Clocks(w) && i < 3
    ensures Fresh(w.health[i], Now(w)) <==> w.health[i].seen && Wrap(w.clock - w.aux.beatAt[i]) <= HEALTH_MAXIMUM_AGE_MS
  {
    WrapDifference(w.clock, w.aux.beatAt[i]);
  }

  // Evaluations establish it; everything else leaves it alone.

  /** The outcome of an evaluation, as far as times and inputs go. */
  lemma AttestedIsTimely(w: World, v: World)
    requires Clocks(w)
    requires v.aux == w.aux.(evaluatedAt := w.clock, pinsSeen := true)
    requires v.health == w.health && v.pins == w.pins && v.clock == w.clock && v.safety.startupMs == w.safety.startupMs
    requires v.safety.sensed.healthy <==> forall i | 0 <= i < 3 :: FreshAt(w, i, w.clock)
    requires !v.safety.sensed.healthy && Wrap(w.clock - w.aux.startedAt) >= STARTUP_GRACE_MS ==> v.safety.state != Idle
    requires v.safety.sensed.valid == w.pins.ready && v.safety.sensed.inputs == ReadPins(w.pins)
    requires v.safety.sensed.inputs.estop ==> v.safety.state == Estop
    requires Hazardous(w.pins) ==> v.safety.state != Idle
    ensures Timely(v)
  {
    assert forall i | 0 <= i < 3 :: FreshAt(v, i, v.aux.evaluatedAt) <==> FreshAt(w, i, w.clock);
  }

  lemma EvaluateIsTimely(w: World)
    requires Clocks(w)
    ensures Timely(EvaluatedWorld(w))
    ensures EvaluatedWorld(w).safety.sensed.healthy <==> forall i | 0 <= i < 3 :: FreshAt(w, i, w.clock)
  {
    forall i | 0 <= i < 3
      ensures FreshAt(w, i, w.clock) <==> Fresh(w.health[i], Now(w))
    {
      FreshnessIsModular(w, i);
    }
    WrapDifference(w.clock, w.aux.startedAt);
    AttestedIsTimely(w, EvaluatedWorld(w));
  }

  /** Nothing was evaluated, beaten or ticked, and no latch was left. */
  predicate Unevaluated(w: World, v: World) {
    && v.aux.(homeAt := 0, contactRaw := 0, capturedAt := 0) == w.aux.(homeAt := 0, contactRaw := 0, capturedAt := 0)
    && v.health == w.health && v.pins == w.pins && v.clock == w.clock
    && v.safety.sensed == w.safety.sensed && v.safety.startupMs == w.safety.startupMs
    && (w.safety.state != Idle ==> v.safety.state != Idle) && (w.safety.state == Estop ==> v.safety.state == Estop)
  }

  lemma UnevaluatedIsTimely(w: World, v: World)
    requires Timely(w) && Unevaluated(w, v)
    ensures Timely(v)
  {
    assert forall i | 0 <= i < 3 :: FreshAt(w, i, w.aux.evaluatedAt) <==> FreshAt(v, i, v.aux.evaluatedAt);
  }

  lemma EnforceIsUnevaluated(w: World)
    ensures Unevaluated(w, Enforced(w))
  {
  }

  lemma SyncIsUnevaluated(w: World)
    ensures Unevaluated(w, Synced(w)) && Synced(w).safety.state == w.safety.state
  {
  }

  lemma EvaluateAndSyncIsTimely(w: World)
    requires Clocks(w)
    ensures Timely(EvaluatedAndSynced(w))
    ensures EvaluatedAndSynced(w).aux.(evaluatedAt := 0, pinsSeen := false)
            == w.aux.(evaluatedAt := 0, pinsSeen := false)
  {
    EvaluateIsTimely(w);
    SyncIsUnevaluated(EvaluatedWorld(w));
    UnevaluatedIsTimely(EvaluatedWorld(w), EvaluatedAndSynced(w));
  }

  lemma StopIsTimely(w: World)
    requires Timely(w)
    ensures Timely(StopLatched(w))
  {
    var v := w.(safety := Stopped(w.safety, Now(w)));
    EnforceIsUnevaluated(v);
    SyncIsUnevaluated(Enforced(v));
    UnevaluatedIsTimely(w, StopLatched(w));
  }

  lemma ResetIsTimely(w: World)
    requires Clocks(w) && Timely(w)
    ensures Timely(ResetTaken(w).0)
  {
    EvaluateIsTimely(w);
    if ResetTaken(w).1 == Accepted {
      var v, u := EvaluatedWorld(w), ResetTaken(w).0;
      assert HazardFree(v.safety);
      assert forall i | 0 <= i < 3 :: FreshAt(v, i, v.aux.evaluatedAt) <==> FreshAt(u, i, u.aux.evaluatedAt);
    }
  }

  lemma HomeIsTimely(w: World)
    requires Timely(w)
    ensures Timely(HomeTaken(w).0)
  {
    var v := Published(w.(axis := HomingStarted(w.axis, Now(w))));
    EvaluateAndSyncIsTimely(v.(aux := v.aux.(homeAt := w.clock)));
    UnevaluatedIsTimely(w, v);
  }

  lemma CancelIsTimely(w: World)
    requires Timely(w)
    ensures Timely(HomeCancelled(w))
  {
    UnevaluatedIsTimely(w, HomeCancelled(w));
  }

  lemma DepartureIsTimely(w: World, c: Command)
    requires Timely(w)
    ensures Timely(DepartureTaken(w, c).0)
  {
    EvaluateAndSyncIsTimely(Published(w.(axis := Commanded(w.axis, c))));
  }

  lemma CommandIsTimely(w: World, c: Command)
    requires Timely(w)
    ensures Timely(CommandTaken(w, c).0)
  {
    if c.kind == EmergencyStop {
      StopIsTimely(w);
    } else if c.kind == Reset {
      ResetIsTimely(w);
    } else if c.kind == Home {
      HomeIsTimely(w);
    } else {
      CancelIsTimely(w);
      DepartureIsTimely(w, c);
      UnevaluatedIsTimely(w, w.(axis := Commanded(w.axis, c)));
    }
  }

  lemma SettleIsTimely(w: World, now: Word)
    requires Timely(w)
    ensures Timely(HomingSettled(w, now))
  {
    match w.axis.m.data.homing.result
    case HomeTimeout =>
      var v := w.(safety := HomingTimedOut(w.safety, now));
      EnforceIsUnevaluated(v);
      SyncIsUnevaluated(Enforced(v));
      UnevaluatedIsTimely(w, HomingSettled(w, now));
    case HomeComplete =>
      EvaluateIsTimely(Published(w.(safety := w.safety.(homeContact := true),
                                    aux := w.aux.(contactRaw := w.axis.encoder.raw))));
    case _ =>
  }

  lemma ControlIsTimely(w: World, dt: real, now: Word)
    requires Timely(w)
    ensures Timely(ControlUpdated(w, dt, now).0)
  {
    EvaluateAndSyncIsTimely(Published(w));
    if w.axis.m.data.state == Homing {
      var v := if HomingInterrupt(w.pins) then EvaluatedAndSynced(Published(w)) else w;
      var (a, ok) := HomingUpdated(v.axis, ReadPins(w.pins), now);
      UnevaluatedIsTimely(v, v.(axis := a));
      SettleIsTimely(v.(axis := a), now);
    } else {
      var v := if w.safety.homeContact then EvaluatedAndSynced(Published(w)) else w;
      UnevaluatedIsTimely(v, v.(axis := MotionUpdated(v.axis, Finite(dt)).0));
    }
  }

  lemma LostIsTimely(w: World, active: bool, now: Word)
    requires Timely(w)
    ensures Timely(UpdateLost(w, active, now))
  {
    var v := w.(safety := InternalFailed(if active then MoreAborted(w.safety) else w.safety, now));
    EnforceIsUnevaluated(v);
    SyncIsUnevaluated(Enforced(v));
    UnevaluatedIsTimely(w, UpdateLost(w, active, now));
  }

  lemma UpdateIsTimely(v: World, c: Cycle)
    requires Timely(v) && c.Open?
    ensures var (u, ok) := if c.sampled then ControlUpdated(v, c.dt, c.now) else (v, false);
            Timely(if ok then u else UpdateLost(u, Active(v.axis.m.data.state), c.now))
  {
    ControlIsTimely(v, c.dt, c.now);
    var (u, ok) := if c.sampled then ControlUpdated(v, c.dt, c.now) else (v, false);
    LostIsTimely(u, Active(v.axis.m.data.state), c.now);
  }

  lemma FinishIsTimely(w: World)
    requires Timely(w) && w.cycle.Open?
    ensures Timely(MotionFinished(w))
  {
    var c := w.cycle;
    var v := Synced(w);
    SyncIsUnevaluated(w);
    UnevaluatedIsTimely(w, v);
    UpdateIsTimely(v, c);
    var (u, ok) := if c.sampled then ControlUpdated(v, c.dt, c.now) else (v, false);
    UnevaluatedIsTimely(if ok then u else UpdateLost(u, Active(v.axis.m.data.state), c.now), MotionFinished(w));
  }

  lemma SyncSectionIsTimely(w: World)
    requires Timely(w) && w.cycle.Begun?
    ensures Timely(MotionSynced(w))
  {
    var c := w.cycle;
    var v := if c.sampled then w else SampleLost(w, c.before, c.now);
    SyncIsUnevaluated(v);
    UnevaluatedIsTimely(w, MotionSynced(w));
  }

  lemma EnvironmentIsTimely(w: World, e: Event)
    requires Timely(w) && Enabled(w, e)
    requires e.Beat? || e.Tick? || e.SetPins? || e.SetRaw? || e.StaleSet? || e.StaleDisable?
    ensures Timely(Step(w, e))
  {
    var v := Step(w, e);
    assert forall i | 0 <= i < 3 :: FreshAt(w, i, w.aux.evaluatedAt) ==> FreshAt(v, i, v.aux.evaluatedAt);
  }

  lemma StepIsTimely(w: World, e: Event)
    requires Timely(w) && Enabled(w, e)
    ensures Timely(Step(w, e))
  {
    match e
    case SafetyCycle =>
      EvaluateIsTimely(w);
      UnevaluatedIsTimely(EvaluatedWorld(w), Step(w, e));
    case MotionBegin => UnevaluatedIsTimely(w, MotionBegun(w));
    case MotionSync => SyncSectionIsTimely(w);
    case MotionReceive(c) =>
      CommandIsTimely(w, c);
      UnevaluatedIsTimely(ReceivedResult(w, c).0, MotionReceived(w, c));
    case MotionFinish => FinishIsTimely(w);
    case _ => EnvironmentIsTimely(w, e);
  }

  lemma ReachableIsTimely(w: World)
    requires Reachable(w)
    ensures Inv(w) && Timely(w)
  {
    var ws: seq<World>, es: seq<Event> :| Run(ws, es) && Start(ws[0]) && ws[|es|] == w;
    StartIsSafe(ws[0]);
    for k := 0 to |es|
      invariant Inv(ws[k]) && Timely(ws[k])
    {
      StepKeepsInv(ws[k], es[k]);
      StepIsTimely(ws[k], es[k]);
    }
  }

  // Bounded response.

  /** Safety has kept its period up to now. */
  predicate OnSchedule(w: World) {
    w.clock - w.aux.evaluatedAt <= SAFETY_PERIOD_MS
  }

  predicate SameRefreshes(w: World, v: World) {
    v.safety.account.watchdogRefreshes == w.safety.account.watchdogRefreshes
  }

  /** No other step refreshes it. */
  lemma OnlySafetyRefreshes(w: World, e: Event)
    requires Enabled(w, e) && e != SafetyCycle
    ensures SameRefreshes(w, Step(w, e))
  {
    match e
    case MotionReceive(c) => CommandRefreshes(w, c);
    case MotionFinish => FinishRefreshes(w);
    case _ =>
  }

  lemma EvaluateRefreshes(w: World)
    ensures SameRefreshes(w, EvaluatedWorld(w)) && SameRefreshes(w, EvaluatedAndSynced(w)) &&
            SameRefreshes(w, Synced(w))
  {
  }

  lemma HomeRefreshes(w: World)
    ensures SameRefreshes(w, HomeTaken(w).0)
  {
    var v := Published(w.(axis := HomingStarted(w.axis, Now(w))));
    EvaluateRefreshes(v.(aux := v.aux.(homeAt := w.clock)));
  }

  lemma DepartureRefreshes(w: World, c: Command)
    ensures SameRefreshes(w, DepartureTaken(w, c).0)
  {
    EvaluateRefreshes(Published(w.(axis := Commanded(w.axis, c))));
  }

  lemma CommandRefreshes(w: World, c: Command)
    ensures SameRefreshes(w, CommandTaken(w, c).0)
  {
    if c.kind == EmergencyStop {
      EvaluateRefreshes(Enforced(w.(safety := Stopped(w.safety, Now(w)))));
    } else if c.kind == Reset {
      EvaluateRefreshes(w);
    } else if c.kind == Home {
      HomeRefreshes(w);
    } else {
      DepartureRefreshes(w, c);
    }
  }

  lemma FinishRefreshes(w: World)
    requires w.cycle.Open?
    ensures SameRefreshes(w, MotionFinished(w))
  {
    var c := w.cycle;
    var v := Synced(w);
    EvaluateRefreshes(w);
    ControlRefreshes(v, c.dt, c.now);
    var (u, ok) := if c.sampled then ControlUpdated(v, c.dt, c.now) else (v, false);
    var s := if Active(v.axis.m.data.state) then MoreAborted(u.safety) else u.safety;
    EvaluateRefreshes(IntegrityLost(u.(safety := s), c.now));
  }

  lemma ControlRefreshes(w: World, dt: real, now: Word)
    ensures SameRefreshes(w, ControlUpdated(w, dt, now).0)
  {
    EvaluateRefreshes(Published(w));
    if w.axis.m.data.state == Homing {
      var v := if HomingInterrupt(w.pins) then EvaluatedAndSynced(Published(w)) else w;
      SettleRefreshes(v.(axis := HomingUpdated(v.axis, ReadPins(w.pins), now).0), now);
    }
  }

  lemma SettleRefreshes(w: World, now: Word)
    ensures SameRefreshes(w, HomingSettled(w, now))
  {
    EvaluateRefreshes(Enforced(w.(safety := HomingTimedOut(w.safety, now))));
    EvaluateRefreshes(Published(w.(safety := w.safety.(homeContact := true),
                                   aux := w.aux.(contactRaw := w.axis.encoder.raw))));
  }

  lemma SafetyRefreshes(w: World)
    requires Clocks(w)
    ensures SameRefreshes(w, SafetyCycled(w)) <==> !forall i | 0 <= i < 3 :: FreshAt(w, i, w.clock)
  {
    EvaluateIsTimely(w);
    EvaluateRefreshes(w);
  }

  lemma BeatsAreFreshness(w: World)
    requires Clocks(w)
    ensures (forall i | 0 <= i < 3 :: FreshAt(w, i, w.clock)) <==>
            forall i | 0 <= i < 3 :: w.health[i].seen && Wrap(w.clock - w.aux.beatAt[i]) <= HEALTH_MAXIMUM_AGE_MS
  {
    assert forall i | 0 <= i < 3 :: FreshAt(w, i, w.clock) <==>
        w.health[i].seen && Wrap(w.clock - w.aux.beatAt[i]) <= HEALTH_MAXIMUM_AGE_MS;
  }

  /** A Safety cycle refreshes the watchdog exactly when every critical task has beaten and no last beat is
      more than 150 ms old, modulo 2^32. */
  lemma RefreshIsExact(w: World)
    requires Reachable(w)
    ensures !SameRefreshes(w, SafetyCycled(w)) <==>
              forall i | 0 <= i < 3 :: w.health[i].seen && Wrap(w.clock - w.aux.beatAt[i]) <= HEALTH_MAXIMUM_AGE_MS
  {
    ReachableIsTimely(w);
    SafetyRefreshes(w);
    BeatsAreFreshness(w);
  }

  /** Task i has never beaten, or its last beat is more than 170 ms and less than a timer wrap ago. */
  predicate Silent(w: World, i: nat)
    requires i < 3
  {
    w.health[i].seen ==> w.aux.beatAt[i] + HEALTH_MAXIMUM_AGE_MS + SAFETY_PERIOD_MS < w.clock < w.aux.beatAt[i] + WORD
  }

  /** A critical task that falls silent is answered in time: in every reachable state with Safety on
      schedule the gate is inhibited, once the startup grace is over a latch is set, and RESET is refused. */
  lemma SilentTaskIsAnswered(w: World, i: nat)
    requires Reachable(w) && OnSchedule(w) && i < 3 && Silent(w, i)
    ensures w.axis.gate.inhibited && w.axis.gate.output == 0.0 && !w.safety.sensed.healthy
    ensures GraceOver(w) ==> w.safety.state != Idle
    ensures ResetTaken(w).1 == InvalidState
  {
    ReachableIsTimely(w);
    assert !FreshAt(w, i, w.aux.evaluatedAt);
    SilenceRefusesReset(w, i);
  }

  lemma SilenceRefusesReset(w: World, i: nat)
    requires Inv(w) && Clocks(w) && i < 3 && Silent(w, i)
    ensures ResetTaken(w).1 == InvalidState
  {
    ResetTakenIsExact(w);
    FreshnessIsModular(w, i);
  }

  /** And it stays answered: whatever follows, the drive stays off until a RESET is accepted. */
  lemma SilentTaskStaysAnswered(ws: seq<World>, es: seq<Event>, n: nat, i: nat)
    requires Run(ws, es) && n <= |es| && Reachable(ws[0]) && OnSchedule(ws[0])
    requires i < 3 && Silent(ws[0], i) && GraceOver(ws[0])
    requires Unreset(ws, es, n)
    ensures ws[n].safety.state != Idle && ws[n].axis.gate.inhibited && ws[n].axis.gate.output == 0.0
  {
    SilentTaskIsAnswered(ws[0], i);
    ReachableIsTimely(ws[0]);
    LatchesHoldOverRuns(ws, es, n);
  }

  // Held inputs.

  /** What a section does to the record of evaluations: nothing, or it evaluates the inputs as they stand. */
  predicate Looks(w: World, v: World) {
    && v.pins == w.pins && v.clock == w.clock
    && (|| (v.aux.evaluatedAt == w.aux.evaluatedAt && v.aux.pinsSeen == w.aux.pinsSeen)
        || (v.aux.evaluatedAt == w.clock && v.aux.pinsSeen))
  }

  lemma EvaluateLooks(w: World)
    ensures Looks(w, EvaluatedWorld(w)) && Looks(w, Synced(w)) && Looks(w, EvaluatedAndSynced(w))
  {
  }

  lemma CommandLooks(w: World, c: Command)
    ensures Looks(w, CommandTaken(w, c).0)
  {
    if c.kind == EmergencyStop {
      EvaluateLooks(Enforced(w.(safety := Stopped(w.safety, Now(w)))));
    } else if c.kind == Reset {
      EvaluateLooks(w);
    } else if c.kind == Home {
      HomeLooks(w);
    } else {
      DepartureLooks(w, c);
    }
  }

  lemma HomeLooks(w: World)
    ensures Looks(w, HomeTaken(w).0)
  {
    var v := Published(w.(axis := HomingStarted(w.axis, Now(w))));
    EvaluateLooks(v.(aux := v.aux.(homeAt := w.clock)));
  }

  lemma DepartureLooks(w: World, c: Command)
    ensures Looks(w, DepartureTaken(w, c).0)
  {
    EvaluateLooks(Published(w.(axis := Commanded(w.axis, c))));
  }

  lemma ControlLooks(w: World, dt: real, now: Word)
    ensures Looks(w, ControlUpdated(w, dt, now).0)
  {
    EvaluateLooks(Published(w));
    if w.axis.m.data.state == Homing {
      HomingLooks(w, now);
    }
  }

  lemma HomingLooks(w: World, now: Word)
    ensures Looks(w, HomingControl(w, now).0)
  {
    EvaluateLooks(Published(w));
    var v := if HomingInterrupt(w.pins) then EvaluatedAndSynced(Published(w)) else w;
    SettleLooks(v.(axis := HomingUpdated(v.axis, ReadPins(w.pins), now).0), now);
  }

  lemma SettleLooks(w: World, now: Word)
    ensures Looks(w, HomingSettled(w, now))
  {
    EvaluateLooks(Enforced(w.(safety := HomingTimedOut(w.safety, now))));
    EvaluateLooks(Published(w.(safety := w.safety.(homeContact := true),
                               aux := w.aux.(contactRaw := w.axis.encoder.raw))));
  }

  lemma FinishLooks(w: World)
    requires w.cycle.Open?
    ensures Looks(w, MotionFinished(w))
  {
    var c := w.cycle;
    var v := Synced(w);
    EvaluateLooks(w);
    ControlLooks(v, c.dt, c.now);
    var (u, ok) := if c.sampled then ControlUpdated(v, c.dt, c.now) else (v, false);
    var s := if Active(v.axis.m.data.state) then MoreAborted(u.safety) else u.safety;
    EvaluateLooks(IntegrityLost(u.(safety := s), c.now));
  }

  /** A step in which an evaluation is recorded saw the inputs as they stand after it. */
  lemma StepLooks(w: World, e: Event)
    requires Enabled(w, e)
    ensures var v := Step(w, e);
            v.aux.evaluatedAt != w.aux.evaluatedAt ==> v.aux.pinsSeen && v.pins == w.pins
  {
    match e
    case MotionReceive(c) => CommandLooks(w, c);
    case MotionFinish => FinishLooks(w);
    case _ =>
  }

  lemma HazardRefusesReset(w: World, e: Event)
    requires Inv(w) && Hazardous(w.pins)
    ensures !ResetAccepted(w, e)
  {
    ResetTakenIsExact(w);
  }

  /** Inputs that are hazardous after a step, and were before it, are answered if any evaluation since time
      t has seen them. */
  lemma HazardStep(w: World, e: Event, t: nat)
    requires Inv(w) && Timely(w) && Enabled(w, e) && Hazardous(w.pins) && Step(w, e).aux.evaluatedAt > t
    ensures (w.aux.evaluatedAt > t ==> w.safety.state != Idle) ==> Step(w, e).safety.state != Idle
    ensures w.pins.ready && w.pins.inputs.estop ==>
              ((w.aux.evaluatedAt > t ==> w.safety.state == Estop) ==> Step(w, e).safety.state == Estop)
  {
    StepIsTimely(w, e);
    StepLooks(w, e);
    StepIsClassified(w, e);
    HazardRefusesReset(w, e);
  }

  lemma ReachableRun(ws: seq<World>, es: seq<Event>, n: nat)
    requires Run(ws, es) && n <= |es| && Reachable(ws[0])
    ensures Inv(ws[n]) && Timely(ws[n])
  {
    ReachableIsTimely(ws[0]);
    for k := 0 to n
      invariant Inv(ws[k]) && Timely(ws[k])
    {
      StepKeepsInv(ws[k], es[k]);
      StepIsTimely(ws[k], es[k]);
    }
  }

  /** A held E-stop is answered in time, whatever else happens to the inputs meanwhile: over every run, if
      the input has been active for more than 20 ms and Safety is on schedule, ESTOP is latched with the
      gate closed and the output at zero; and no RESET is accepted while it is held, at any time. */
  lemma HeldEstopIsAnswered(ws: seq<World>, es: seq<Event>, i: nat, n: nat)
    requires Run(ws, es) && i <= n <= |es| && Reachable(ws[0])
    requires forall k | i <= k <= n :: ws[k].pins.ready && ws[k].pins.inputs.estop
    ensures OnSchedule(ws[n]) && ws[n].clock > ws[i].clock + SAFETY_PERIOD_MS ==>
              ws[n].safety.state == Estop && ws[n].axis.gate.inhibited && ws[n].axis.gate.output == 0.0
    ensures ResetTaken(ws[n]).1 == InvalidState
  {
    ReachableRun(ws, es, i);
    for k := i to n
      invariant Inv(ws[k]) && Timely(ws[k])
      invariant ws[k].aux.evaluatedAt > ws[i].clock ==> ws[k].safety.state == Estop
    {
      StepKeepsInv(ws[k], es[k]);
      StepIsTimely(ws[k], es[k]);
      if ws[k + 1].aux.evaluatedAt > ws[i].clock {
        HazardStep(ws[k], es[k], ws[i].clock);
      }
    }
    ResetTakenIsExact(ws[n]);
  }

  /** The same for every hazard of the inputs, one following another or together: inputs that cannot be
      read, E-stop, or the positive limit, for more than 20 ms, are latched with the output at zero. */
  lemma HeldHazardIsAnswered(ws: seq<World>, es: seq<Event>, i: nat, n: nat)
    requires Run(ws, es) && i <= n <= |es| && Reachable(ws[0])
    requires forall k | i <= k <= n :: Hazardous(ws[k].pins)
    ensures OnSchedule(ws[n]) && ws[n].clock > ws[i].clock + SAFETY_PERIOD_MS ==>
              ws[n].safety.state != Idle && ws[n].axis.gate.inhibited && ws[n].axis.gate.output == 0.0
    ensures ResetTaken(ws[n]).1 == InvalidState
  {
    ReachableRun(ws, es, i);
    for k := i to n
      invariant Inv(ws[k]) && Timely(ws[k])
      invariant ws[k].aux.evaluatedAt > ws[i].clock ==> ws[k].safety.state != Idle
    {
      StepKeepsInv(ws[k], es[k]);
      StepIsTimely(ws[k], es[k]);
      if ws[k + 1].aux.evaluatedAt > ws[i].clock {
        HazardStep(ws[k], es[k], ws[i].clock);
      }
    }
    ResetTakenIsExact(ws[n]);
  }
}
