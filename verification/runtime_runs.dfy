/** What whole runs of the system keep: latches, the encoder reference, the contact allowance, and the
    account of moves. */
module RuntimeRuns {
  import opened Words
  import opened Floats
  import opened CommandTypes
  import opened Encoders
  import opened MotionControl
  import opened SafetyPolicy
  import opened SafetyRuns
  import opened RuntimeModel
  import opened RuntimeSafety

  // Latches and references through one atomic section.

  /** Nothing was unlatched and the first fault was kept. */
  predicate Held(s: Safety, t: Safety) {
    && (s.state == Estop ==> t.state == Estop)
    && (s.state != Idle ==> t.state != Idle)
    && (s.internalActive ==> t.internalActive)
    && (s.faults.active.code != NoFault ==>
          t.faults.active == s.faults.active.(conditionActive := t.faults.active.conditionActive))
    && t.faults.history == s.faults.history
  }

  predicate ReferenceKept(a: Axis, b: Axis) {
    && b.encoder.offset == a.encoder.offset
    && b.m.data.homing.completed == a.m.data.homing.completed
    && (b.m.data.homing.referenced ==> a.m.data.homing.referenced)
  }

  /** No reset, no reference, no allowance: what all but two kinds of step amount to. */
  predicate Quiet(w: World, v: World) {
    && Held(w.safety, v.safety)
    && ReferenceKept(w.axis, v.axis)
    && (v.safety.homeContact ==> w.safety.homeContact)
    && v.aux.contactRaw == w.aux.contactRaw
  }

  /** The contact branch of HOME: the reference is set where the counter stands, with the drive off. */
  predicate References(w: World, v: World) {
    && Held(w.safety, v.safety)
    && v.axis.encoder == Referenced(w.axis.encoder, 0)
    && v.axis.m.data.homing.completed == Wrap(w.axis.m.data.homing.completed + 1)
    && v.axis.m.data.homing.result == HomeComplete && v.axis.m.data.homing.referenced
    && v.axis.m.data.position == 0 && v.axis.m.data.state == Idle && !v.axis.m.sampled
    && v.aux.contactRaw == w.axis.encoder.raw
    && v.axis.gate.output == 0.0
  }

  predicate ResetAccepted(w: World, e: Event) {
    && e.MotionReceive? && e.command.kind == Reset && w.cycle.Open? && w.app == Idle
    && ResetTaken(w).1 == Accepted
  }

  lemma AxisReferences(a: Axis, c: Command, dt: Float, now: Word)
    ensures ReferenceKept(a, Sampled(a, dt))
    ensures ReferenceKept(a, Commanded(a, c))
    ensures ReferenceKept(a, HomingStarted(a, now))
  {
  }

  lemma UpdateReferences(a: Axis, dt: Float)
    ensures ReferenceKept(a, MotionUpdated(a, dt).0)
  {
  }

  lemma EvaluateIsQuiet(w: World)
    requires SafetyOk(w.safety)
    ensures Quiet(w, EvaluatedWorld(w))
    ensures EvaluatedWorld(w).axis.(gate := w.axis.gate) == w.axis
  {
    ObserveKeepsLatches(w.safety, Observed(w));
  }

  lemma SyncIsQuiet(w: World)
    ensures Quiet(w, Synced(w))
    ensures Synced(w).safety.state == w.safety.state && Synced(w).axis.encoder == w.axis.encoder
  {
  }

  lemma EvaluateAndSyncIsQuiet(w: World)
    requires SafetyOk(w.safety)
    ensures Quiet(w, EvaluatedAndSynced(w)) && EvaluatedAndSynced(w).axis.encoder == w.axis.encoder
  {
    EvaluateIsQuiet(w);
    SyncIsQuiet(EvaluatedWorld(w));
  }

  lemma StopIsQuiet(w: World)
    ensures Quiet(w, StopLatched(w))
  {
    SyncIsQuiet(Enforced(w.(safety := Stopped(w.safety, Now(w)))));
  }

  lemma HomeIsQuiet(w: World)
    requires Inv(w)
    ensures Quiet(w, HomeTaken(w).0)
  {
    AxisReferences(w.axis, Command(Home, 0), NotFinite, Now(w));
    var v := Published(w.(axis := HomingStarted(w.axis, Now(w))));
    EvaluateAndSyncIsQuiet(v.(aux := v.aux.(homeAt := w.clock)));
  }

  lemma DepartureIsQuiet(w: World, c: Command)
    requires Inv(w)
    ensures Quiet(w, DepartureTaken(w, c).0)
  {
    AxisReferences(w.axis, c, NotFinite, 0);
    EvaluateAndSyncIsQuiet(Published(w.(axis := Commanded(w.axis, c))));
  }

  lemma CancelIsQuiet(w: World)
    ensures Quiet(w, HomeCancelled(w))
  {
  }

  lemma CommandIsQuiet(w: World, c: Command)
    requires Inv(w) && !(c.kind == Reset && ResetTaken(w).1 == Accepted)
    ensures Quiet(w, CommandTaken(w, c).0)
  {
    AxisReferences(w.axis, c, NotFinite, 0);
    if c.kind == EmergencyStop {
      StopIsQuiet(w);
    } else if c.kind == Reset {
      EvaluateIsQuiet(w);
    } else if c.kind == Home {
      HomeIsQuiet(w);
    } else if c.kind == Stop {
      CancelIsQuiet(w);
    } else {
      DepartureIsQuiet(w, c);
    }
  }

  /** An accepted RESET: no hazard at this moment, nothing retained but the history, and the latch
      released at zero output, with nothing to move to. */
  predicate Resets(w: World, v: World) {
    && v.safety.state == Idle && v.safety.faults.active == NO_RECORD && HazardFree(v.safety) && !v.safety.homeContact
    && v.axis.encoder == w.axis.encoder && ReferenceKept(w.axis, v.axis) && v.aux.contactRaw == w.aux.contactRaw
    && v.axis.gate.output == 0.0 && v.axis.gate.requested == 0.0
    && !v.axis.gate.inhibited && !v.axis.gate.negativeBlocked
    && v.axis.m.data.state == Idle && v.axis.m.data.pwm == 0.0 && v.axis.m.data.target == v.axis.m.data.position
  }

  lemma ResetRecovers(w: World)
    requires Inv(w) && ResetTaken(w).1 == Accepted
    ensures Resets(w, ResetTaken(w).0)
  {
    EvaluateIsQuiet(w);
    EvaluateEstablishes(w);
  }

  /** RESET through the runtime is exact: it is accepted if and only if the move is not live and the
      inputs, the health, the encoder evidence and the integrity are all good at this very moment. */
  lemma ResetTakenIsExact(w: World)
    requires Inv(w)
    ensures ResetTaken(w).1 == Accepted <==>
            && (w.safety.state == Idle ==> w.axis.m.data.state == Idle)
            && w.pins.ready && w.pins.inputs == NO_INPUTS
            && (forall i | 0 <= i < 3 :: Fresh(w.health[i], Now(w)))
            && !w.safety.internalActive
            && !Stalled(w.safety, Observed(w))
            && (w.safety.stall.recoveryRequired ==> DistanceFrom(w.safety, Observed(w)) >= 2)
  {
    ResetIsExact(w.safety, Observed(w));
  }

  // The control update either references the encoder or is quiet.

  lemma HomingUpdateReferences(a: Axis, inputs: Inputs, now: Word)
    requires a.encoder.initialized && a.m.data.homing.result != HomeComplete
    ensures var (b, ok) := HomingUpdated(a, inputs, now);
            if ok && b.m.data.homing.result == HomeComplete
            then b == HomingCompleted(b.(m := a.m.(data := a.m.data.(homing := a.m.data.homing.(
                   elapsedMs := b.m.data.homing.elapsedMs))), encoder := a.encoder))
            else ReferenceKept(a, b) && b.encoder == a.encoder
  {
  }

  lemma HomingControlIsQuietOrReferences(w: World, now: Word)
    requires Inv(w) && w.axis.m.data.state == Homing && w.safety.state == Idle
    ensures Quiet(w, HomingControl(w, now).0) || (HomingControl(w, now).1 && References(w, HomingControl(w, now).0))
  {
    EvaluateAndSyncKeeps(Published(w));
    EvaluateAndSyncIsQuiet(Published(w));
    var v := if HomingInterrupt(w.pins) then EvaluatedAndSynced(Published(w)) else w;
    if v.safety.state == Idle {
      assert v.axis.m == w.axis.m;
      HomingUpdateReferences(v.axis, ReadPins(w.pins), now);
      var (a, ok) := HomingUpdated(v.axis, ReadPins(w.pins), now);
      if ok {
        SettleIsQuietOrReferences(v, a, now);
        QuietThenReferences(w, v, HomingSettled(v.(axis := a), now));
      }
    }
  }

  lemma TimeoutIsQuiet(w: World, now: Word)
    requires SafetyOk(w.safety)
    ensures Quiet(w, Synced(Enforced(w.(safety := HomingTimedOut(w.safety, now)))))
  {
    StepKeepsLatches(w.safety, TimeOutNow(now));
    SyncIsQuiet(Enforced(w.(safety := HomingTimedOut(w.safety, now))));
  }

  /** The contact branch, from the axis it starts with to the world it leaves. */
  lemma CompletionReferences(v: World, a: Axis, now: Word)
    requires SafetyOk(v.safety) && v.safety.state == Idle && v.axis.encoder.initialized
    requires a.encoder == Referenced(v.axis.encoder, 0) && a.gate.output == 0.0
    requires a.m.data.homing.completed == Wrap(v.axis.m.data.homing.completed + 1)
    requires a.m.data.homing.result == HomeComplete && a.m.data.homing.referenced
    requires a.m.data.position == 0 && a.m.data.state == Idle && !a.m.sampled
    ensures References(v, HomingSettled(v.(axis := a), now))
  {
    var b := v.(axis := a);
    EvaluateIsQuiet(Published(b.(safety := b.safety.(homeContact := true),
                                 aux := b.aux.(contactRaw := a.encoder.raw))));
  }

  lemma SettleIsQuietOrReferences(v: World, a: Axis, now: Word)
    requires Inv(v) && v.safety.state == Idle && v.axis.m.data.homing.result != HomeComplete
    requires (a, true) == HomingUpdated(v.axis, ReadPins(v.pins), now)
    ensures var u := HomingSettled(v.(axis := a), now);
            if a.m.data.homing.result == HomeComplete then References(v, u) else Quiet(v, u)
  {
    HomingUpdateReferences(v.axis, ReadPins(v.pins), now);
    if a.m.data.homing.result == HomeTimeout {
      TimeoutIsQuiet(v.(axis := a), now);
    } else if a.m.data.homing.result == HomeComplete {
      ContactReferences(v, a, now);
    } else {
      AxisIsQuiet(v, a);
    }
  }

  lemma ContactReferences(v: World, a: Axis, now: Word)
    requires Inv(v) && v.safety.state == Idle && v.axis.m.data.homing.result != HomeComplete
    requires (a, true) == HomingUpdated(v.axis, ReadPins(v.pins), now) && a.m.data.homing.result == HomeComplete
    ensures References(v, HomingSettled(v.(axis := a), now))
  {
    CompletedAxis(v.axis, ReadPins(v.pins), now);
    CompletionReferences(v, a, now);
  }

  lemma AxisIsQuiet(v: World, a: Axis)
    requires Inv(v) && ReferenceKept(v.axis, a)
    ensures Quiet(v, v.(axis := a))
  {
  }

  /** An update that completes an attempt. */
  lemma CompletedAxis(a: Axis, inputs: Inputs, now: Word)
    requires a.m.data.homing.result != HomeComplete && HomingUpdated(a, inputs, now).1
    requires HomingUpdated(a, inputs, now).0.m.data.homing.result == HomeComplete
    ensures var b := HomingUpdated(a, inputs, now).0;
            && b.encoder == Referenced(a.encoder, 0) && b.gate.output == 0.0
            && b.m.data.homing.completed == Wrap(a.m.data.homing.completed + 1)
            && b.m.data.homing.referenced && b.m.data.position == 0 == b.m.data.target && b.m.data.state == Idle
            && !b.m.sampled
  {
  }

  lemma QuietThenReferences(w: World, v: World, u: World)
    requires Quiet(w, v) && v.axis.encoder == w.axis.encoder
    ensures References(v, u) ==> References(w, u)
    ensures Quiet(v, u) ==> Quiet(w, u)
  {
  }

  lemma ControlIsQuietOrReferences(w: World, dt: real, now: Word)
    requires Inv(w) && (w.axis.m.data.state == Homing ==> w.safety.state == Idle)
    ensures Quiet(w, ControlUpdated(w, dt, now).0) ||
            (ControlUpdated(w, dt, now).1 && References(w, ControlUpdated(w, dt, now).0))
  {
    if w.axis.m.data.state == Homing {
      HomingControlIsQuietOrReferences(w, now);
    } else {
      EvaluateAndSyncIsQuiet(Published(w));
      var v := if w.safety.homeContact then EvaluatedAndSynced(Published(w)) else w;
      UpdateReferences(v.axis, Finite(dt));
    }
  }

  lemma LostIsQuiet(w: World, active: bool, now: Word)
    requires SafetyOk(w.safety)
    ensures Quiet(w, UpdateLost(w, active, now))
  {
    var v := w.(safety := if active then MoreAborted(w.safety) else w.safety);
    StepKeepsLatches(v.safety, FailNow(now));
    SyncIsQuiet(IntegrityLost(v, now));
  }

  lemma QuietThenQuiet(w: World, v: World, u: World)
    requires Quiet(w, v) && Quiet(v, u)
    ensures Quiet(w, u)
  {
  }

  /** The first half of the closing section: synchronised, updated, and latched if the update failed. */
  lemma UpdateIsQuietOrReferences(v: World, c: Cycle)
    requires Inv(v) && (v.axis.m.data.state == Homing ==> v.safety.state == Idle) && c.Open?
    ensures var (u, ok) := if c.sampled then ControlUpdated(v, c.dt, c.now) else (v, false);
            var t := if ok then u else UpdateLost(u, Active(v.axis.m.data.state), c.now);
            Quiet(v, t) || References(v, t)
  {
    ControlKeeps(v, c.dt, c.now);
    ControlIsQuietOrReferences(v, c.dt, c.now);
    var (u, ok) := if c.sampled then ControlUpdated(v, c.dt, c.now) else (v, false);
    if !ok {
      LostIsQuiet(u, Active(v.axis.m.data.state), c.now);
      QuietThenQuiet(v, u, UpdateLost(u, Active(v.axis.m.data.state), c.now));
    }
  }

  lemma FinishIsQuietOrReferences(w: World)
    requires Inv(w) && w.cycle.Open?
    ensures Quiet(w, MotionFinished(w)) || References(w, MotionFinished(w))
  {
    var v, c := Synced(w), w.cycle;
    SyncKeeps(w);
    SyncIsQuiet(w);
    UpdateIsQuietOrReferences(v, c);
    QuietThenReferences(w, v, MotionFinished(w));
  }

  lemma LossIsQuiet(w: World, before: AppState, now: Word)
    requires SafetyOk(w.safety)
    ensures Quiet(w, SampleLost(w, before, now))
  {
    var s := if Active(before) then MoreAborted(w.safety) else w.safety;
    StepKeepsLatches(s, FailNow(now));
  }

  lemma SyncSectionIsQuiet(w: World)
    requires Inv(w) && w.cycle.Begun?
    ensures Quiet(w, MotionSynced(w))
  {
    var c := w.cycle;
    var v := if c.sampled then w else SampleLost(w, c.before, c.now);
    LossIsQuiet(w, c.before, c.now);
    SyncIsQuiet(v);
    QuietThenQuiet(w, v, Synced(v));
  }

  lemma BeginIsQuiet(w: World)
    ensures Quiet(w, MotionBegun(w))
  {
    AxisReferences(AppStepped(w).axis, Command(Stop, 0), Finite(Gap(w) as real / 1000.0), 0);
  }

  /** Every step is an accepted reset, a completed HOME, or quiet. */
  predicate Classified(w: World, e: Event, v: World) {
    if ResetAccepted(w, e) then Resets(w, v) else Quiet(w, v) || (e.MotionFinish? && References(w, v))
  }

  lemma StepIsClassified(w: World, e: Event)
    requires Inv(w) && Enabled(w, e)
    ensures Classified(w, e, Step(w, e))
  {
    match e
    case SafetyCycle => EvaluateIsQuiet(w);
    case MotionBegin => BeginIsQuiet(w);
    case MotionSync => SyncSectionIsQuiet(w);
    case MotionReceive(c) => ReceiveIsClassified(w, c);
    case MotionFinish => FinishIsQuietOrReferences(w);
    case _ =>
  }

  lemma ReceiveIsClassified(w: World, c: Command)
    requires Inv(w) && Enabled(w, MotionReceive(c))
    ensures Classified(w, MotionReceive(c), MotionReceived(w, c))
  {
    if c.kind != Status && c.kind != Help && w.app == Idle {
      if ResetAccepted(w, MotionReceive(c)) {
        ResetRecovers(w);
      } else {
        CommandIsQuiet(w, c);
      }
    }
  }

  // Latches over runs.

  /** What holds of a latch from one state of a run to a later one. */
  predicate LatchHeld(w: World, v: World, unreset: bool) {
    && (unreset ==> Held(w.safety, v.safety))
    && (w.safety.internalActive ==>
          && v.safety.internalActive && v.safety.state != Idle
          && v.axis.gate.inhibited && v.axis.gate.output == 0.0)
  }

  lemma LatchHeldStep(w: World, v: World, u: World, e: Event, unreset: bool)
    requires Inv(v) && Inv(u) && Classified(v, e, u)
    requires LatchHeld(w, v, unreset) && (v.safety.internalActive ==> !ResetAccepted(v, e))
    ensures LatchHeld(w, u, unreset && !ResetAccepted(v, e))
  {
  }

  /** No RESET is accepted in the first n steps. */
  ghost predicate Unreset(ws: seq<World>, es: seq<Event>, n: nat)
    requires Run(ws, es) && n <= |es|
  {
    forall i | 0 <= i < n :: !ResetAccepted(ws[i], es[i])
  }

  lemma LatchesHoldStep(ws: seq<World>, es: seq<Event>, n: nat, unreset: bool)
    requires Run(ws, es) && n < |es| && Inv(ws[n]) && LatchHeld(ws[0], ws[n], unreset)
    ensures Inv(ws[n + 1]) && LatchHeld(ws[0], ws[n + 1], unreset && !ResetAccepted(ws[n], es[n]))
  {
    StepKeepsInv(ws[n], es[n]);
    StepIsClassified(ws[n], es[n]);
    ResetNeedsIntegrity(ws[n], es[n]);
    LatchHeldStep(ws[0], ws[n], ws[n + 1], es[n], unreset);
  }

  /** Latches are monotone over every run: without an accepted RESET an ESTOP stays, a latch stays, and
      the first fault keeps its code, time and source; and in any run an internal failure is for good:
      from then on nothing is unlatched and the output is zero. */
  lemma LatchesHoldOverRuns(ws: seq<World>, es: seq<Event>, n: nat)
    requires Run(ws, es) && Inv(ws[0]) && n <= |es|
    ensures Inv(ws[n]) && LatchHeld(ws[0], ws[n], Unreset(ws, es, n))
  {
    for k := 0 to n
      invariant Inv(ws[k]) && LatchHeld(ws[0], ws[k], Unreset(ws, es, k))
    {
      var unreset := Unreset(ws, es, k);
      LatchesHoldStep(ws, es, k, unreset);
      assert Unreset(ws, es, k + 1) <==> unreset && !ResetAccepted(ws[k], es[k]);
    }
  }

  lemma ResetNeedsIntegrity(w: World, e: Event)
    requires Inv(w)
    ensures w.safety.internalActive ==> !ResetAccepted(w, e)
  {
    ResetTakenIsExact(w);
  }

  /** A latch is left only through an accepted RESET, and then no hazard is present and nothing drives. */
  lemma OnlyResetUnlatches(w: World, e: Event)
    requires Inv(w) && Enabled(w, e) && w.safety.state != Idle && Step(w, e).safety.state == Idle
    ensures ResetAccepted(w, e) && Resets(w, Step(w, e))
  {
    StepIsClassified(w, e);
  }

  // The encoder reference.

  /** While HOME's reference stands, the offset is the one set at the last contact. */
  predicate ReferenceStands(w: World) {
    w.axis.m.data.homing.referenced ==> w.axis.encoder.offset == Wrap(0 - w.aux.contactRaw)
  }

  lemma ClassifiedKeepsReference(w: World, e: Event, v: World)
    requires ReferenceStands(w) && w.axis.encoder.initialized && Classified(w, e, v)
    ensures ReferenceStands(v)
  {
  }

  lemma CompletionIsZero(w: World, v: World)
    requires w.axis.encoder.initialized && References(w, v)
    ensures Logical(v.axis.encoder) == 0
    ensures v.axis.m.data.homing.completed != w.axis.m.data.homing.completed
  {
    ReferenceRoundTrip(w.axis.encoder, 0, w.axis.encoder.raw);
  }

  /** The offset moves exactly when a HOME completes, and only with the output at zero: every stopped,
      E-stopped, faulted or timed-out attempt leaves the reference as it was. */
  lemma OnlyCompletionReferences(w: World, e: Event)
    requires Inv(w) && Enabled(w, e)
    ensures var v := Step(w, e);
            if v.axis.m.data.homing.completed != w.axis.m.data.homing.completed
            then e.MotionFinish? && References(w, v) && Logical(v.axis.encoder) == 0
            else v.axis.encoder.offset == w.axis.encoder.offset
  {
    StepIsClassified(w, e);
    if References(w, Step(w, e)) {
      CompletionIsZero(w, Step(w, e));
    }
  }

  lemma ReferenceOverRuns(ws: seq<World>, es: seq<Event>, n: nat)
    requires Run(ws, es) && Inv(ws[0]) && ReferenceStands(ws[0]) && n <= |es|
    ensures Inv(ws[n]) && ReferenceStands(ws[n])
  {
    for k := 0 to n
      invariant Inv(ws[k]) && ReferenceStands(ws[k])
    {
      StepKeepsInv(ws[k], es[k]);
      StepIsClassified(ws[k], es[k]);
      ClassifiedKeepsReference(ws[k], es[k], ws[k + 1]);
    }
  }

  lemma ReachableReference(w: World)
    requires Reachable(w)
    ensures ReferenceStands(w)
  {
    var ws: seq<World>, es: seq<Event> :| Run(ws, es) && Start(ws[0]) && ws[|es|] == w;
    StartIsSafe(ws[0]);
    ReferenceOverRuns(ws, es, |es|);
  }

  lemma OffsetFromContact(e: Encoder, contact: Word)
    requires e.offset == Wrap(0 - contact)
    ensures Logical(e) == SignedBits(Wrap(e.raw - contact))
  {
    WrapSum(0 - contact, e.raw);
    assert e.raw + e.offset == Wrap(0 - contact) + e.raw;
  }

  lemma StandingReference(w: World)
    requires ReferenceStands(w) && w.axis.m.data.homing.referenced
    ensures Logical(w.axis.encoder) == SignedBits(Wrap(w.axis.encoder.raw - w.aux.contactRaw))
  {
    OffsetFromContact(w.axis.encoder, w.aux.contactRaw);
  }

  /** In every reachable state with a standing reference the logical count is the raw displacement since
      the switch contact, modulo 2^32. */
  lemma CountIsDisplacementSinceContact(w: World)
    requires Reachable(w) && w.axis.m.data.homing.referenced
    ensures Logical(w.axis.encoder) == SignedBits(Wrap(w.axis.encoder.raw - w.aux.contactRaw))
  {
    ReachableReference(w);
    StandingReference(w);
  }

  // The contact allowance.

  /** The allowance appears only in a step that completes a HOME. */
  lemma OnlyCompletionGrants(w: World, e: Event)
    requires Inv(w) && Enabled(w, e) && !w.safety.homeContact && Step(w, e).safety.homeContact
    ensures e.MotionFinish? && References(w, Step(w, e))
    ensures var before := w.axis.m.data.homing.completed;
            Step(w, e).axis.m.data.homing.completed == Wrap(before + 1) != before
  {
    StepIsClassified(w, e);
    GrantIsCompletion(w, e, Step(w, e));
  }

  lemma GrantIsCompletion(w: World, e: Event, v: World)
    requires w.axis.encoder.initialized && Classified(w, e, v) && !w.safety.homeContact && v.safety.homeContact
    ensures e.MotionFinish? && References(w, v)
    ensures v.axis.m.data.homing.completed == Wrap(w.axis.m.data.homing.completed + 1) != w.axis.m.data.homing.completed
  {
    CompletionIsZero(w, v);
  }

  lemma AllowanceStaysRevoked(ws: seq<World>, es: seq<Event>, n: nat)
    requires Run(ws, es) && Inv(ws[0]) && n <= |es| && !ws[0].safety.homeContact
    requires forall i | 0 <= i < n :: ws[i + 1].axis.m.data.homing.completed == ws[i].axis.m.data.homing.completed
    ensures Inv(ws[n]) && !ws[n].safety.homeContact
  {
    for k := 0 to n
      invariant Inv(ws[k]) && !ws[k].safety.homeContact
    {
      StepKeepsInv(ws[k], es[k]);
      if ws[k + 1].safety.homeContact {
        OnlyCompletionGrants(ws[k], es[k]);
      }
    }
  }

  // Contact that is found without the allowance.

  /** What an evaluation without the allowance makes of contact outside HOMING. */
  lemma ContactEvaluated(w: World)
    requires Inv(w) && !w.safety.homeContact && w.published.state != Homing && Contact(EvaluatedWorld(w).safety)
    ensures var v := EvaluatedWorld(w);
            && v.safety.state != Idle && v.axis.gate.inhibited && v.axis.gate.output == 0.0
            && (w.safety.state == Idle && w.pins.inputs == Inputs(false, true, false) ==>
                  v.safety.faults.active.code == NegativeLimit)
    ensures Contact(EvaluatedWorld(w).safety) ==> !ResetAllowed(EvaluatedWorld(w).safety)
  {
    EvaluateEstablishes(w);
  }

  /** Without the allowance and outside HOMING, only Safety cycles and RESET evaluate. */
  predicate SensedAlike(w: World, v: World) {
    v.safety.sensed == w.safety.sensed
  }

  lemma SyncSensesNothing(w: World)
    ensures SensedAlike(w, Synced(w)) && SensedAlike(w, Enforced(w))
  {
  }

  lemma CommandSensesNothing(w: World, c: Command)
    requires c.kind != Home && c.kind != Reset && !w.safety.homeContact
    ensures SensedAlike(w, CommandTaken(w, c).0)
  {
    SyncSensesNothing(Enforced(w.(safety := Stopped(w.safety, Now(w)))));
  }

  lemma FinishSensesNothing(w: World)
    requires w.cycle.Open? && !w.safety.homeContact && w.axis.m.data.state != Homing
    ensures SensedAlike(w, MotionFinished(w))
  {
    var v, c := Synced(w), w.cycle;
    SyncSensesNothing(w);
    assert v.axis.m.data.state != Homing && !v.safety.homeContact;
    var (u, ok) := if c.sampled then ControlUpdated(v, c.dt, c.now) else (v, false);
    assert SensedAlike(v, u);
    LossSensesNothing(u, Active(v.axis.m.data.state), c.now);
  }

  lemma LossSensesNothing(u: World, active: bool, now: Word)
    ensures SensedAlike(u, UpdateLost(u, active, now))
  {
    var s := if active then MoreAborted(u.safety) else u.safety;
    SyncSensesNothing(IntegrityLost(u.(safety := s), now));
  }

  lemma OthersSenseNothing(w: World, e: Event)
    requires Enabled(w, e) && !w.safety.homeContact && w.axis.m.data.state != Homing
    requires !(e.MotionReceive? && (e.command.kind == Home || e.command.kind == Reset)) && e != SafetyCycle
    ensures SensedAlike(w, Step(w, e))
  {
    match e
    case MotionReceive(c) => CommandSensesNothing(w, c);
    case MotionFinish => FinishSensesNothing(w);
    case MotionSync => SyncSensesNothing(if w.cycle.sampled then w else SampleLost(w, w.cycle.before, w.cycle.now));
    case _ =>
  }

  /** A step in which the supervisor finds contact that it had not sensed before, outside HOMING. */
  predicate FindsContact(w: World, e: Event, v: World) {
    && !Contact(w.safety) && Contact(v.safety)
    && w.published.state != Homing && w.axis.m.data.state != Homing && !(e.MotionReceive? && e.command.kind == Home)
  }

  lemma FoundContactLatches(w: World, e: Event)
    requires Inv(w) && Enabled(w, e) && !w.safety.homeContact && FindsContact(w, e, Step(w, e))
    ensures var v := Step(w, e);
            && v.safety.state != Idle && v.axis.gate.inhibited && v.axis.gate.output == 0.0
            && (w.safety.state == Idle && w.pins.inputs == Inputs(false, true, false) ==>
                  v.safety.faults.active.code == NegativeLimit)
  {
    if e == SafetyCycle || (e.MotionReceive? && e.command.kind == Reset) {
      if Contact(EvaluatedWorld(w).safety) {
        ContactEvaluated(w);
      }
    } else {
      OthersSenseNothing(w, e);
    }
  }

  /** Once the switch has been seen released, and until another HOME completes, any contact that any step
      finds outside HOMING latches, with the gate closed. */
  lemma ContactAfterReleaseLatches(ws: seq<World>, es: seq<Event>, n: nat)
    requires Run(ws, es) && Inv(ws[0]) && n < |es| && !ws[0].safety.homeContact
    requires forall i | 0 <= i < n :: ws[i + 1].axis.m.data.homing.completed == ws[i].axis.m.data.homing.completed
    requires FindsContact(ws[n], es[n], ws[n + 1])
    ensures ws[n + 1].safety.state != Idle && ws[n + 1].axis.gate.inhibited && ws[n + 1].axis.gate.output == 0.0
    ensures ws[n].safety.state == Idle && ws[n].pins.inputs == Inputs(false, true, false) ==>
              ws[n + 1].safety.faults.active.code == NegativeLimit
  {
    AllowanceStaysRevoked(ws, es, n);
    FoundContactLatches(ws[n], es[n]);
  }

  /** So does any contact that a Safety cycle meets, found before or not. */
  lemma ContactMetBySafetyLatches(ws: seq<World>, es: seq<Event>, n: nat)
    requires Run(ws, es) && Inv(ws[0]) && n < |es| && !ws[0].safety.homeContact
    requires forall i | 0 <= i < n :: ws[i + 1].axis.m.data.homing.completed == ws[i].axis.m.data.homing.completed
    requires es[n] == SafetyCycle && ws[n].pins.ready && ws[n].pins.inputs.negativeLimit &&
             ws[n].published.state != Homing
    ensures ws[n + 1].safety.state != Idle && ws[n + 1].axis.gate.inhibited && ws[n + 1].axis.gate.output == 0.0
    ensures ws[n].safety.state == Idle && ws[n].pins.inputs == Inputs(false, true, false) ==>
              ws[n + 1].safety.faults.active.code == NegativeLimit
  {
    AllowanceStaysRevoked(ws, es, n);
    ContactEvaluated(ws[n]);
  }
}
