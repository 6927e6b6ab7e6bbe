/** Lost motion in the runtime: a jammed move, or a jammed HOME, is latched in time. */
module RuntimeJams {
  import opened Words
  import opened Floats
  import opened CommandTypes
  import opened Encoders
  import opened MotionControl
  import opened SafetyPolicy
  import opened SafetyRules
  import opened SafetyRuns
  import opened RuntimeModel
  import opened RuntimeSafety
  import opened RuntimeRuns
  import opened RuntimeMoves
  import opened RuntimeHoming
  import opened RuntimeResponse

  /** A jam as the runtime has it: the published record moves, or homes, the motor is driven at 0.3 or more
      either way, the published velocity is at most 25 counts a second either way, the inputs are good, every
      critical task has beaten in the last 150 ms; and if the switch is closed, this is a move away from it
      under the allowance. */
  predicate Jam(w: World) {
    var m, output := w.published, w.axis.gate.output;
    && (m.state == Moving || m.state == Homing) && -25.0 <= m.velocity <= 25.0
    && (output >= 0.3 || output <= -0.3)
    && w.pins.ready && !w.pins.inputs.estop && !w.pins.inputs.positiveLimit
    && (forall i | 0 <= i < 3 :: w.health[i].seen && Elapsed(Now(w), w.health[i].lastMs) <= 150)
    && (w.pins.inputs.negativeLimit ==>
          m.state == Moving && w.safety.homeContact && m.target > Logical(w.axis.encoder) && output >= 0.0)
  }

  lemma JamIsObserved(w: World)
    requires Jam(w) && w.axis.encoder.initialized && w.safety.state == Idle
    ensures LooksJammed(Observed(w)) && NothingElse(w.safety, Observed(w))
  {
  }

  /** What one evaluation makes of the suspicion while the axis is jammed. */
  predicate Watched(s: Stall, now: Word, t: Stall) {
    && t.candidate && t.candidateStartMs == (if s.candidate then s.candidateStartMs else now)
    && t.candidateMs == Elapsed(now, t.candidateStartMs) < 500
  }

  lemma EvaluationWatches(w: World)
    requires Jam(w) && w.axis.encoder.initialized && w.safety.state == Idle
    ensures var v := EvaluatedWorld(w);
            && (v.safety.state == Idle ==> Watched(w.safety.stall, Now(w), v.safety.stall))
            && (v.safety.state != Idle ==> v.safety.state == Fault)
            && (v.safety.state != Idle && w.safety.faults.active.code == NoFault ==>
                  v.safety.faults.active.code == NoMotion)
  {
    var o := Observed(w);
    JamIsObserved(w);
    SuspicionIsExact(w.safety, o);
    StaysUnlatchedExactly(w.safety, o);
    if w.safety.faults.active.code == NoFault {
      LatchesInOrder(w.safety, o);
    }
  }

  /** An evaluation that leaves a jam behind has found one. */
  lemma JamBefore(u: World)
    requires Jam(EvaluatedWorld(u)) && EvaluatedWorld(u).safety.state == Idle && u.axis.encoder.initialized
    requires SafetyOk(u.safety)
    ensures Jam(u) && u.safety.state == Idle
  {
    ObserveKeepsLatches(u.safety, Observed(u));
  }

  /** What a step does to the suspicion of a jam that is there before and after: nothing, or what an
      evaluation does. */
  predicate Watches(w: World, v: World) {
    var kept := v.safety.stall == w.safety.stall && v.aux.evaluatedAt == w.aux.evaluatedAt;
    && v.clock >= w.clock
    && (kept || (v.aux.evaluatedAt == w.clock && Watched(w.safety.stall, Now(w), v.safety.stall)))
  }

  lemma EvaluatedWatches(u: World)
    requires Jam(EvaluatedWorld(u)) && EvaluatedWorld(u).safety.state == Idle && u.axis.encoder.initialized
    requires SafetyOk(u.safety)
    ensures Watches(u, EvaluatedWorld(u))
  {
    JamBefore(u);
    EvaluationWatches(u);
  }

  lemma DepartureWatches(w: World, c: Command)
    requires Inv(w) && w.safety.state == Idle && DepartureTaken(w, c).0.safety.state == Idle
    requires Jam(DepartureTaken(w, c).0)
    ensures Watches(w, DepartureTaken(w, c).0)
  {
    if Destination(w.axis.m, c) > w.axis.m.data.position {
      var u := Published(w.(axis := Commanded(w.axis, c)));
      CommandKeeps(w.axis, c);
      assert Synced(EvaluatedWorld(u)).safety.state == Idle ==> Synced(EvaluatedWorld(u)) == EvaluatedWorld(u);
      EvaluatedWatches(u);
    }
  }

  /** A HOME that is accepted, a HOME that is ended, and a RESET leave the motor undriven. */
  lemma SpecialsEndTheJam(w: World)
    requires Inv(w) && w.safety.state == Idle
    ensures HomingStartResult(w.axis.m) == Accepted ==> !Jam(HomeTaken(w).0)
    ensures !Jam(HomeCancelled(w))
    ensures ResetTaken(w).1 == Accepted ==> !Jam(ResetTaken(w).0)
  {
    var a := HomingStarted(w.axis, Now(w));
    assert HomingStartResult(w.axis.m) == Accepted ==> a.gate.output == 0.0;
  }

  lemma CommandWatches(w: World, c: Command)
    requires Inv(w) && w.safety.state == Idle && CommandTaken(w, c).0.safety.state == Idle
    requires Jam(CommandTaken(w, c).0)
    ensures Watches(w, CommandTaken(w, c).0)
  {
    SpecialsEndTheJam(w);
    if c.kind == Reset {
      if w.axis.m.data.state == Idle {
        EvaluatedWatches(w);
      }
    } else if c.kind != Home && c.kind != EmergencyStop {
      CommandCases(w, c);
      if CommandTaken(w, c).0 == DepartureTaken(w, c).0 {
        DepartureWatches(w, c);
      }
    }
  }

  /** A homing update that goes on makes no evaluation. */
  lemma HomingWatches(w: World, now: Word)
    requires Inv(w) && w.safety.state == Idle && w.axis.m.data.state == Homing && !HomingInterrupt(w.pins)
    requires var (u, ok) := HomingControl(w, now); ok && u.safety.state == Idle
    ensures Watches(w, HomingControl(w, now).0)
  {
  }

  /** An update of a move under the allowance evaluates the move as Motion has it, with the drive as it was. */
  lemma MoveWatches(w: World, v: World)
    requires Inv(w) && w.safety.state == Idle && w.safety.homeContact && w.axis.m.data.state == Moving
    requires Jam(w) && Jam(v) && v.published.state == Moving && v.published.target == w.axis.m.data.target
    requires v.published.velocity == w.axis.m.data.velocity && v.axis.encoder == w.axis.encoder && v.pins == w.pins
    requires EvaluatedAndSynced(Published(w)).safety.state == Idle
    ensures Watches(w, EvaluatedAndSynced(Published(w)))
  {
    var u := Published(w);
    assert Jam(u);
    EvaluationWatches(u);
    assert EvaluatedAndSynced(u) == EvaluatedWorld(u);
  }

  lemma ReceiveWatches(w: World, c: Command)
    requires Inv(w) && w.cycle.Open? && w.safety.state == Idle && MotionReceived(w, c).safety.state == Idle
    requires Jam(MotionReceived(w, c))
    ensures Watches(w, MotionReceived(w, c))
  {
    var v := ReceivedResult(w, c).0;
    assert Jam(v);
    if v != w {
      CommandWatches(w, c);
    }
  }

  lemma FinishWatches(w: World)
    requires Inv(w) && w.cycle.Open? && w.safety.state == Idle && MotionFinished(w).safety.state == Idle
    requires Jam(w) && Jam(MotionFinished(w))
    ensures Watches(w, MotionFinished(w))
  {
    var c, v := w.cycle, MotionFinished(w);
    assert Synced(w) == w;
    var (u, ok) := if c.sampled then ControlUpdated(w, c.dt, c.now) else (w, false);
    if !ok {
      LostCarries(u, Active(w.axis.m.data.state), c.now);
    }
    assert ok && v.safety == u.safety && v.aux == u.aux && v.axis == u.axis && v.clock == u.clock && v.pins == u.pins;
    if w.axis.m.data.state == Homing {
      HomingControlCarries(w, c.now);
      ControlLooks(w, c.dt, c.now);
      HomingWatches(w, c.now);
    } else if w.safety.homeContact {
      UpdateWatches(w, c.dt, c.now, v);
    }
  }

  lemma UpdateWatches(w: World, dt: real, now: Word, v: World)
    requires Inv(w) && w.safety.state == Idle && w.safety.homeContact && w.axis.m.data.state != Homing
    requires Jam(w) && Jam(v) && v.safety.state == Idle && v.published == v.axis.m.data
    requires var u := ControlUpdated(w, dt, now).0;
             v.axis == u.axis && v.pins == u.pins && v.safety == u.safety && v.aux == u.aux && v.clock == u.clock
    ensures Watches(w, v)
  {
    var x := EvaluatedAndSynced(Published(w));
    EvaluateKeeps(Published(w));
    assert x.safety == v.safety && x.axis.m == w.axis.m && x.axis.encoder == w.axis.encoder && x.pins == w.pins;
    UpdateJams(x.axis, Finite(dt));
    MoveWatches(w, v);
  }

  /** An update that leaves the motor driven has left the rest of a move alone. */
  lemma UpdateJams(a: Axis, dt: Float)
    requires MotionUpdated(a, dt).0.gate.output != 0.0
    ensures var b := MotionUpdated(a, dt).0;
            && a.m.data.state == Moving && b.m.data.state == Moving && b.m.data.target == a.m.data.target
            && b.m.data.velocity == a.m.data.velocity && b.encoder == a.encoder
  {
  }

  lemma SyncSectionWatches(w: World)
    requires Inv(w) && w.cycle.Begun? && w.safety.state == Idle && MotionSynced(w).safety.state == Idle
    ensures Watches(w, MotionSynced(w))
  {
    if !w.cycle.sampled {
      IntegrityKeeps(w, w.cycle.now);
    }
  }

  lemma StepWatches(w: World, e: Event)
    requires Inv(w) && Enabled(w, e) && w.safety.state == Idle && Step(w, e).safety.state == Idle
    requires Jam(w) && Jam(Step(w, e))
    ensures Watches(w, Step(w, e))
  {
    match e
    case SafetyCycle => EvaluationWatches(w);
    case MotionSync => SyncSectionWatches(w);
    case MotionReceive(c) => ReceiveWatches(w, c);
    case MotionFinish => FinishWatches(w);
    case _ => assert Step(w, e).safety == w.safety && Step(w, e).aux.evaluatedAt == w.aux.evaluatedAt;
  }

  // The clock of a jam.

  /** The jam is suspected, and has been for less than 500 ms, since a time no later than `limit`. */
  predicate Suspects(w: World, limit: int) {
    var s, t := w.safety.stall, w.aux.evaluatedAt;
    s.candidate && s.candidateMs < 500 && t - s.candidateMs <= limit && s.candidateStartMs == Wrap(t - s.candidateMs)
  }

  predicate Unevaluated(w: World, v: World) {
    v.safety.stall == w.safety.stall && v.aux.evaluatedAt == w.aux.evaluatedAt
  }

  lemma StartOfElapsed(now: int, start: Word)
    ensures start == Wrap(now - Elapsed(Wrap(now), start))
  {
    WrapDifference(now, start);
    assert Wrap(start) == start;
    WrapShift(start, (now - start) / WORD);
  }

  /** A suspicion that was less than 500 ms old at time t is judged by its true age up to a second later. */
  lemma SuspicionAges(ms: nat, t: nat, now: nat)
    requires ms < 500 && t <= now <= t + SAFETY_PERIOD_MS
    ensures Elapsed(Wrap(now), Wrap(t - ms)) == now - (t - ms)
  {
    WrapDifference(now, t - ms);
  }

  lemma StaysSuspected(v: World, u: World, limit: int)
    requires Watches(v, u) && Suspects(v, limit) && v.aux.evaluatedAt <= v.clock && OnSchedule(v)
    ensures Suspects(u, limit)
  {
    SuspicionAges(v.safety.stall.candidateMs, v.aux.evaluatedAt, v.clock);
  }

  lemma BecomesSuspected(v: World, u: World)
    requires Watches(v, u)
    ensures Unevaluated(v, u) || Suspects(u, v.clock)
  {
    if !Unevaluated(v, u) {
      StartOfElapsed(v.clock, u.safety.stall.candidateStartMs);
    }
  }

  /** While nothing is latched, the states from i to n of a run are jammed; Safety is on schedule; and no
      RESET is accepted. */
  ghost predicate Jammed(ws: seq<World>, es: seq<Event>, i: nat, n: nat) {
    && Run(ws, es) && Reachable(ws[0]) && i <= n <= |es|
    && (forall k | i <= k <= n :: OnSchedule(ws[k]) && (ws[k].safety.state == Idle ==> Jam(ws[k])))
    && (forall k | i <= k < n :: !ResetAccepted(ws[k], es[k]))
  }

  lemma JammedStep(ws: seq<World>, es: seq<Event>, i: nat, k: nat, n: nat)
    requires Jammed(ws, es, i, n) && i <= k < n && Inv(ws[k]) && ws[k + 1].safety.state == Idle
    ensures ws[k].safety.state == Idle && Watches(ws[k], ws[k + 1])
  {
    if ws[k].safety.state != Idle {
      OnlyResetUnlatches(ws[k], es[k]);
    }
    StepWatches(ws[k], es[k]);
  }

  /** A suspicion goes on as long as nothing is latched. */
  lemma JamStaysSuspected(ws: seq<World>, es: seq<Event>, i: nat, n: nat, limit: int)
    requires Jammed(ws, es, i, n) && (ws[i].safety.state == Idle ==> Suspects(ws[i], limit))
    ensures ws[n].safety.state == Idle ==> Suspects(ws[n], limit)
  {
    ReachableRun(ws, es, i);
    for k := i to n
      invariant Inv(ws[k]) && Timely(ws[k]) && (ws[k].safety.state == Idle ==> Suspects(ws[k], limit))
    {
      StepKeepsInv(ws[k], es[k]);
      StepIsTimely(ws[k], es[k]);
      if ws[k + 1].safety.state == Idle {
        JammedStep(ws, es, i, k, n);
        StaysSuspected(ws[k], ws[k + 1], limit);
      }
    }
  }

  /** The first evaluation of a jam comes at most a Safety period after it began. */
  lemma JamBecomesSuspected(ws: seq<World>, es: seq<Event>, i: nat, n: nat)
    requires Jammed(ws, es, i, n)
    ensures ws[n].safety.state == Idle ==>
              Unevaluated(ws[i], ws[n]) || Suspects(ws[n], ws[i].clock + SAFETY_PERIOD_MS)
  {
    ReachableRun(ws, es, i);
    var limit := ws[i].clock + SAFETY_PERIOD_MS;
    for k := i to n
      invariant Inv(ws[k]) && Timely(ws[k])
      invariant ws[k].safety.state == Idle ==> Unevaluated(ws[i], ws[k]) || Suspects(ws[k], limit)
    {
      StepKeepsInv(ws[k], es[k]);
      StepIsTimely(ws[k], es[k]);
      if ws[k + 1].safety.state == Idle {
        JammedStep(ws, es, i, k, n);
        if Suspects(ws[k], limit) {
          StaysSuspected(ws[k], ws[k + 1], limit);
        } else {
          BecomesSuspected(ws[k], ws[k + 1]);
          assert OnSchedule(ws[k]);
        }
      }
    }
  }

  /** A suspicion that began at a known time is 500 ms old in time. */
  lemma SuspicionEnds(ws: seq<World>, es: seq<Event>, i: nat, n: nat, limit: int)
    requires Jammed(ws, es, i, n) && (ws[n].safety.state == Idle ==> Suspects(ws[n], limit))
    requires ws[n].clock > limit + 500 + SAFETY_PERIOD_MS - 1
    ensures ws[n].safety.state != Idle && ws[n].axis.gate.inhibited && ws[n].axis.gate.output == 0.0
  {
    ReachableRun(ws, es, n);
    assert OnSchedule(ws[n]);
  }

  /** Lost motion is answered in time. Over every run, with Safety on its period of 20 ms: when an axis that is
      jammed has been so for more than 519 ms since a Safety cycle saw it, or for more than 539 ms since it
      began, a latch is set, the gate is closed and the motor is off. */
  lemma JamIsAnswered(ws: seq<World>, es: seq<Event>, i: nat, n: nat)
    requires Jammed(ws, es, i, n)
    requires || ws[n].clock > ws[i].clock + 500 + 2 * SAFETY_PERIOD_MS - 1
             || (i < n && es[i] == SafetyCycle && ws[n].clock > ws[i].clock + 500 + SAFETY_PERIOD_MS - 1)
    ensures ws[n].safety.state != Idle && ws[n].axis.gate.inhibited && ws[n].axis.gate.output == 0.0
  {
    if ws[n].clock > ws[i].clock + 500 + 2 * SAFETY_PERIOD_MS - 1 {
      JamBecomesSuspected(ws, es, i, n);
      ReachableRun(ws, es, i);
      assert OnSchedule(ws[n]);
      SuspicionEnds(ws, es, i, n, ws[i].clock + SAFETY_PERIOD_MS);
    } else {
      SightingSuspects(ws, es, i, n);
      assert Jammed(ws, es, i + 1, n);
      JamStaysSuspected(ws, es, i + 1, n, ws[i].clock);
      SuspicionEnds(ws, es, i, n, ws[i].clock);
    }
  }

  lemma SightingStep(w: World)
    requires Inv(w) && Jam(w) && w.safety.state == Idle && SafetyCycled(w).safety.state == Idle
    ensures Suspects(SafetyCycled(w), w.clock)
  {
    EvaluationWatches(w);
    StartOfElapsed(w.clock, SafetyCycled(w).safety.stall.candidateStartMs);
  }

  lemma SightingSuspects(ws: seq<World>, es: seq<Event>, i: nat, n: nat)
    requires Jammed(ws, es, i, n) && i < n && es[i] == SafetyCycle
    ensures ws[i + 1].safety.state == Idle ==> Suspects(ws[i + 1], ws[i].clock)
  {
    if ws[i + 1].safety.state == Idle {
      ReachableRun(ws, es, i);
      JammedStep(ws, es, i, i, n);
      SightingStep(ws[i]);
    }
  }

  lemma NoMotionStep(w: World, e: Event)
    requires Inv(w) && Enabled(w, e) && !ResetAccepted(w, e)
    requires if w.safety.state == Idle then Jam(w) && (Step(w, e).safety.state != Idle ==> e == SafetyCycle)
             else w.safety.faults.active.code == NoMotion
    ensures Step(w, e).safety.state != Idle ==> Step(w, e).safety.faults.active.code == NoMotion
  {
    StepIsClassified(w, e);
    if w.safety.state == Idle {
      EvaluationWatches(w);
    }
  }

  /** And if it is a Safety cycle that latches, the fault that is retained is that of lost motion. */
  lemma JamIsNoMotion(ws: seq<World>, es: seq<Event>, i: nat, n: nat)
    requires Jammed(ws, es, i, n) && ws[i].safety.state == Idle
    requires forall k | i <= k < n ::
               ws[k].safety.state == Idle && ws[k + 1].safety.state != Idle ==> es[k] == SafetyCycle
    ensures ws[n].safety.state != Idle ==> ws[n].safety.faults.active.code == NoMotion
  {
    ReachableRun(ws, es, i);
    for k := i to n
      invariant Inv(ws[k]) && (ws[k].safety.state != Idle ==> ws[k].safety.faults.active.code == NoMotion)
    {
      assert OnSchedule(ws[k]) && ws[k + 1] == Step(ws[k], es[k]);
      StepKeepsInv(ws[k], es[k]);
      NoMotionStep(ws[k], es[k]);
    }
  }
}
