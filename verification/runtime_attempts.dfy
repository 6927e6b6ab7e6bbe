/** The record of a HOME attempt: when it says that one is running, one is. */
module RuntimeAttempts {
  import opened Words
  import opened Floats
  import opened CommandTypes
  import opened MotionControl
  import opened SafetyPolicy
  import opened RuntimeModel
  import opened RuntimeSafety
  import opened RuntimeRuns
  import opened RuntimeHoming

  /** Attempts that the record says are running are under way. */
  predicate Honest(m: Motion) {
    m.data.homing.result == HomeRunning ==> m.data.state == Homing
  }

  /** So they are in every state but one kind: a sample has been lost, which the next section will latch. */
  predicate Accurate(w: World) {
    Honest(w.axis.m) || (w.cycle.Begun? && !w.cycle.sampled && w.cycle.before == Homing)
  }

  /** The one step that forgets an attempt: a RESET accepted while Motion has not yet noticed the latch. */
  predicate Forgets(w: World, e: Event) {
    ResetAccepted(w, e) && w.axis.m.data.state == Homing
  }

  // Sections that keep the record honest.

  predicate StaysHonest(w: World, v: World) {
    Honest(w.axis.m) ==> Honest(v.axis.m)
  }

  lemma EvaluateStaysHonest(w: World)
    ensures StaysHonest(w, EvaluatedWorld(w)) && StaysHonest(w, Synced(w)) && StaysHonest(w, EvaluatedAndSynced(w))
  {
  }

  lemma HomeStaysHonest(w: World)
    ensures StaysHonest(w, HomeTaken(w).0)
  {
    var v := Published(w.(axis := HomingStarted(w.axis, Now(w))));
    EvaluateStaysHonest(v.(aux := v.aux.(homeAt := w.clock)));
  }

  lemma MoveStaysHonest(w: World, c: Command)
    ensures StaysHonest(w, w.(axis := Commanded(w.axis, c))) && StaysHonest(w, DepartureTaken(w, c).0)
  {
    var v := w.(axis := Commanded(w.axis, c));
    assert StaysHonest(w, v);
    EvaluateStaysHonest(Published(v));
  }

  lemma CancelStaysHonest(w: World)
    ensures StaysHonest(w, HomeCancelled(w))
  {
  }

  /** A RESET is the only command that can leave a running attempt behind, and does so exactly if it is accepted
      while Motion is homing. */
  lemma ResetIsHonestExactly(w: World)
    requires Inv(w) && Honest(w.axis.m)
    ensures Honest(ResetTaken(w).0.axis.m) <==> !(ResetTaken(w).1 == Accepted && w.axis.m.data.state == Homing)
  {
  }

  lemma CommandStaysHonest(w: World, c: Command)
    requires Inv(w) && Honest(w.axis.m)
    ensures Honest(CommandTaken(w, c).0.axis.m) <==>
            !(c.kind == Reset && ResetTaken(w).1 == Accepted && w.axis.m.data.state == Homing)
  {
    if c.kind == EmergencyStop {
      EvaluateStaysHonest(Enforced(w.(safety := Stopped(w.safety, Now(w)))));
    } else if c.kind == Reset {
      ResetIsHonestExactly(w);
    } else if c.kind == Home {
      HomeStaysHonest(w);
    } else {
      CommandCases(w, c);
      CancelStaysHonest(w);
      MoveStaysHonest(w, c);
    }
  }

  // The control update.

  lemma UpdateStaysHonest(a: Axis, dt: Float)
    requires a.m.data.state != Homing && Honest(a.m)
    ensures Honest(MotionUpdated(a, dt).0.m)
  {
  }

  lemma SeekStaysHonest(a: Axis, inputs: Inputs, now: Word)
    requires Honest(a.m)
    ensures Honest(HomingUpdated(a, inputs, now).0.m)
  {
  }

  lemma SettleStaysHonest(w: World, now: Word)
    ensures StaysHonest(w, HomingSettled(w, now))
  {
    EvaluateStaysHonest(Enforced(w.(safety := HomingTimedOut(w.safety, now))));
    EvaluateStaysHonest(Published(w.(safety := w.safety.(homeContact := true),
                                     aux := w.aux.(contactRaw := w.axis.encoder.raw))));
  }

  lemma ControlStaysHonest(w: World, dt: real, now: Word)
    ensures StaysHonest(w, ControlUpdated(w, dt, now).0)
  {
    if Honest(w.axis.m) {
      EvaluateStaysHonest(Published(w));
      if w.axis.m.data.state == Homing {
        var v := if HomingInterrupt(w.pins) then EvaluatedAndSynced(Published(w)) else w;
        SeekStaysHonest(v.axis, ReadPins(w.pins), now);
        SettleStaysHonest(v.(axis := HomingUpdated(v.axis, ReadPins(w.pins), now).0), now);
      } else {
        var v := if w.safety.homeContact then EvaluatedAndSynced(Published(w)) else w;
        EvaluateKeeps(Published(w));
        UpdateStaysHonest(v.axis, Finite(dt));
      }
    }
  }

  lemma FinishStaysHonest(w: World)
    requires w.cycle.Open?
    ensures StaysHonest(w, MotionFinished(w))
  {
    var v, c := Synced(w), w.cycle;
    EvaluateStaysHonest(w);
    ControlStaysHonest(v, c.dt, c.now);
    var (u, ok) := if c.sampled then ControlUpdated(v, c.dt, c.now) else (v, false);
    var s := if Active(v.axis.m.data.state) then MoreAborted(u.safety) else u.safety;
    EvaluateStaysHonest(IntegrityLost(u.(safety := s), c.now));
  }

  // The opening sections.

  lemma BeginStaysAccurate(w: World)
    requires w.cycle.Resting? && Accurate(w)
    ensures Accurate(MotionBegun(w))
  {
  }

  lemma SyncStaysAccurate(w: World)
    requires w.cycle.Begun? && Accurate(w)
    ensures Honest(MotionSynced(w).axis.m)
  {
    var v := if w.cycle.sampled then w else SampleLost(w, w.cycle.before, w.cycle.now);
    assert Honest(v.axis.m);
    EvaluateStaysHonest(v);
  }

  lemma ReceiveStaysAccurate(w: World, c: Command)
    requires Inv(w) && w.cycle.Open? && Accurate(w)
    ensures Accurate(MotionReceived(w, c)) <==> !Forgets(w, MotionReceive(c))
  {
    CommandStaysHonest(w, c);
    CommandKeepsCycle(w, c);
  }

  lemma CommandKeepsCycle(w: World, c: Command)
    requires w.cycle.Open?
    ensures MotionReceived(w, c).cycle.Open?
  {
  }

  lemma StepStaysAccurate(w: World, e: Event)
    requires Inv(w) && Accurate(w) && Enabled(w, e)
    ensures Accurate(Step(w, e)) <==> !Forgets(w, e)
  {
    match e
    case SafetyCycle => EvaluateStaysHonest(w);
    case MotionBegin => BeginStaysAccurate(w);
    case MotionSync => SyncStaysAccurate(w);
    case MotionReceive(c) => ReceiveStaysAccurate(w, c);
    case MotionFinish => FinishStaysHonest(w);
    case _ =>
  }

  /** The record is accurate exactly as long as no RESET has been accepted while Motion was homing: over every run
      from power-up, whenever it says that a HOME is running, one is under way, or its lost sample is about to be
      latched; and the first such RESET leaves a running attempt in the record of an idle axis. */
  lemma RecordIsAccurate(ws: seq<World>, es: seq<Event>, n: nat)
    requires Run(ws, es) && Start(ws[0]) && n <= |es| && forall k | 0 <= k < n :: !Forgets(ws[k], es[k])
    ensures Accurate(ws[n])
    ensures n < |es| ==> (Accurate(ws[n + 1]) <==> !Forgets(ws[n], es[n]))
  {
    StartIsSafe(ws[0]);
    for k := 0 to n
      invariant Inv(ws[k]) && Accurate(ws[k])
    {
      StepKeepsInv(ws[k], es[k]);
      StepStaysAccurate(ws[k], es[k]);
    }
    if n < |es| {
      StepStaysAccurate(ws[n], es[n]);
    }
  }
}
