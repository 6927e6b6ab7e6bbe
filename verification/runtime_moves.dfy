/** The account of moves: every accepted move is completed, stopped, aborted, or still under way. */
module RuntimeMoves {
  import opened Words
  import opened Floats
  import opened CommandTypes
  import opened MotionControl
  import opened SafetyPolicy
  import opened RuntimeModel
  import opened RuntimeSafety

  predicate UnderWay(w: World) {
    w.axis.m.data.state == Moving
  }

  predicate MoveAccepted(w: World, e: Event) {
    && e.MotionReceive? && w.cycle.Open? && (e.command.kind == MoveAbs || e.command.kind == MoveRel)
    && ReceivedResult(w, e.command).1 == Accepted
  }

  predicate MoveCompleted(w: World, v: World) {
    v.axis.m.data.completedMoves != w.axis.m.data.completedMoves
  }

  predicate MoveStopped(w: World, e: Event, v: World) {
    e.MotionReceive? && e.command.kind == Stop && UnderWay(w) && v.axis.m.data.state == Stopping
  }

  /** A move ended by a latch, before or in this step, or by the loss of feedback that will latch one. */
  predicate MoveAborted(w: World, e: Event, v: World) {
    && (UnderWay(w) || MoveAccepted(w, e)) && !UnderWay(v)
    && (w.safety.state != Idle || v.safety.state != Idle || !v.axis.m.data.feedbackValid)
  }

  function One(b: bool): nat {
    if b then 1 else 0
  }

  /** One step's entry in the account. */
  predicate Balanced(w: World, e: Event, v: World) {
    && One(UnderWay(w)) + One(MoveAccepted(w, e))
       == One(MoveCompleted(w, v)) + One(MoveStopped(w, e, v)) + One(MoveAborted(w, e, v)) + One(UnderWay(v))
    && (MoveCompleted(w, v) ==> v.axis.m.data.completedMoves == Wrap(w.axis.m.data.completedMoves + 1))
  }

  /** What a section other than a command or an update does to a move. */
  predicate Carried(w: World, v: World) {
    && v.axis.m.data.completedMoves == w.axis.m.data.completedMoves
    && (UnderWay(v) ==> UnderWay(w))
    && (UnderWay(w) && !UnderWay(v) ==>
          w.safety.state != Idle || v.safety.state != Idle || !v.axis.m.data.feedbackValid)
  }

  lemma SyncCarries(w: World)
    ensures Carried(w, Synced(w))
    ensures if w.safety.state == Idle then Synced(w) == w else Synced(w).axis.m.data.state == w.safety.state
  {
  }

  lemma EvaluateAndSyncCarries(w: World)
    ensures var v := EvaluatedAndSynced(w);
            && v.axis.m.data.completedMoves == w.axis.m.data.completedMoves
            && (if v.safety.state == Idle then v.axis.m == w.axis.m else v.axis.m.data.state == v.safety.state)
  {
    SyncCarries(EvaluatedWorld(w));
  }

  // Commands.

  lemma OrdinaryCommandBalances(w: World, c: Command, v: World)
    requires v == w.(axis := Commanded(w.axis, c)) && w.safety.state == Idle
    requires c.kind != EmergencyStop && c.kind != Reset
    ensures v.axis.m.data.completedMoves == w.axis.m.data.completedMoves
    ensures (c.kind == MoveAbs || c.kind == MoveRel) && CommandResult(w.axis.m, c) == Accepted
            ==> !UnderWay(w) && UnderWay(v)
    ensures c.kind == Stop && CommandResult(w.axis.m, c) == Accepted && UnderWay(w) ==> v.axis.m.data.state == Stopping
    ensures v == w || ((c.kind == Stop || c.kind == MoveAbs || c.kind == MoveRel)
                       && CommandResult(w.axis.m, c) == Accepted)
    ensures v.axis.m.data.feedbackValid == w.axis.m.data.feedbackValid
  {
  }

  lemma DepartureBalances(w: World, c: Command)
    requires w.safety.state == Idle && (c.kind == MoveAbs || c.kind == MoveRel)
    ensures var (v, r) := DepartureTaken(w, c);
            && v.axis.m.data.completedMoves == w.axis.m.data.completedMoves
            && (r == Accepted ==> !UnderWay(w) && (UnderWay(v) <==> v.safety.state == Idle))
            && (r != Accepted ==> UnderWay(v) ==> UnderWay(w))
            && (UnderWay(w) && !UnderWay(v) ==> v.safety.state != Idle)
  {
    if Destination(w.axis.m, c) > w.axis.m.data.position {
      var u := w.(axis := Commanded(w.axis, c));
      OrdinaryCommandBalances(w, c, u);
      EvaluateAndSyncCarries(Published(u));
    }
  }

  /** ESTOP, RESET and HOME begin no move, and end one only together with a latch. */
  lemma SpecialCommandCarries(w: World, c: Command)
    requires Inv(w) && (c.kind == EmergencyStop || c.kind == Reset || c.kind == Home)
    ensures Carried(w, CommandTaken(w, c).0)
  {
    if c.kind == EmergencyStop {
      var v := w.(safety := Stopped(w.safety, Now(w)));
      SyncCarries(Enforced(v));
    } else if c.kind == Home {
      var v := Published(w.(axis := HomingStarted(w.axis, Now(w))));
      EvaluateAndSyncCarries(v.(aux := v.aux.(homeAt := w.clock)));
    }
  }

  lemma StopCarries(w: World, c: Command)
    requires Inv(w) && c.kind == Stop
    ensures var v := CommandTaken(w, c).0;
            && v.axis.m.data.completedMoves == w.axis.m.data.completedMoves
            && v.axis.m.data.feedbackValid == w.axis.m.data.feedbackValid
            && v.safety.state == w.safety.state
            && (v.axis.m.data.state == w.axis.m.data.state
                || (v.axis.m.data.state == Stopping && w.safety.state == Idle
                    && (w.axis.m.data.state == Homing || (UnderWay(w) && v.axis.m.data.feedbackValid))))
  {
  }

  lemma MoveCarries(w: World, c: Command)
    requires Inv(w) && (c.kind == MoveAbs || c.kind == MoveRel)
    ensures var (v, r) := CommandTaken(w, c);
            && v.axis.m.data.completedMoves == w.axis.m.data.completedMoves
            && (r == Accepted ==> !UnderWay(w) && w.safety.state == Idle && (UnderWay(v) <==> v.safety.state == Idle))
            && (r != Accepted ==> Carried(w, v))
  {
    if w.safety.state == Idle {
      DepartureBalances(w, c);
      OrdinaryCommandBalances(w, c, w.(axis := Commanded(w.axis, c)));
    }
  }

  lemma ReceiveBalances(w: World, c: Command)
    requires Inv(w) && Enabled(w, MotionReceive(c))
    ensures Balanced(w, MotionReceive(c), MotionReceived(w, c))
  {
    if c.kind == EmergencyStop || c.kind == Reset || c.kind == Home {
      SpecialCommandCarries(w, c);
    } else if c.kind == Stop {
      StopCarries(w, c);
    } else if c.kind == MoveAbs || c.kind == MoveRel {
      MoveCarries(w, c);
    }
  }

  // Updates.

  lemma UpdateBalances(a: Axis, dt: Float)
    ensures var (b, ok) := MotionUpdated(a, dt);
            var moving, done := a.m.data.state == Moving, b.m.data.completedMoves != a.m.data.completedMoves;
            && (b.m.data.state == Moving ==> moving && !done)
            && (done ==>
                  && moving && ok && b.m.data.feedbackValid
                  && b.m.data.completedMoves == Wrap(a.m.data.completedMoves + 1))
            && (moving && b.m.data.state != Moving && !done ==> !ok)
  {
    if a.m.data.feedbackValid && UsableStep(dt) {
      var d := Dwelled(a.m);
      if d.data.state == Moving {
        DriveCarries(a.(m := d), dt.value);
      }
    }
  }

  lemma DriveCarries(a: Axis, dt: real)
    requires dt > 0.0 && a.m.data.state == Moving
    ensures var (b, ok) := Driven(a, dt);
            b.m.data.completedMoves == a.m.data.completedMoves && (b.m.data.state == Moving <==> ok)
  {
  }

  /** What a control update does to a move: keep it, complete it unlatched, or fail and latch. */
  predicate Progressed(w: World, v: World, ok: bool) {
    var done := MoveCompleted(w, v);
    && (UnderWay(v) ==> UnderWay(w) && !done)
    && (done ==> UnderWay(w) && ok && v.safety.state == Idle && v.axis.m.data.feedbackValid
                 && v.axis.m.data.completedMoves == Wrap(w.axis.m.data.completedMoves + 1))
    && (UnderWay(w) && !UnderWay(v) && !done ==> !ok || v.safety.state != Idle)
  }

  lemma HomingControlCarries(w: World, now: Word)
    requires w.axis.m.data.state == Homing
    ensures HomingControl(w, now).0.axis.m.data.completedMoves == w.axis.m.data.completedMoves
    ensures !UnderWay(HomingControl(w, now).0)
  {
    EvaluateAndSyncCarries(Published(w));
    var v := if HomingInterrupt(w.pins) then EvaluatedAndSynced(Published(w)) else w;
    if !(HomingInterrupt(w.pins) && v.safety.state != Idle) {
      HomingUpdateCarries(v.axis, ReadPins(w.pins), now);
      SettleCarries(v.(axis := HomingUpdated(v.axis, ReadPins(w.pins), now).0), now);
    }
  }

  lemma SettleCarries(w: World, now: Word)
    ensures var v := HomingSettled(w, now);
            v.axis.m.data.completedMoves == w.axis.m.data.completedMoves && (UnderWay(v) ==> UnderWay(w))
  {
    if w.axis.m.data.homing.result == HomeTimeout {
      SyncCarries(Enforced(w.(safety := HomingTimedOut(w.safety, now))));
    }
  }

  lemma HomingUpdateCarries(a: Axis, inputs: Inputs, now: Word)
    requires a.m.data.state == Homing
    ensures HomingUpdated(a, inputs, now).0.m.data.completedMoves == a.m.data.completedMoves
    ensures HomingUpdated(a, inputs, now).0.m.data.state != Moving
  {
  }

  lemma ControlProgresses(w: World, dt: real, now: Word)
    requires w.axis.m.data.state == Moving || w.axis.m.data.state == Homing ==> w.safety.state == Idle
    ensures Progressed(w, ControlUpdated(w, dt, now).0, ControlUpdated(w, dt, now).1)
  {
    if w.axis.m.data.state == Homing {
      HomingControlCarries(w, now);
    } else {
      EvaluateAndSyncCarries(Published(w));
      LatchedIsStill(Published(w));
      UpdateProgresses(w, if w.safety.homeContact then EvaluatedAndSynced(Published(w)) else w, dt);
    }
  }

  lemma LatchedIsStill(w: World)
    ensures !UnderWay(w) ==> !UnderWay(EvaluatedAndSynced(w))
  {
  }

  /** The update of a controller that an evaluation before it may have halted. */
  lemma UpdateProgresses(w: World, v: World, dt: real)
    requires v.axis.m.data.completedMoves == w.axis.m.data.completedMoves && (UnderWay(v) ==> UnderWay(w))
    requires v == w || (v.safety.state == Idle && v.axis.m == w.axis.m) || v.axis.m.data.state == v.safety.state != Idle
    requires UnderWay(w) ==> w.safety.state == Idle
    ensures var (a, ok) := MotionUpdated(v.axis, Finite(dt)); Progressed(w, v.(axis := a), ok)
  {
    UpdateBalances(v.axis, Finite(dt));
  }

  lemma LostCarries(w: World, active: bool, now: Word)
    ensures var v := UpdateLost(w, active, now);
            v.axis.m.data.completedMoves == w.axis.m.data.completedMoves && v.safety.state != Idle && !UnderWay(v)
  {
    SyncCarries(IntegrityLost(w.(safety := if active then MoreAborted(w.safety) else w.safety), now));
  }

  lemma FinishBalances(w: World)
    requires w.cycle.Open?
    ensures Balanced(w, MotionFinish, MotionFinished(w))
  {
    var c := w.cycle;
    var v := Synced(w);
    SyncCarries(w);
    ControlProgresses(v, c.dt, c.now);
    var (u, ok) := if c.sampled then ControlUpdated(v, c.dt, c.now) else (v, false);
    LostCarries(u, Active(v.axis.m.data.state), c.now);
  }

  lemma BeginCarries(w: World)
    ensures Carried(w, MotionBegun(w))
  {
  }

  lemma SyncSectionCarries(w: World)
    requires w.cycle.Begun?
    ensures Carried(w, MotionSynced(w))
  {
    var c := w.cycle;
    SyncCarries(if c.sampled then w else SampleLost(w, c.before, c.now));
  }

  lemma StepBalances(w: World, e: Event)
    requires Inv(w) && Enabled(w, e)
    ensures Balanced(w, e, Step(w, e))
  {
    match e
    case MotionBegin => BeginCarries(w);
    case MotionSync => SyncSectionCarries(w);
    case MotionReceive(c) => ReceiveBalances(w, c);
    case MotionFinish => FinishBalances(w);
    case _ =>
  }

  // Whole runs.

  datatype Ledger = Ledger(accepted: nat, completed: nat, stopped: nat, aborted: nat)

  function Entered(l: Ledger, w: World, e: Event, v: World): Ledger {
    Ledger(l.accepted + One(MoveAccepted(w, e)), l.completed + One(MoveCompleted(w, v)),
           l.stopped + One(MoveStopped(w, e, v)), l.aborted + One(MoveAborted(w, e, v)))
  }

  function LedgerOf(ws: seq<World>, es: seq<Event>, n: nat): Ledger
    requires n <= |es| && |ws| == |es| + 1
  {
    if n == 0 then Ledger(0, 0, 0, 0) else Entered(LedgerOf(ws, es, n - 1), ws[n - 1], es[n - 1], ws[n])
  }

  /** The ledger balances against a state, and the firmware's counter agrees with it from `base` on. */
  predicate Settled(l: Ledger, base: Word, w: World) {
    && l.accepted == l.completed + l.stopped + l.aborted + One(UnderWay(w))
    && w.axis.m.data.completedMoves == Wrap(base + l.completed)
  }

  lemma EntrySettles(l: Ledger, base: Word, w: World, e: Event, v: World)
    requires Settled(l, base, w) && Balanced(w, e, v)
    ensures Settled(Entered(l, w, e, v), base, v)
  {
    WrapSum(base + l.completed, 1);
  }

  /** Over every run the accepted moves are the completed, the stopped and the aborted ones, plus the one
      that may still be under way; and the firmware's own counter is the number completed. */
  lemma EveryMoveIsAccountedFor(ws: seq<World>, es: seq<Event>, n: nat)
    requires Run(ws, es) && Inv(ws[0]) && !UnderWay(ws[0]) && n <= |es|
    ensures Inv(ws[n]) && Settled(LedgerOf(ws, es, n), ws[0].axis.m.data.completedMoves, ws[n])
  {
    var base := ws[0].axis.m.data.completedMoves;
    for k := 0 to n
      invariant Inv(ws[k]) && Settled(LedgerOf(ws, es, k), base, ws[k])
    {
      StepKeepsInv(ws[k], es[k]);
      StepBalances(ws[k], es[k]);
      EntrySettles(LedgerOf(ws, es, k), base, ws[k], es[k], ws[k + 1]);
    }
  }
}
