/** When a move completes: over every run, from its acceptance on. */
module RuntimeCompletion {
  import opened Words
  import opened Floats
  import opened CommandTypes
  import opened Encoders
  import opened MotionControl
  import opened SafetyPolicy
  import opened RuntimeModel
  import opened RuntimeSafety
  import opened RuntimeMoves
  import opened RuntimeHoming

  // The completion rule.

  /** The length of the run of true flags at the end. */
  function Suffix(flags: seq<bool>): (n: nat)
    ensures n <= |flags|
  {
    if flags == [] || !flags[|flags| - 1] then 0 else Suffix(flags[..|flags| - 1]) + 1
  }

  /** The last d flags are there, and true. */
  predicate Dwelt(flags: seq<bool>, d: nat) {
    d <= |flags| && forall i | |flags| - d <= i < |flags| :: flags[i]
  }

  /** The suffix is the longest run of true flags at the end. */
  lemma {:induction false} SuffixIsMaximal(flags: seq<bool>)
    ensures forall d: nat :: Dwelt(flags, d) <==> d <= Suffix(flags)
  {
    if flags != [] && flags[|flags| - 1] {
      var init := flags[..|flags| - 1];
      SuffixIsMaximal(init);
      forall d: nat | d > 0
        ensures Dwelt(flags, d) <==> Dwelt(init, d - 1)
      {
        assert forall i | |flags| - d <= i < |init| :: i >= 0 ==> flags[i] == init[i];
      }
    }
  }

  /** What Motion holds when an update begins: a position within the tolerance of the target on either side,
      and a velocity within the completion velocity in either direction. */
  predicate InBandNow(w: World) {
    var c, d := w.axis.m.config, w.axis.m.data;
    && -c.tolerance <= (d.target - d.position) as real <= c.tolerance
    && -c.completionVelocity <= d.velocity <= c.completionVelocity
  }

  lemma BandOfAMove(m: Motion)
    ensures InBand(m.config, Moving, m.data.velocity, (m.data.target - m.data.position) as real) <==>
            && -m.config.tolerance <= (m.data.target - m.data.position) as real <= m.config.tolerance
            && -m.config.completionVelocity <= m.data.velocity <= m.config.completionVelocity
  {
  }

  /** One flag for each update among the events 1 to n - 1 of a run, event 0 being the acceptance. */
  function Bands(ws: seq<World>, es: seq<Event>, n: nat): seq<bool>
    requires 1 <= n <= |es| < |ws|
  {
    if n == 1 then []
    else Bands(ws, es, n - 1) + if es[n - 1].MotionFinish? then [InBandNow(ws[n - 1])] else []
  }

  /** The update of this cycle gets as far as the dwell test: its sample was good, nothing is latched, and
      the evaluation that a departure from the switch calls for latches nothing. */
  predicate Tested(w: World) {
    && w.cycle.Open? && w.cycle.sampled && w.safety.state == Idle
    && (w.safety.homeContact ==> EvaluatedWorld(Published(w)).safety.state == Idle)
  }

  // One step of a move under way.

  /** A cycle with a good sample has a usable time step and trusted feedback. */
  predicate CycleOk(w: World) {
    !w.cycle.Resting? && w.cycle.sampled ==> UsableStep(Finite(w.cycle.dt)) && w.axis.m.data.feedbackValid
  }

  /** The counter and the configuration through a step that does not update. */
  predicate Waits(w: World, v: World) {
    && v.axis.m.data.completedMoves == w.axis.m.data.completedMoves && v.axis.m.config == w.axis.m.config
    && (UnderWay(v) ==>
          && UnderWay(w) && v.axis.m.data.stableCycles == w.axis.m.data.stableCycles
          && v.axis.m.data.target == w.axis.m.data.target)
  }

  lemma EvaluateWaits(w: World)
    ensures Waits(w, EvaluatedWorld(w)) && Waits(w, Synced(w)) && Waits(w, EvaluatedAndSynced(w))
    ensures Synced(w).safety.state != Idle ==> !UnderWay(Synced(w))
  {
  }

  lemma CommandWaits(w: World, c: Command)
    requires UnderWay(w)
    ensures Waits(w, CommandTaken(w, c).0)
  {
    if c.kind == EmergencyStop {
      EvaluateWaits(Enforced(w.(safety := Stopped(w.safety, Now(w)))));
    } else if c.kind == Reset {
      EvaluateWaits(w);
    } else if c.kind == Home {
      HomeWaits(w);
    } else {
      OrdinaryWaits(w, c);
    }
  }

  lemma OrdinaryWaits(w: World, c: Command)
    requires UnderWay(w) && c.kind != EmergencyStop && c.kind != Reset && c.kind != Home
    ensures Waits(w, CommandTaken(w, c).0)
  {
    CommandCases(w, c);
    CancelWaits(w);
    MoveWaits(w, c);
  }

  lemma CancelWaits(w: World)
    ensures Waits(w, HomeCancelled(w))
  {
  }

  lemma MoveWaits(w: World, c: Command)
    requires UnderWay(w)
    ensures Waits(w, w.(axis := Commanded(w.axis, c))) && Waits(w, DepartureTaken(w, c).0)
  {
    EvaluateWaits(Published(w.(axis := Commanded(w.axis, c))));
  }

  lemma HomeWaits(w: World)
    requires UnderWay(w)
    ensures Waits(w, HomeTaken(w).0)
  {
    assert HomingStartResult(w.axis.m) != Accepted;
  }

  lemma SyncSectionWaits(w: World)
    requires w.cycle.Begun?
    ensures Waits(w, MotionSynced(w))
  {
    EvaluateWaits(if w.cycle.sampled then w else SampleLost(w, w.cycle.before, w.cycle.now));
  }

  lemma OtherStepsWait(w: World, e: Event)
    requires Enabled(w, e) && UnderWay(w) && !e.MotionFinish?
    ensures Waits(w, Step(w, e))
  {
    match e
    case SafetyCycle => EvaluateWaits(w);
    case MotionSync => SyncSectionWaits(w);
    case MotionReceive(c) => CommandWaits(w, c);
    case _ =>
  }

  /** What an update makes of the counter of a move that it tests. */
  predicate Counts(w: World, v: World, stable: nat) {
    && v.axis.m.config == w.axis.m.config
    && if stable < w.axis.m.config.dwellCycles
       then v.axis.m.data.completedMoves == w.axis.m.data.completedMoves
            && (UnderWay(v) ==>
                  v.axis.m.data.stableCycles == stable && v.axis.m.data.target == w.axis.m.data.target)
       else v.axis.m.data.completedMoves == Wrap(w.axis.m.data.completedMoves + 1)
            && v.axis.m.data.state == Idle && v.axis.m.data.pwm == 0.0 && v.axis.gate.output == 0.0
  }

  /** A drive step leaves everything of the record but its drive values alone. */
  lemma DrivenFrame(a: Axis, dt: real)
    requires dt > 0.0 && Driven(a, dt).1
    ensures var z := Driven(a, dt).0;
            && z.m == a.m.(data := a.m.data.(pidOutput := z.m.data.pidOutput, pwm := z.m.data.pwm), pid := z.m.pid)
            && z.encoder == a.encoder
  {
  }

  lemma UpdateCounts(a: Axis, dt: real)
    requires ValidConfig(a.m.config) && a.m.data.state == Moving && a.m.data.stableCycles < a.m.config.dwellCycles
    requires a.m.data.feedbackValid && UsableStep(Finite(dt))
    ensures var (z, ok) := MotionUpdated(a, Finite(dt));
            var inBand := InBand(a.m.config, Moving, a.m.data.velocity, (a.m.data.target - a.m.data.position) as real);
            var stable := if inBand then a.m.data.stableCycles + 1 else 0;
            && z.m.config == a.m.config
            && if stable < a.m.config.dwellCycles
               then z.m.data.completedMoves == a.m.data.completedMoves && (ok <==> z.m.data.state == Moving)
                    && (ok ==> z.m.data.stableCycles == stable && z.m.data.target == a.m.data.target)
               else ok && z.m.data.completedMoves == Wrap(a.m.data.completedMoves + 1)
                    && z.m.data.state == Idle && z.m.data.pwm == 0.0 && z.gate.output == 0.0
  {
    var d := Dwelled(a.m);
    if d.data.state == Moving {
      DriveCarries(a.(m := d), dt);
      if Driven(a.(m := d), dt).1 {
        DrivenFrame(a.(m := d), dt);
      }
    }
  }

  /** A tested update, from the world it finds after any evaluation to the one it leaves. */
  lemma TestedControl(w: World)
    requires Inv(w) && CycleOk(w) && UnderWay(w) && Tested(w)
    requires w.axis.m.data.stableCycles < w.axis.m.config.dwellCycles
    ensures var (u, ok) := ControlUpdated(w, w.cycle.dt, w.cycle.now);
            var stable := if InBandNow(w) then w.axis.m.data.stableCycles + 1 else 0;
            && Counts(w, u, stable) && (!ok ==> stable < w.axis.m.config.dwellCycles)
            && (stable >= w.axis.m.config.dwellCycles ==> u.safety.state == Idle)
  {
    EvaluateWaits(Published(w));
    var v := if w.safety.homeContact then EvaluatedAndSynced(Published(w)) else w;
    assert v.axis.m == w.axis.m && v.safety.state == Idle;
    UpdateCountsIn(w, v, w.cycle.dt);
  }

  lemma UpdateCountsIn(w: World, v: World, dt: real)
    requires ValidConfig(w.axis.m.config) && UnderWay(w) && w.axis.m.data.stableCycles < w.axis.m.config.dwellCycles
    requires w.axis.m.data.feedbackValid && UsableStep(Finite(dt)) && v.axis.m == w.axis.m
    ensures var (z, ok) := MotionUpdated(v.axis, Finite(dt));
            var stable := if InBandNow(w) then w.axis.m.data.stableCycles + 1 else 0;
            Counts(w, v.(axis := z), stable) && (!ok ==> stable < w.axis.m.config.dwellCycles)
  {
    BandOfAMove(w.axis.m);
    UpdateCounts(v.axis, dt);
  }

  lemma LostCounts(u: World, now: Word)
    ensures var v := UpdateLost(u, true, now);
            && v.axis.m.data.completedMoves == u.axis.m.data.completedMoves && v.axis.m.config == u.axis.m.config
            && !UnderWay(v)
  {
    LostCarries(u, true, now);
  }

  lemma TestedFinish(w: World)
    requires Inv(w) && CycleOk(w) && UnderWay(w) && Tested(w)
    requires w.axis.m.data.stableCycles < w.axis.m.config.dwellCycles
    ensures Counts(w, MotionFinished(w), if InBandNow(w) then w.axis.m.data.stableCycles + 1 else 0)
  {
    TestedControl(w);
    var (u, ok) := ControlUpdated(w, w.cycle.dt, w.cycle.now);
    LostCounts(u, w.cycle.now);
    assert Synced(w) == w;
    assert Settle(w, w.cycle) == if ok then u else UpdateLost(u, true, w.cycle.now);
  }

  lemma UntestedControl(w: World, v: World)
    requires w.cycle.Open? && !Tested(w) && w.cycle.sampled && v == Synced(w) && v.axis.m.data.state != Homing
    ensures var u := ControlUpdated(v, w.cycle.dt, w.cycle.now).0;
            !UnderWay(u) && u.axis.m.data.completedMoves == w.axis.m.data.completedMoves
  {
    EvaluateWaits(w);
    EvaluateWaits(Published(v));
    var x := if v.safety.homeContact then EvaluatedAndSynced(Published(v)) else v;
    assert !UnderWay(x) && x.axis.m.data.completedMoves == w.axis.m.data.completedMoves;
    UpdateBalances(x.axis, Finite(w.cycle.dt));
  }

  lemma UntestedFinish(w: World)
    requires w.cycle.Open? && !Tested(w) && UnderWay(w)
    ensures !UnderWay(MotionFinished(w)) && MotionFinished(w).axis.m.data.completedMoves == w.axis.m.data.completedMoves
  {
    var v, c := Synced(w), w.cycle;
    EvaluateWaits(w);
    assert v.axis.m.data.state != Homing;
    if c.sampled {
      UntestedControl(w, v);
    }
    var (u, ok) := if c.sampled then ControlUpdated(v, c.dt, c.now) else (v, false);
    LostCarries(u, Active(v.axis.m.data.state), c.now);
  }

  // From acceptance on.

  /** A move that has just been accepted has dwelt for no update yet. */
  lemma AcceptanceStartsAtZero(w: World, c: Command)
    requires MoveAccepted(w, MotionReceive(c)) && UnderWay(MotionReceived(w, c))
    ensures MotionReceived(w, c).axis.m.data.stableCycles == 0
    ensures MotionReceived(w, c).axis.m.config == w.axis.m.config
  {
    var v := w.(axis := Commanded(w.axis, c));
    EvaluateWaits(Published(v));
  }

  lemma CycleOkStep(w: World, e: Event)
    requires Enabled(w, e) && CycleOk(w) && HomeClock(w) && HomeClock(Step(w, e))
    ensures CycleOk(Step(w, e))
  {
    CycleCarries(w, e);
  }

  /** A cycle keeps the time step it began with. */
  lemma CycleCarries(w: World, e: Event)
    requires Enabled(w, e)
    ensures var v := Step(w, e);
            match e
            case MotionBegin => v.cycle.Begun? && (v.cycle.sampled ==> UsableStep(Finite(v.cycle.dt)))
            case MotionFinish => v.cycle.Resting?
            case MotionSync => v.cycle == Open(w.cycle.now, w.cycle.dt, w.cycle.sampled, 0)
            case MotionReceive(c) => v.cycle == w.cycle.(taken := w.cycle.taken + 1)
            case _ => v.cycle == w.cycle
  {
  }

  predicate Sound(w: World) {
    Inv(w) && HomeClock(w) && CycleOk(w)
  }

  lemma SoundStep(w: World, e: Event)
    requires Sound(w) && Enabled(w, e)
    ensures Sound(Step(w, e))
  {
    StepKeepsInv(w, e);
    StepKeepsClock(w, e);
    CycleOkStep(w, e);
  }

  lemma ReachableIsSound(w: World)
    requires Reachable(w)
    ensures Sound(w)
  {
    var ws: seq<World>, es: seq<Event> :| Run(ws, es) && Start(ws[0]) && ws[|es|] == w;
    StartIsSafe(ws[0]);
    for k := 0 to |es|
      invariant Sound(ws[k])
    {
      SoundStep(ws[k], es[k]);
    }
  }

  /** A run that begins with the acceptance of a move, which is under way for its first n states. */
  ghost predicate MoveRun(ws: seq<World>, es: seq<Event>, n: nat) {
    && Run(ws, es) && 1 <= n <= |es| && Reachable(ws[0]) && MoveAccepted(ws[0], es[0])
    && forall k | 1 <= k <= n :: UnderWay(ws[k])
  }

  /** The counter against the flags of the updates since acceptance. */
  ghost predicate Dwelling(ws: seq<World>, es: seq<Event>, n: nat)
    requires 1 <= n <= |es| < |ws|
  {
    && Sound(ws[n]) && ws[n].axis.m.config == ws[0].axis.m.config
    && ws[n].axis.m.data.stableCycles == Suffix(Bands(ws, es, n)) < ws[0].axis.m.config.dwellCycles
  }

  lemma SuffixGrows(flags: seq<bool>, flag: bool)
    ensures Suffix(flags + [flag]) == if flag then Suffix(flags) + 1 else 0
  {
    assert (flags + [flag])[..|flags|] == flags;
  }

  /** What one step of a move under way is, by whether it is an update and a tested one. */
  predicate MoveStepped(w: World, e: Event, v: World) {
    if !e.MotionFinish? then Waits(w, v)
    else if Tested(w) then Counts(w, v, if InBandNow(w) then w.axis.m.data.stableCycles + 1 else 0)
    else !UnderWay(v) && v.axis.m.data.completedMoves == w.axis.m.data.completedMoves
  }

  lemma MoveStep(w: World, e: Event)
    requires Sound(w) && Enabled(w, e) && UnderWay(w) && w.axis.m.data.stableCycles < w.axis.m.config.dwellCycles
    ensures MoveStepped(w, e, Step(w, e))
  {
    if !e.MotionFinish? {
      OtherStepsWait(w, e);
    } else if Tested(w) {
      TestedFinish(w);
    } else {
      UntestedFinish(w);
    }
  }

  lemma DwellingStep(ws: seq<World>, es: seq<Event>, n: nat)
    requires MoveRun(ws, es, n + 1) && n >= 1 && Dwelling(ws, es, n)
    ensures Dwelling(ws, es, n + 1)
  {
    var w, e := ws[n], es[n];
    SoundStep(w, e);
    MoveStep(w, e);
    if e.MotionFinish? {
      SuffixGrows(Bands(ws, es, n), InBandNow(w));
    } else {
      assert Bands(ws, es, n + 1) == Bands(ws, es, n);
    }
  }

  lemma MoveRunShorter(ws: seq<World>, es: seq<Event>, n: nat, k: nat)
    requires MoveRun(ws, es, n) && 1 <= k <= n
    ensures MoveRun(ws, es, k)
  {
  }

  lemma DwellingStart(ws: seq<World>, es: seq<Event>, n: nat)
    requires MoveRun(ws, es, n)
    ensures Dwelling(ws, es, 1)
  {
    ReachableIsSound(ws[0]);
    var w, e, v := ws[0], es[0], ws[1];
    assert v == Step(w, e) && UnderWay(v);
    SoundStep(w, e);
    AcceptanceStartsAtZero(w, e.command);
    assert ValidConfig(w.axis.m.config);
  }

  /** While a move is under way its counter is the number of updates, back from the last one, that were all
      in the band: updates since its acceptance, the one of the accepting cycle included. */
  lemma CounterIsTheSuffix(ws: seq<World>, es: seq<Event>, n: nat)
    requires MoveRun(ws, es, n)
    ensures Dwelling(ws, es, n)
  {
    DwellingStart(ws, es, n);
    for k := 1 to n
      invariant Dwelling(ws, es, k)
    {
      MoveRunShorter(ws, es, n, k + 1);
      DwellingStep(ws, es, k);
    }
  }

  /** The verdict of one step on a move whose earlier updates had these flags. */
  predicate Verdict(w: World, e: Event, v: World, flags: seq<bool>, d: Word) {
    && (MoveCompleted(w, v) <==> e.MotionFinish? && Tested(w) && Dwelt(flags, d))
    && (MoveCompleted(w, v) ==>
          && v.axis.m.data.completedMoves == Wrap(w.axis.m.data.completedMoves + 1)
          && v.axis.m.data.state == Idle && v.axis.gate.output == 0.0)
  }

  lemma VerdictOf(w: World, e: Event, v: World, flags: seq<bool>, longer: seq<bool>, d: Word)
    requires MoveStepped(w, e, v) && d == w.axis.m.config.dwellCycles
    requires w.axis.m.data.stableCycles == Suffix(flags) < d
    requires e.MotionFinish? ==> longer == flags + [InBandNow(w)]
    ensures !Dwelt(flags, d) && Verdict(w, e, v, longer, d)
  {
    SuffixGrows(flags, InBandNow(w));
    SuffixIsMaximal(flags);
    SuffixIsMaximal(flags + [InBandNow(w)]);
  }

  lemma StepVerdict(w: World, e: Event, flags: seq<bool>, longer: seq<bool>, d: Word)
    requires Sound(w) && Enabled(w, e) && UnderWay(w) && d == w.axis.m.config.dwellCycles
    requires w.axis.m.data.stableCycles == Suffix(flags) < d
    requires e.MotionFinish? ==> longer == flags + [InBandNow(w)]
    ensures !Dwelt(flags, d) && Verdict(w, e, Step(w, e), longer, d)
  {
    MoveStep(w, e);
    VerdictOf(w, e, Step(w, e), flags, longer, d);
  }

  lemma BandsGrow(ws: seq<World>, es: seq<Event>, n: nat)
    requires 1 <= n < |es| < |ws|
    ensures es[n].MotionFinish? ==> Bands(ws, es, n + 1) == Bands(ws, es, n) + [InBandNow(ws[n])]
  {
  }

  /** Completion is exact, over every run from the acceptance of a move on, whatever Safety cycles, commands,
      heartbeats and stale requests come between: a step completes the move if and only if it is a tested
      update, and it and the updates before it since acceptance, the dwell number of them in all, were in
      the band; and at no earlier update were they. */
  lemma CompletionIsExact(ws: seq<World>, es: seq<Event>, n: nat)
    requires MoveRun(ws, es, n) && n < |es|
    ensures Verdict(ws[n], es[n], ws[n + 1], Bands(ws, es, n + 1), ws[0].axis.m.config.dwellCycles)
    ensures !Dwelt(Bands(ws, es, n), ws[0].axis.m.config.dwellCycles)
  {
    CounterIsTheSuffix(ws, es, n);
    BandsGrow(ws, es, n);
    StepVerdict(ws[n], es[n], Bands(ws, es, n), Bands(ws, es, n + 1), ws[0].axis.m.config.dwellCycles);
  }

  // What an update judges is what its cycle has sampled.

  /** What stays as it is until the next sample, unless feedback or reference are lost. */
  predicate SampleKept(w: World, v: World) {
    v.axis.m.sampled ==> w.axis.m.sampled && v.axis.m.previousCount == w.axis.m.previousCount
  }

  /** The record of position and velocity from a sample to its update. */
  predicate RecordKept(w: World, v: World) {
    && v.axis.m.data.position == w.axis.m.data.position && v.axis.m.data.velocity == w.axis.m.data.velocity
    && SampleKept(w, v)
  }

  lemma EvaluateKeepsRecord(w: World)
    ensures RecordKept(w, EvaluatedWorld(w)) && RecordKept(w, Synced(w)) && RecordKept(w, EvaluatedAndSynced(w))
  {
  }

  lemma StopKeepsRecord(w: World)
    ensures RecordKept(w, StopLatched(w)) && RecordKept(w, HomeCancelled(w))
  {
    EvaluateKeepsRecord(Enforced(w.(safety := Stopped(w.safety, Now(w)))));
  }

  lemma CommandKeepsRecord(w: World, c: Command)
    ensures RecordKept(w, CommandTaken(w, c).0)
  {
    if c.kind == EmergencyStop || c.kind == Stop {
      StopKeepsRecord(w);
      DepartureKeepsRecord(w, c);
    } else if c.kind == Reset {
      EvaluateKeepsRecord(w);
    } else if c.kind == Home {
      HomeKeepsRecord(w);
    } else {
      DepartureKeepsRecord(w, c);
    }
  }

  lemma DepartureKeepsRecord(w: World, c: Command)
    ensures RecordKept(w, w.(axis := Commanded(w.axis, c))) && RecordKept(w, DepartureTaken(w, c).0)
  {
    EvaluateKeepsRecord(Published(w.(axis := Commanded(w.axis, c))));
  }

  lemma HomeKeepsRecord(w: World)
    ensures RecordKept(w, HomeTaken(w).0)
  {
    var v := Published(w.(axis := HomingStarted(w.axis, Now(w))));
    EvaluateKeepsRecord(v.(aux := v.aux.(homeAt := w.clock)));
  }

  lemma SyncSectionKeepsRecord(w: World)
    requires w.cycle.Begun?
    ensures RecordKept(w, MotionSynced(w))
  {
    EvaluateKeepsRecord(if w.cycle.sampled then w else SampleLost(w, w.cycle.before, w.cycle.now));
  }

  lemma StepKeepsRecord(w: World, e: Event)
    requires Enabled(w, e) && !e.MotionBegin? && !e.MotionFinish?
    ensures RecordKept(w, Step(w, e))
  {
    match e
    case SafetyCycle => EvaluateKeepsRecord(w);
    case MotionSync => SyncSectionKeepsRecord(w);
    case MotionReceive(c) => CommandKeepsRecord(w, c);
    case _ =>
  }

  lemma ControlKeepsSample(w: World, dt: real, now: Word)
    ensures SampleKept(w, ControlUpdated(w, dt, now).0)
  {
    EvaluateKeepsRecord(Published(w));
    if w.axis.m.data.state == Homing {
      HomingKeepsSample(w, now);
    } else {
      var v := if w.safety.homeContact then EvaluatedAndSynced(Published(w)) else w;
      UpdateKeepsSample(v.axis, Finite(dt));
    }
  }

  lemma UpdateKeepsSample(a: Axis, dt: Float)
    ensures var z := MotionUpdated(a, dt).0; z.m.sampled ==> a.m.sampled && z.m.previousCount == a.m.previousCount
  {
  }

  lemma HomingKeepsSample(w: World, now: Word)
    ensures SampleKept(w, HomingControl(w, now).0)
  {
    EvaluateKeepsRecord(Published(w));
    var v := if HomingInterrupt(w.pins) then EvaluatedAndSynced(Published(w)) else w;
    var a := HomingUpdated(v.axis, ReadPins(w.pins), now).0;
    assert SampleKept(v, v.(axis := a));
    SettleKeepsSample(v.(axis := a), now);
  }

  lemma SettleKeepsSample(w: World, now: Word)
    ensures SampleKept(w, HomingSettled(w, now))
  {
    EvaluateKeepsRecord(Enforced(w.(safety := HomingTimedOut(w.safety, now))));
    EvaluateKeepsRecord(Published(w.(safety := w.safety.(homeContact := true),
                                     aux := w.aux.(contactRaw := w.axis.encoder.raw))));
  }

  lemma FinishKeepsSample(w: World)
    requires w.cycle.Open?
    ensures SampleKept(w, MotionFinished(w))
  {
    var v, c := Synced(w), w.cycle;
    EvaluateKeepsRecord(w);
    ControlKeepsSample(v, c.dt, c.now);
    var (u, ok) := if c.sampled then ControlUpdated(v, c.dt, c.now) else (v, false);
    var s := if Active(v.axis.m.data.state) then MoreAborted(u.safety) else u.safety;
    EvaluateKeepsRecord(IntegrityLost(u.(safety := s), c.now));
  }

  /** The event between two samples or none: no other sample. */
  ghost predicate NoBegin(es: seq<Event>, i: nat, j: nat) {
    i <= j <= |es| && forall k | i <= k < j :: !es[k].MotionBegin?
  }

  lemma SampleLasts(ws: seq<World>, es: seq<Event>, i: nat, j: nat)
    requires Run(ws, es) && NoBegin(es, i, j)
    ensures SampleKept(ws[i], ws[j])
  {
    for k := i to j
      invariant SampleKept(ws[i], ws[k])
    {
      if es[k].MotionFinish? {
        FinishKeepsSample(ws[k]);
      } else {
        StepKeepsRecord(ws[k], es[k]);
      }
    }
  }

  lemma RecordLasts(ws: seq<World>, es: seq<Event>, i: nat, j: nat)
    requires Run(ws, es) && NoBegin(es, i, j) && forall k | i <= k < j :: !es[k].MotionFinish?
    ensures RecordKept(ws[i], ws[j])
  {
    for k := i to j
      invariant RecordKept(ws[i], ws[k])
    {
      StepKeepsRecord(ws[k], es[k]);
    }
  }

  /** Two samples in a row, at b and then at c, both good and nothing lost between them, and the update at n
      of the cycle that the second begins: what that update judges is the count that the encoder showed at
      c, and the wrapped difference of the two counts over the time of the cycle. */
  lemma UpdateJudgesTheEncoder(ws: seq<World>, es: seq<Event>, b: nat, c: nat, n: nat)
    requires Run(ws, es) && b < c < n < |es|
    requires es[b] == MotionBegin && ws[b + 1].cycle.sampled && NoBegin(es, b + 1, c)
    requires es[c] == MotionBegin && ws[c + 1].cycle.sampled && ws[c].axis.m.sampled
    requires NoBegin(es, c + 1, n) && es[n] == MotionFinish && forall k | c < k < n :: !es[k].MotionFinish?
    ensures var d := ws[n].axis.m.data;
            && d.position == Logical(ws[c].axis.encoder)
            && ws[c + 1].cycle.dt == Gap(ws[c]) as real / 1000.0 > 0.0
            && d.velocity == SignedDelta(Logical(ws[c].axis.encoder),
                                         Logical(ws[b].axis.encoder)) as real / ws[c + 1].cycle.dt
  {
    SampleLasts(ws, es, b + 1, c);
    RecordLasts(ws, es, c + 1, n);
    BeginSamples(ws[b]);
    BeginSamples(ws[c]);
  }

  lemma BeginSamples(w: World)
    requires w.cycle.Resting? && MotionBegun(w).cycle.sampled
    ensures var v, count := MotionBegun(w), Logical(w.axis.encoder);
            && v.cycle.dt == Gap(w) as real / 1000.0 > 0.0
            && v.axis.m.data.position == count && v.axis.m.previousCount == count
            && (w.axis.m.sampled ==>
                  v.axis.m.data.velocity == SignedDelta(count, w.axis.m.previousCount) as real / v.cycle.dt)
  {
  }
}
