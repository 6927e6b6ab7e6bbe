/** When a STOP has come to its end: over every run, from its acceptance on. */
module RuntimeStopping {
  import opened Words
  import opened Floats
  import opened CommandTypes
  import opened MotionControl
  import opened SafetyPolicy
  import opened RuntimeModel
  import opened RuntimeMoves
  import opened RuntimeCompletion
  import opened RuntimeCommands

  predicate Braking(w: World) {
    w.axis.m.data.state == Stopping
  }

  /** The velocity is within the completion velocity in either direction. */
  predicate SlowNow(w: World) {
    -w.axis.m.config.completionVelocity <= w.axis.m.data.velocity <= w.axis.m.config.completionVelocity
  }

  /** One flag for each update among the events 1 to n - 1 of a run, event 0 being the STOP. */
  function SlowUpdates(ws: seq<World>, es: seq<Event>, n: nat): seq<bool>
    requires 1 <= n <= |es| < |ws|
  {
    if n == 1 then []
    else SlowUpdates(ws, es, n - 1) + if es[n - 1].MotionFinish? then [SlowNow(ws[n - 1])] else []
  }

  // One step of a STOP in progress.

  /** The counter and the configuration through a step that does not update. */
  predicate Lingers(w: World, v: World) {
    && v.axis.m.config == w.axis.m.config
    && (Braking(v) ==> Braking(w) && v.axis.m.data.stableCycles == w.axis.m.data.stableCycles)
  }

  lemma EvaluateLingers(w: World)
    ensures Lingers(w, EvaluatedWorld(w)) && Lingers(w, Synced(w)) && Lingers(w, EvaluatedAndSynced(w))
    ensures Synced(w).safety.state != Idle ==> !Braking(Synced(w))
  {
  }

  lemma SpecialLingers(w: World, c: Command)
    requires Braking(w) && (c.kind == EmergencyStop || c.kind == Reset || c.kind == Home)
    ensures Lingers(w, CommandTaken(w, c).0)
  {
    if c.kind == EmergencyStop {
      EvaluateLingers(Enforced(w.(safety := Stopped(w.safety, Now(w)))));
    } else if c.kind == Reset {
      EvaluateLingers(w);
    } else {
      assert HomingStartResult(w.axis.m) != Accepted;
    }
  }

  lemma MoveLingers(w: World, c: Command)
    requires Braking(w) && c.kind != EmergencyStop && c.kind != Reset && c.kind != Home
    ensures Lingers(w, w.(axis := Commanded(w.axis, c)))
  {
  }

  lemma DepartureLingers(w: World, c: Command)
    requires Braking(w) && c.kind != EmergencyStop && c.kind != Reset && c.kind != Home
    ensures Lingers(w, DepartureTaken(w, c).0)
  {
    MoveLingers(w, c);
    EvaluateLingers(Published(w.(axis := Commanded(w.axis, c))));
  }

  lemma CommandLingers(w: World, c: Command)
    requires Braking(w)
    ensures Lingers(w, CommandTaken(w, c).0)
  {
    if c.kind == EmergencyStop || c.kind == Reset || c.kind == Home {
      SpecialLingers(w, c);
    } else {
      MoveLingers(w, c);
      DepartureLingers(w, c);
      assert w.axis.m.data.state != Homing;
    }
  }

  lemma SyncSectionLingers(w: World)
    requires w.cycle.Begun?
    ensures Lingers(w, MotionSynced(w))
  {
    EvaluateLingers(if w.cycle.sampled then w else SampleLost(w, w.cycle.before, w.cycle.now));
  }

  lemma OtherStepsLinger(w: World, e: Event)
    requires Enabled(w, e) && Braking(w) && !e.MotionFinish?
    ensures Lingers(w, Step(w, e))
  {
    match e
    case SafetyCycle => EvaluateLingers(w);
    case MotionSync => SyncSectionLingers(w);
    case MotionReceive(c) => CommandLingers(w, c);
    case _ =>
  }

  /** What an update makes of a STOP that it tests. */
  predicate Settles(w: World, v: World) {
    var stable := if SlowNow(w) then w.axis.m.data.stableCycles + 1 else 0;
    && v.axis.m.config == w.axis.m.config && v.axis.m.data.completedMoves == w.axis.m.data.completedMoves
    && v.axis.gate.output == 0.0
    && if stable < w.axis.m.config.dwellCycles then Braking(v) && v.axis.m.data.stableCycles == stable
       else v.axis.m.data.state == Idle
  }

  lemma UpdateSettles(w: World, v: World, dt: real)
    requires ValidConfig(w.axis.m.config) && Braking(w) && w.axis.m.data.stableCycles < w.axis.m.config.dwellCycles
    requires w.axis.m.data.feedbackValid && UsableStep(Finite(dt)) && v.axis.m == w.axis.m
    ensures var (z, ok) := MotionUpdated(v.axis, Finite(dt)); ok && Settles(w, v.(axis := z))
  {
  }

  lemma TestedSettles(w: World)
    requires Sound(w) && Braking(w) && Tested(w) && w.axis.m.data.stableCycles < w.axis.m.config.dwellCycles
    ensures Settles(w, MotionFinished(w))
  {
    EvaluateWaits(Published(w));
    var v := if w.safety.homeContact then EvaluatedAndSynced(Published(w)) else w;
    assert v.axis.m == w.axis.m && v.safety.state == Idle;
    UpdateSettles(w, v, w.cycle.dt);
    assert Synced(w) == w;
  }

  /** An update that does not get as far as the test latches: the axis is then neither stopping nor idle. */
  lemma UntestedLatches(w: World)
    requires Sound(w) && w.cycle.Open? && !Tested(w) && Braking(w)
    ensures MotionFinished(w).axis.m.data.state != Idle && !Braking(MotionFinished(w))
  {
    var v, c := Synced(w), w.cycle;
    SyncCarries(w);
    if c.sampled {
      UntestedHalts(v, c.dt);
    }
    var (u, ok) := if c.sampled then ControlUpdated(v, c.dt, c.now) else (v, false);
    LostHalts(u, Active(v.axis.m.data.state), c.now);
  }

  /** An update of a controller that a latch has halted. */
  lemma UntestedHalts(v: World, dt: real)
    requires v.axis.m.data.state != Homing && v.axis.m.data.state != Moving
    requires v.safety.state == v.axis.m.data.state != Idle ||
             (v.safety.homeContact && EvaluatedWorld(Published(v)).safety.state != Idle)
    ensures var (u, ok) := ControlUpdated(v, dt, 0); ok ==> u.axis.m.data.state != Idle && !Braking(u)
  {
    EvaluateAndSyncCarries(Published(v));
    var x := if v.safety.homeContact then EvaluatedAndSynced(Published(v)) else v;
    assert x.axis.m.data.state == Fault || x.axis.m.data.state == Estop;
  }

  lemma LostHalts(u: World, active: bool, now: Word)
    ensures var v := UpdateLost(u, active, now); v.axis.m.data.state != Idle && !Braking(v)
  {
    SyncCarries(IntegrityLost(u.(safety := if active then MoreAborted(u.safety) else u.safety), now));
  }

  // From the STOP on.

  /** A run that begins with a STOP that ends a move or a HOME, and brakes for its first n states. */
  ghost predicate StopRun(ws: seq<World>, es: seq<Event>, n: nat) {
    && Run(ws, es) && 1 <= n <= |es| && Reachable(ws[0])
    && es[0].MotionReceive? && es[0].command.kind == Stop && ws[0].app == Idle && Stoppable(ws[0])
    && (ws[0].axis.m.data.state == Moving || ws[0].axis.m.data.state == Homing)
    && forall k | 1 <= k <= n :: Braking(ws[k])
  }

  /** The counter against the flags of the updates since the STOP. */
  ghost predicate Slowing(ws: seq<World>, es: seq<Event>, n: nat)
    requires 1 <= n <= |es| < |ws|
  {
    && Sound(ws[n]) && ws[n].axis.m.config == ws[0].axis.m.config
    && ws[n].axis.m.data.stableCycles == Suffix(SlowUpdates(ws, es, n)) < ws[0].axis.m.config.dwellCycles
  }

  /** What one step of a STOP in progress is, by whether it is an update and a tested one. */
  predicate Braked(w: World, e: Event, v: World) {
    if !e.MotionFinish? then Lingers(w, v)
    else if Tested(w) then Settles(w, v) else v.axis.m.data.state != Idle && !Braking(v)
  }

  lemma BrakeStep(w: World, e: Event)
    requires Sound(w) && Enabled(w, e) && Braking(w) && w.axis.m.data.stableCycles < w.axis.m.config.dwellCycles
    ensures Braked(w, e, Step(w, e))
  {
    if !e.MotionFinish? {
      OtherStepsLinger(w, e);
    } else if Tested(w) {
      TestedSettles(w);
    } else {
      UntestedLatches(w);
    }
  }

  lemma SlowingStep(ws: seq<World>, es: seq<Event>, n: nat)
    requires StopRun(ws, es, n + 1) && n >= 1 && Slowing(ws, es, n)
    ensures Slowing(ws, es, n + 1)
  {
    SoundStep(ws[n], es[n]);
    BrakeStep(ws[n], es[n]);
    SlowSuffix(ws, es, n);
    BrakeCounts(ws[n], es[n], ws[n + 1], Suffix(SlowUpdates(ws, es, n + 1)));
  }

  lemma BrakeCounts(w: World, e: Event, v: World, count: nat)
    requires Braked(w, e, v) && Braking(v) && w.axis.m.data.stableCycles < w.axis.m.config.dwellCycles
    requires count == if !e.MotionFinish? then w.axis.m.data.stableCycles
                      else if SlowNow(w) then w.axis.m.data.stableCycles + 1 else 0
    ensures v.axis.m.config == w.axis.m.config && v.axis.m.data.stableCycles == count < w.axis.m.config.dwellCycles
  {
  }

  lemma SlowSuffix(ws: seq<World>, es: seq<Event>, n: nat)
    requires 1 <= n < |es| < |ws|
    ensures Suffix(SlowUpdates(ws, es, n + 1)) ==
            if !es[n].MotionFinish? then Suffix(SlowUpdates(ws, es, n))
            else if SlowNow(ws[n]) then Suffix(SlowUpdates(ws, es, n)) + 1 else 0
  {
    if es[n].MotionFinish? {
      SuffixGrows(SlowUpdates(ws, es, n), SlowNow(ws[n]));
    } else {
      assert SlowUpdates(ws, es, n + 1) == SlowUpdates(ws, es, n);
    }
  }

  lemma SlowingStart(ws: seq<World>, es: seq<Event>, n: nat)
    requires StopRun(ws, es, n)
    ensures Slowing(ws, es, 1)
  {
    ReachableIsGrounded(ws[0]);
    StopIsTaken(ws[0], es[0].command);
    assert ws[1] == Step(ws[0], es[0]);
    SoundStep(ws[0], es[0]);
    assert ValidConfig(ws[0].axis.m.config);
  }

  lemma StopRunShorter(ws: seq<World>, es: seq<Event>, n: nat, k: nat)
    requires StopRun(ws, es, n) && 1 <= k <= n
    ensures StopRun(ws, es, k)
  {
  }

  lemma CounterIsTheSlowSuffix(ws: seq<World>, es: seq<Event>, n: nat)
    requires StopRun(ws, es, n)
    ensures Slowing(ws, es, n)
  {
    SlowingStart(ws, es, n);
    for k := 1 to n
      invariant Slowing(ws, es, k)
    {
      StopRunShorter(ws, es, n, k + 1);
      SlowingStep(ws, es, k);
    }
  }

  /** What one step makes of a STOP whose earlier updates had these flags. */
  predicate StopVerdict(w: World, e: Event, v: World, flags: seq<bool>, d: Word) {
    && (e.MotionFinish? ==>
          && (v.axis.m.data.state == Idle <==> Tested(w) && Dwelt(flags, d))
          && v.axis.gate.output == 0.0)
    && (e.MotionFinish? && Tested(w) ==> v.axis.m.data.completedMoves == w.axis.m.data.completedMoves)
  }

  lemma StopVerdictOf(w: World, e: Event, v: World, flags: seq<bool>, longer: seq<bool>, d: Word)
    requires Braked(w, e, v) && (e.MotionFinish? ==> v.axis.gate.output == 0.0)
    requires d == w.axis.m.config.dwellCycles && w.axis.m.data.stableCycles == Suffix(flags) < d
    requires e.MotionFinish? ==> longer == flags + [SlowNow(w)]
    ensures !Dwelt(flags, d) && StopVerdict(w, e, v, longer, d)
  {
    SuffixGrows(flags, SlowNow(w));
    SuffixIsMaximal(flags);
    SuffixIsMaximal(flags + [SlowNow(w)]);
  }

  lemma BrakeVerdict(w: World, e: Event, flags: seq<bool>, longer: seq<bool>, d: Word)
    requires Sound(w) && Enabled(w, e) && Braking(w) && d == w.axis.m.config.dwellCycles
    requires w.axis.m.data.stableCycles == Suffix(flags) < d
    requires e.MotionFinish? ==> longer == flags + [SlowNow(w)]
    ensures !Dwelt(flags, d) && StopVerdict(w, e, Step(w, e), longer, d)
  {
    BrakeStep(w, e);
    if e.MotionFinish? {
      FinishStops(w);
    }
    StopVerdictOf(w, e, Step(w, e), flags, longer, d);
  }

  /** The end of a STOP is exact, over every run from the STOP on, whatever comes between: an update makes the axis
      idle if and only if it gets as far as the dwell test, and it and the updates before it since the STOP, the
      dwell number of them in all, were slow in either direction; and at no earlier update were they. Position
      and target play no part. Every update leaves the motor off, and a tested one completes no move. */
  lemma StopEndsExactly(ws: seq<World>, es: seq<Event>, n: nat)
    requires StopRun(ws, es, n) && n < |es|
    ensures StopVerdict(ws[n], es[n], ws[n + 1], SlowUpdates(ws, es, n + 1), ws[0].axis.m.config.dwellCycles)
    ensures !Dwelt(SlowUpdates(ws, es, n), ws[0].axis.m.config.dwellCycles)
  {
    CounterIsTheSlowSuffix(ws, es, n);
    BrakeVerdict(ws[n], es[n], SlowUpdates(ws, es, n), SlowUpdates(ws, es, n + 1), ws[0].axis.m.config.dwellCycles);
  }
}
