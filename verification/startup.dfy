/** From power-up to an accepted HOME: runs of the runtime and the plant together, while the plant coasts. */
module Startup {
  import opened Words
  import opened Floats
  import opened MotorGate
  import opened Encoders
  import opened MotionControl
  import opened SafetyPolicy
  import opened RuntimeModel
  import opened PlantModel
  import opened ClosedLoop

  /** The runtime as it starts at time 0, with the counter at the plant's count. */
  function PoweredUp(p: PlantState): World {
    World(
      Axis(Initial(DEFAULT_CONFIG), Inhibited(READY, true), Encoder(true, Wrap(p.count), 0)),
      Started(0), BLANK, seq(3, _ => Health(0, 0, false)), Pins(true, NO_INPUTS),
      0, Boot, true, 0, Resting, Aux(0, 0, [0, 0, 0], 0, 0, false, 0))
  }

  predicate OffStops(p: PlantState) {
    PlantFine(p) && 0.0 < p.position < 5000.0
  }

  /** The plant goes on for a millisecond without drive. */
  predicate Coasts(p: PlantState, q: PlantState)
    requires ValidPlant(DEFAULT_PLANT)
  {
    q == PlantStepped(DEFAULT_PLANT, p, 0.0, false)
  }

  predicate CoastsAt(ps: seq<PlantState>, i: nat)
    requires ValidPlant(DEFAULT_PLANT) && i + 1 < |ps|
  {
    Coasts(ps[i], ps[i + 1])
  }

  /** The plant during startup and a little more, which takes 21 ms: it coasts, clear of both stops. */
  ghost predicate CoastsClear(ps: seq<PlantState>) {
    && |ps| == 22 && (forall i | 0 <= i < 22 :: OffStops(ps[i])) && forall i: nat | i < 21 :: CoastsAt(ps, i)
  }

  /** One step of the default plant under a duty. */
  lemma DrivenStep(s: PlantState, duty: real)
    requires PlantFine(s)
    ensures var t, v := PlantStepped(DEFAULT_PLANT, s, duty, false), 0.996 * s.velocity + 2.0 * duty;
            && PlantFine(t)
            && (-600.0 <= v <= 600.0 && 0.0 < s.position + 0.001 * v < 5000.0 ==>
                  t.velocity == v && t.position == s.position + 0.001 * v)
  {
    StepStaysInBounds(DEFAULT_PLANT, s, duty, false);
    assert StepTime(DEFAULT_PLANT) == 0.001;
    assert Acceleration(DEFAULT_PLANT, s, duty) * 0.001 == 2.0 * duty - 0.004 * s.velocity;
  }

  /** And without drive. */
  lemma CoastingStep(s: PlantState)
    requires PlantFine(s)
    ensures var t, v := PlantStepped(DEFAULT_PLANT, s, 0.0, false), 0.996 * s.velocity;
            && PlantFine(t)
            && (0.0 < s.position + 0.001 * v < 5000.0 ==> t.velocity == v && t.position == s.position + 0.001 * v)
  {
    DrivenStep(s, 0.0);
  }

  lemma CountOffStops(p: PlantState)
    requires OffStops(p)
    ensures 0 <= p.count <= 5000 && !p.negativeLimit && !p.positiveLimit
  {
  }

  /** Nothing is driven or latched, nothing is asked for, every task is fresh, and the inputs are the plant's. */
  ghost predicate Calm(w: World, p: PlantState) {
    && w.axis.m.config == DEFAULT_CONFIG && w.axis.m.data.state == Idle
    && (w.axis.m.sampled ==> w.axis.m.data.feedbackValid && SampledBefore(w.axis.m))
    && w.axis.encoder == Encoder(true, Wrap(p.count), 0) && GateOk(w.axis.gate) && w.axis.gate.output == 0.0
    && w.safety.state == Idle && !w.safety.homeContact && w.pins == Pins(true, NO_INPUTS)
    && AllFresh(w.health, Now(w))
  }

  /** The last sample was a count in travel. */
  ghost predicate SampledBefore(m: Motion) {
    exists k: int :: 0 <= k <= 5000 && m.previousCount == ReadingOf(0, k)
  }

  /** A Motion cycle may begin, 10 ms after the last one if there was one. */
  predicate DueForCycle(w: World) {
    w.cycle.Resting? && Gap(w) == MOTION_PERIOD_MS
  }

  function NextApp(app: AppState): AppState {
    if app == Boot then Initializing else if app == Initializing then Idle else app
  }

  lemma SampleIsGood(w: World, p: PlantState)
    requires Calm(w, p) && OffStops(p)
    ensures SampleOk(w.axis, Finite(0.01)) && Logical(w.axis.encoder) == ReadingOf(0, p.count)
  {
    CountOffStops(p);
    if w.axis.m.sampled {
      var k: int :| 0 <= k <= 5000 && w.axis.m.previousCount == ReadingOf(0, k);
      DeltaIsDisplacement(k, p.count, 0);
    }
  }

  /** A cycle up to its commands: the sample is good, and the axis is still calm. */
  lemma CalmOpening(w: World, p: PlantState)
    requires Calm(w, p) && OffStops(p) && DueForCycle(w)
    ensures var v := MotionSynced(MotionBegun(w));
            && Calm(v, p) && v.cycle == Open(Now(w), 0.01, true, 0) && v.app == NextApp(w.app)
            && v.axis.m.sampled && v.axis.m.data.position == v.axis.m.previousCount == Logical(v.axis.encoder)
            && (w.axis.m.sampled ==>
                  v.axis.m.data.velocity ==
                  SignedDelta(Logical(v.axis.encoder), w.axis.m.previousCount) as real / 0.01)
            && v.clock == w.clock == v.aux.capturedAt
            && v.axis.gate.inhibited == w.axis.gate.inhibited && v.safety == w.safety && v.health == w.health
  {
    assert MOTION_PERIOD_MS as real / 1000.0 == 0.01;
    SampleIsGood(w, p);
    CountOffStops(p);
  }

  /** And the rest of it, without a command. */
  lemma CalmClosing(v: World, p: PlantState)
    requires Calm(v, p) && v.cycle == Open(Now(v), 0.01, true, 0) && v.axis.m.sampled
    ensures var u := MotionFinished(v);
            && Calm(u, p) && u.cycle.Resting? && !u.first && u.previousMs == Now(v) && u.app == v.app
            && u.clock == v.clock && u.axis.m.sampled && u.health == v.health && u.safety == v.safety
            && u.axis.m.previousCount == v.axis.m.previousCount
            && u.published.state == Idle && u.axis.gate.inhibited == v.axis.gate.inhibited
  {
  }

  /** The first evaluation with every task fresh opens the gate. */
  lemma CalmEvaluation(w: World, p: PlantState)
    requires Calm(w, p) && w.published.state == Idle
    ensures var v := SafetyCycled(w);
            && Calm(v, p) && !v.axis.gate.inhibited && v.clock == w.clock && v.cycle == w.cycle && v.app == w.app
            && v.first == w.first && v.previousMs == w.previousMs && v.axis.m == w.axis.m && v.health == w.health
  {
    NoneStale(w.health, Now(w));
  }

  // The run.

  lemma RunGoesOn(ws: seq<World>, es: seq<Event>, e: Event, v: World)
    requires Run(ws, es) && Enabled(ws[|es|], e) && v == Step(ws[|es|], e)
    ensures Run(ws + [v], es + [e])
  {
    var vs, fs := ws + [v], es + [e];
    forall i | 0 <= i < |fs|
      ensures Enabled(vs[i], fs[i]) && vs[i + 1] == Step(vs[i], fs[i])
    {
      if i < |es| {
        assert vs[i] == ws[i] && vs[i + 1] == ws[i + 1] && fs[i] == es[i];
      }
    }
  }

  lemma ReachableGoesOn(w: World, e: Event)
    requires Reachable(w) && Enabled(w, e)
    ensures Reachable(Step(w, e))
  {
    var ws: seq<World>, es: seq<Event> :| Run(ws, es) && Start(ws[0]) && ws[|es|] == w;
    RunGoesOn(ws, es, e, Step(w, e));
    assert (ws + [Step(w, e)])[|es + [e]|] == Step(w, e);
  }

  lemma StartIsReachable(w: World)
    requires Start(w)
    ensures Reachable(w)
  {
    var ws: seq<World>, es: seq<Event> := [w], [];
    assert Run(ws, es) && ws[|es|] == w;
  }

  /** The passing of a millisecond is a run of the runtime. */
  lemma TickIsReachable(r: Rig)
    requires PlantFine(r.plant) && Reachable(r.world)
    ensures Reachable(PlantTicked(r).world)
  {
    var w, q := r.world, PlantTicked(r);
    var counted := Step(w, SetRaw(Wrap(q.plant.count)));
    ReachableGoesOn(w, SetRaw(Wrap(q.plant.count)));
    ReachableGoesOn(counted, SetPins(q.world.pins));
    ReachableGoesOn(Step(counted, SetPins(q.world.pins)), Tick(1));
  }

  /** At rest between cycles, every task having beaten at time 0 and never since. */
  ghost predicate Waiting(w: World, p: PlantState, app: AppState) {
    Calm(w, p) && w.cycle.Resting? && w.app == app && forall i | 0 <= i < 3 :: w.health[i] == Health(1, 0, true)
  }

  lemma BeatsReach(p: PlantState) returns (w: World)
    requires OffStops(p)
    ensures Reachable(w) && Waiting(w, p, Boot) && w.clock == 0 && w.first
  {
    w := PoweredUp(p);
    StartIsReachable(w);
    for i := 0 to 3
      invariant Reachable(w) && w == PoweredUp(p).(health := w.health, aux := w.aux)
      invariant forall j | 0 <= j < 3 :: w.health[j] == if j < i then Health(1, 0, true) else Health(0, 0, false)
    {
      w := BeatReaches(w, i);
    }
  }

  lemma BeatReaches(w: World, task: nat) returns (u: World)
    requires Reachable(w) && task < 3 && w.clock == 0 && w.health[task] == Health(0, 0, false)
    ensures Reachable(u) && u == w.(health := w.health[task := Health(1, 0, true)], aux := u.aux)
  {
    ReachableGoesOn(w, Beat(task));
    u := Step(w, Beat(task));
  }

  lemma OpeningReaches(w: World, p: PlantState, app: AppState) returns (v: World)
    requires Reachable(w) && Waiting(w, p, app) && OffStops(p) && DueForCycle(w)
    ensures Reachable(v)
    ensures Calm(v, p) && v.cycle == Open(Now(v), 0.01, true, 0) && v.app == NextApp(app)
    ensures v.axis.m.sampled && v.axis.m.data.position == v.axis.m.previousCount == Logical(v.axis.encoder)
    ensures w.axis.m.sampled ==>
              v.axis.m.data.velocity == SignedDelta(Logical(v.axis.encoder), w.axis.m.previousCount) as real / 0.01
    ensures v.clock == w.clock == v.aux.capturedAt
    ensures v.axis.gate.inhibited == w.axis.gate.inhibited && v.health == w.health
  {
    ReachableGoesOn(w, MotionBegin);
    ReachableGoesOn(MotionBegun(w), MotionSync);
    CalmOpening(w, p);
    v := MotionSynced(MotionBegun(w));
  }

  lemma ClosingReaches(v: World, p: PlantState) returns (u: World)
    requires Reachable(v) && Calm(v, p) && v.cycle == Open(Now(v), 0.01, true, 0) && v.axis.m.sampled
    ensures Reachable(u) && Calm(u, p) && u.cycle.Resting? && !u.first && u.previousMs == Now(u)
    ensures u.clock == v.clock && u.health == v.health && u.app == v.app && u.published.state == Idle
    ensures u.axis.m.sampled && u.axis.m.previousCount == v.axis.m.previousCount
  {
    CalmClosing(v, p);
    ReachableGoesOn(v, MotionFinish);
    u := MotionFinished(v);
  }

  lemma StillFresh(clock: nat)
    requires clock <= HEALTH_MAXIMUM_AGE_MS
    ensures Fresh(Health(1, 0, true), Wrap(clock))
  {
  }

  /** What a millisecond changes of a calm runtime. */
  predicate Later(w: World, u: World, ms: nat) {
    && u.clock == w.clock + ms && u.health == w.health && u.app == w.app && u.published == w.published
    && u.cycle == w.cycle && u.first == w.first && u.previousMs == w.previousMs && u.aux.capturedAt == w.aux.capturedAt
    && u.axis.m == w.axis.m && u.axis.gate == w.axis.gate
  }

  lemma TickReaches(w: World, p: PlantState, q: PlantState) returns (u: World)
    requires Reachable(w) && Calm(w, p) && OffStops(p) && OffStops(q) && w.clock < 100
    requires Coasts(p, q)
    requires forall i | 0 <= i < 3 :: w.health[i] == Health(1, 0, true)
    ensures Reachable(u) && Calm(u, q) && Later(w, u, 1)
  {
    var r := Rig(w, p);
    CountOffStops(p);
    CountOffStops(q);
    TickShape(r);
    TickIsReachable(r);
    StillFresh(w.clock + 1);
    u := PlantTicked(r).world;
  }

  /** A wait that began at w has got to u, with the plant in p. */
  ghost predicate WaitedTo(w: World, u: World, p: PlantState, ms: nat) {
    Reachable(u) && Calm(u, p) && Later(w, u, ms)
  }

  /** One more millisecond of it. */
  lemma WaitGoesOn(w: World, v: World, p: PlantState, q: PlantState, ms: nat) returns (u: World)
    requires Coasts(p, q) && OffStops(p) && OffStops(q) && w.clock + ms < 100
    requires WaitedTo(w, v, p, ms)
    requires forall i | 0 <= i < 3 :: w.health[i] == Health(1, 0, true)
    ensures WaitedTo(w, u, q, ms + 1)
  {
    u := TickReaches(v, p, q);
  }

  lemma CoastsOn(ps: seq<PlantState>, k: nat)
    requires CoastsClear(ps) && k < 21
    ensures OffStops(ps[k]) && OffStops(ps[k + 1]) && Coasts(ps[k], ps[k + 1])
  {
    assert CoastsAt(ps, k);
  }

  lemma TickAlong(w: World, v: World, ps: seq<PlantState>, k: nat, ms: nat) returns (u: World)
    requires CoastsClear(ps) && k < 21 && WaitedTo(w, v, ps[k], ms) && w.clock + ms < 100
    requires forall i | 0 <= i < 3 :: w.health[i] == Health(1, 0, true)
    ensures WaitedTo(w, u, ps[k + 1], ms + 1)
  {
    CoastsOn(ps, k);
    u := WaitGoesOn(w, v, ps[k], ps[k + 1], ms);
  }

  lemma TicksReach(w: World, ps: seq<PlantState>, from: nat, ms: nat) returns (u: World)
    requires CoastsClear(ps) && from + ms <= 21 && WaitedTo(w, w, ps[from], 0) && w.clock + ms <= 100
    requires forall i | 0 <= i < 3 :: w.health[i] == Health(1, 0, true)
    ensures WaitedTo(w, u, ps[from + ms], ms)
  {
    u := w;
    for n := 0 to ms
      invariant WaitedTo(w, u, ps[from + n], n)
    {
      u := TickAlong(w, u, ps, from + n, n);
    }
  }

  /** Ten milliseconds after a cycle the next one is due. */
  lemma DueAfterTen(x: World, u: World)
    requires x.cycle.Resting? && !x.first && x.previousMs == Now(x) && Later(x, u, 10)
    ensures DueForCycle(u)
  {
    WrapDifference(x.clock + 10, x.clock);
  }

  /** One whole cycle, and the time to the next. */
  lemma CycleReaches(w: World, ps: seq<PlantState>, from: nat, app: AppState) returns (u: World)
    requires Reachable(w) && CoastsClear(ps) && from <= 11 && Waiting(w, ps[from], app)
    requires DueForCycle(w) && w.clock <= 90
    ensures Reachable(u) && Waiting(u, ps[from + 10], NextApp(app)) && DueForCycle(u) && u.clock == w.clock + 10
    ensures u.published.state == Idle && u.axis.m.sampled
    ensures u.axis.m.previousCount == ReadingOf(0, ps[from].count)
  {
    var x := WholeCycleReaches(w, ps[from], app);
    u := TicksReach(x, ps, from, 10);
    DueAfterTen(x, u);
  }

  lemma WholeCycleReaches(w: World, q: PlantState, app: AppState) returns (x: World)
    requires Reachable(w) && OffStops(q) && Waiting(w, q, app) && DueForCycle(w)
    ensures Reachable(x) && Waiting(x, q, NextApp(app)) && !x.first && x.previousMs == Now(x) && x.clock == w.clock
    ensures x.published.state == Idle && x.axis.m.sampled && x.axis.m.previousCount == ReadingOf(0, q.count)
  {
    var v := OpeningReaches(w, q, app);
    x := ClosingReaches(v, q);
  }

  lemma EvaluationReaches(w: World, p: PlantState, app: AppState) returns (u: World)
    requires Reachable(w) && Waiting(w, p, app) && DueForCycle(w) && w.published.state == Idle
    ensures Reachable(u) && Waiting(u, p, app) && DueForCycle(u) && u.clock == w.clock && !u.axis.gate.inhibited
    ensures u.axis.m == w.axis.m
  {
    CalmEvaluation(w, p);
    ReachableGoesOn(w, SafetyCycle);
    u := SafetyCycled(w);
  }

  /** Motion about to take its first commands after startup. */
  ghost predicate Listening(w: World, p: PlantState) {
    && Calm(w, p) && w.cycle == Open(Wrap(w.aux.capturedAt), 0.01, true, 0) && w.app == Idle && w.axis.m.sampled
    && !w.axis.gate.inhibited && forall i | 0 <= i < 3 :: w.health[i] == Health(1, 0, true)
  }

  lemma StartupReaches(ps: seq<PlantState>) returns (w: World)
    requires CoastsClear(ps)
    ensures Reachable(w) && Listening(w, ps[20]) && w.clock == w.aux.capturedAt == 20
    ensures w.axis.m.data.position == w.axis.m.previousCount == Logical(w.axis.encoder) == ReadingOf(0, ps[20].count)
    ensures w.axis.m.data.velocity == SignedDelta(ReadingOf(0, ps[20].count), ReadingOf(0, ps[10].count)) as real / 0.01
  {
    var w0 := BeatsReach(ps[0]);
    var w1 := CycleReaches(w0, ps, 0, Boot);
    var w2 := CycleReaches(w1, ps, 10, Initializing);
    var w3 := EvaluationReaches(w2, ps[20], Idle);
    w := OpeningReaches(w3, ps[20], Idle);
  }

  /** However the plant coasts between its stops, HOME can be accepted 20 ms after power-up: the reachable
      states that the closed loop starts from exist. */
  lemma PowerUpReachesHome(ps: seq<PlantState>) returns (w: World)
    requires CoastsClear(ps)
    ensures Reachable(w) && HomeReady(w, ps[20]) && w.clock == 20
  {
    w := StartupReaches(ps);
    CountOffStops(ps[20]);
  }

  /** And reachable states in which the motor is driven exist. */
  lemma DriveIsReachable(ps: seq<PlantState>) returns (w: World)
    requires CoastsClear(ps)
    ensures Reachable(w) && w.axis.gate.output == HOMING_PWM
  {
    var v := PowerUpReachesHome(ps);
    var q := ps[20];
    ReachableGoesOn(v, MotionReceive(HOME_COMMAND));
    HomeStartsWell(v, q);
    HomeTakenShape(v, q);
    var r := HomeStarted(v, q);
    FinishShape(OriginOf(v, q), r);
    ReachableGoesOn(r.world, MotionFinish);
    w := MotionFinished(r.world);
  }

  /** A plant at rest between its stops coasts clear of them. */
  lemma RestingCoastsClear(p: PlantState) returns (ps: seq<PlantState>)
    requires OffStops(p) && p.velocity == 0.0
    ensures CoastsClear(ps) && ps[0] == p && ps[20].position == p.position && ps[20].velocity == 0.0
  {
    ps := [p];
    for n := 0 to 21
      invariant |ps| == n + 1 && ps[0] == p
      invariant forall i | 0 <= i <= n :: OffStops(ps[i]) && ps[i].position == p.position && ps[i].velocity == 0.0
      invariant forall i: nat | i < n :: CoastsAt(ps, i)
    {
      CoastingStep(ps[n]);
      ps := CoastLonger(ps);
    }
  }

  lemma CoastLonger(ps: seq<PlantState>) returns (qs: seq<PlantState>)
    requires ValidPlant(DEFAULT_PLANT) && ps != [] && forall i: nat | i < |ps| - 1 :: CoastsAt(ps, i)
    ensures |qs| == |ps| + 1 && qs[..|ps|] == ps && forall i: nat | i < |qs| - 1 :: CoastsAt(qs, i)
    ensures Coasts(ps[|ps| - 1], qs[|ps|]) && forall i | 0 <= i < |ps| :: qs[i] == ps[i]
  {
    qs := ps + [PlantStepped(DEFAULT_PLANT, ps[|ps| - 1], 0.0, false)];
    forall i: nat | i < |qs| - 1
      ensures CoastsAt(qs, i)
    {
      assert i < |ps| - 1 ==> CoastsAt(ps, i);
    }
  }
}
