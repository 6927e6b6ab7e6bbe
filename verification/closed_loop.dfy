/** HOME on the default plant: the firmware and the simulated axis, closed over the motor gate, the counter
    and the switches. */
module ClosedLoop {
  import opened Words
  import opened CommandTypes
  import opened MotorGate
  import opened Encoders
  import opened MotionControl
  import opened SafetyPolicy
  import opened RuntimeModel
  import opened PlantModel
  import opened HomingTrajectory

  datatype Rig = Rig(world: World, plant: PlantState)

  /** What the firmware sees of the plant. */
  predicate Connected(w: World, p: PlantState) {
    && w.axis.encoder.initialized && w.axis.encoder.raw == Wrap(p.count)
    && w.pins == Pins(true, Inputs(false, p.negativeLimit, p.positiveLimit))
  }

  predicate PlantFine(p: PlantState) {
    ValidPlant(DEFAULT_PLANT) && PlantOk(DEFAULT_PLANT, p)
  }

  predicate AllFresh(h: HealthTable, now: Word) {
    forall i | 0 <= i < 3 :: Fresh(h[i], now)
  }

  // The loop while HOME is running: a plant step takes a millisecond, everything else takes no time.

  datatype LoopEvent = PlantTick | Section(event: Event)

  /** Motion has its cycle every 10 ms, Safety comes at least every 20 ms, every critical task beats in
      time, and the clock stands still during a Motion cycle. Any command but STOP and ESTOP, which end the
      attempt, may come, up to two in a cycle. Otherwise any order will do; no stale request is issued. */
  predicate LoopEnabled(r: Rig, e: LoopEvent) {
    var w := r.world;
    && w.axis.m.data.state == Homing
    && match e
       case PlantTick =>
         && w.cycle.Resting? && w.clock < w.aux.capturedAt + MOTION_PERIOD_MS
         && w.clock < w.aux.evaluatedAt + SAFETY_PERIOD_MS && AllFresh(w.health, Wrap(w.clock + 1))
       case Section(event) =>
         match event
         case SafetyCycle => true
         case MotionBegin => w.cycle.Resting? && w.clock == w.aux.capturedAt + MOTION_PERIOD_MS
         case MotionSync => w.cycle.Begun?
         case MotionReceive(c) => w.cycle.Open? && w.cycle.taken < 2 && c.kind != Stop && c.kind != EmergencyStop
         case MotionFinish => w.cycle.Open?
         case Beat(task) => task < 3
         case _ => false
  }

  function PlantTicked(r: Rig): Rig
    requires ValidPlant(DEFAULT_PLANT)
  {
    var p := PlantStepped(DEFAULT_PLANT, r.plant, r.world.axis.gate.output, false);
    var counted := Step(r.world, SetRaw(Wrap(p.count)));
    var switched := Step(counted, SetPins(r.world.pins.(
      inputs := r.world.pins.inputs.(negativeLimit := p.negativeLimit, positiveLimit := p.positiveLimit))));
    Rig(Step(switched, Tick(1)), p)
  }

  function LoopStep(r: Rig, e: LoopEvent): Rig
    requires LoopEnabled(r, e) && ValidPlant(DEFAULT_PLANT)
  {
    match e
    case PlantTick => PlantTicked(r)
    case Section(event) => r.(world := Step(r.world, event))
  }

  // HOME in progress.

  /** Where and when the attempt began, and what it found. */
  datatype Origin = Origin(at: nat, x: real, v: real, offset: Word, completed: Word)

  predicate InHoming(o: Origin, w: World) {
    var m := w.axis.m;
    && m.data.state == Homing && m.data.feedbackValid && m.sampled
    && m.data.homing.result == HomeRunning && m.data.homing.startedMs == Wrap(o.at)
    && m.data.homing.completed == o.completed
    && w.axis.encoder.offset == o.offset && GateOk(w.axis.gate)
    && w.safety.state == Idle && w.published.state == Homing && w.app == Idle && AllFresh(w.health, Now(w))
  }

  predicate InTime(o: Origin, w: World) {
    && o.at <= w.aux.capturedAt <= w.clock <= w.aux.capturedAt + MOTION_PERIOD_MS
    && o.at <= w.aux.evaluatedAt <= w.clock <= w.aux.evaluatedAt + SAFETY_PERIOD_MS
    && (w.cycle.Resting? ==> !w.first && w.previousMs == Wrap(w.aux.capturedAt))
    && (!w.cycle.Resting? ==> w.clock == w.aux.capturedAt && w.cycle.now == Now(w) && w.cycle.sampled)
  }

  /** Milliseconds since the attempt began, now and at the last sample. */
  function Age(o: Origin, w: World): nat
    requires InTime(o, w)
  {
    w.clock - o.at
  }

  function SampleAge(o: Origin, w: World): nat
    requires InTime(o, w)
  {
    w.aux.capturedAt - o.at
  }

  function CountAt(o: Origin, n: nat): int {
    Round(Place(o.x, o.v, n))
  }

  function ReadingOf(offset: Word, count: int): Count {
    Logical(Encoder(true, Wrap(count), offset))
  }

  /** The velocity that Motion computes from the counts of two samples in a row. */
  function Rate(o: Origin, n: nat): real
    requires n >= 10
  {
    (CountAt(o, n) - CountAt(o, n - 10)) as real / 0.01
  }

  /** The plant follows the trajectory, under drive, and has not come to either stop. */
  predicate OnTrajectory(o: Origin, r: Rig)
    requires InTime(o, r.world)
  {
    var n := Age(o, r.world);
    && r.plant.position == Place(o.x, o.v, n) && r.plant.velocity == Speed(o.v, n)
    && (forall i: nat | i <= n :: 0.0 < Place(o.x, o.v, i) < 5000.0)
    && -600.0 <= o.v <= 600.0
  }

  predicate Driving(o: Origin, w: World)
    requires InTime(o, w)
  {
    var g := w.axis.gate;
    && !g.inhibited && !g.negativeBlocked
    && (g.output == HOMING_PWM || (g.output == 0.0 && Age(o, w) == 0 && !w.cycle.Resting?))
  }

  /** The samples so far: the last count, and the velocities that Motion holds and has published. */
  predicate Sampling(o: Origin, w: World)
    requires InTime(o, w)
  {
    var c := SampleAge(o, w);
    && w.axis.m.previousCount == ReadingOf(o.offset, CountAt(o, c))
    && (c >= 10 ==> w.axis.m.data.velocity == Rate(o, c))
    && (w.cycle.Resting? && c >= 10 ==> w.published.velocity == Rate(o, c))
    && (!w.cycle.Resting? && c >= 20 ==>
          w.published.velocity == Rate(o, c - 10) || w.published.velocity == Rate(o, c))
  }

  /** Since when no-motion has been suspected, and a moment about then at which the plant was slow. */
  predicate SuspectedSince(o: Origin, stall: Stall, evaluatedAt: nat, since: nat, a: nat) {
    && o.at <= since <= evaluatedAt && stall.candidateStartMs == Wrap(since)
    && (evaluatedAt < o.at + 20 || (Slow(o.v, a) && a <= since - o.at + 40))
  }

  ghost predicate Suspicion(o: Origin, w: World) {
    w.safety.stall.candidate ==>
      exists since: nat, a: nat :: SuspectedSince(o, w.safety.stall, w.aux.evaluatedAt, since, a)
  }

  /** On the way to the switch. */
  ghost predicate Seeking(o: Origin, r: Rig) {
    && InHoming(o, r.world) && InTime(o, r.world) && PlantFine(r.plant) && Connected(r.world, r.plant)
    && OnTrajectory(o, r) && Driving(o, r.world) && Sampling(o, r.world) && Suspicion(o, r.world)
  }

  /** On the switch, and Motion has not seen it yet. */
  ghost predicate Touching(o: Origin, r: Rig) {
    var w := r.world;
    && InHoming(o, w) && InTime(o, w) && PlantFine(r.plant) && Connected(w, r.plant)
    && r.plant.position == 0.0 && (w.cycle.Resting? ==> r.plant.velocity == 0.0)
    && (w.axis.gate.output == HOMING_PWM || w.axis.gate.output == 0.0)
    && SampleAge(o, w) <= LATEST_CONTACT + (if w.cycle.Resting? then 0 else MOTION_PERIOD_MS)
    && exists k: int :: 0 <= k <= 5000 && w.axis.m.previousCount == ReadingOf(o.offset, k)
  }

  /** HOME has completed: at rest, referenced at logical zero, nothing latched, the counter advanced. */
  predicate Homed(o: Origin, w: World) {
    var d := w.axis.m.data;
    && d.state == Idle && d.homing.result == HomeComplete && d.homing.referenced
    && d.homing.completed == Wrap(o.completed + 1)
    && Logical(w.axis.encoder) == 0 && w.axis.gate.output == 0.0 && w.safety.state == Idle
    && o.at <= w.clock <= o.at + LATEST_CONTACT + MOTION_PERIOD_MS
  }

  // Evaluations on the way.

  lemma NoneStale(h: HealthTable, now: Word)
    requires AllFresh(h, now)
    ensures StaleMask(h, now, 3) == 0
  {
  }

  /** An evaluation that finds nothing. */
  lemma QuietEvaluation(s: Safety, o: Observation)
    requires s.state == Idle && o.valid && !o.inputs.estop && !o.inputs.positiveLimit && o.mask == 0
    requires o.motion.state == Homing && !Stalled(s, o)
    ensures var t := Evaluated(s, o);
            && t.state == Idle && t.sensed == Sensed(o.inputs, true, true, 0) && t.stall == StallAfter(s, o)
            && (!o.inputs.negativeLimit ==> !t.homeContact)
  {
  }

  /** What such an evaluation does to the runtime: nothing, unless the switch is closed; then the gate is. */
  lemma QuietEvaluationOfWorld(o: Origin, w: World)
    requires InHoming(o, w) && w.pins.ready && !w.pins.inputs.estop && !w.pins.inputs.positiveLimit
    requires !Stalled(w.safety, Observed(w))
    ensures var v := EvaluatedWorld(w);
            && v == w.(axis := w.axis.(gate := v.axis.gate), safety := v.safety,
                       aux := w.aux.(evaluatedAt := w.clock, pinsSeen := true))
            && v.safety.state == Idle && v.safety.stall == StallAfter(w.safety, Observed(w))
            && (if w.pins.inputs.negativeLimit then v.axis.gate.output == 0.0
                else !v.axis.gate.inhibited && !v.axis.gate.negativeBlocked)
            && (!w.axis.gate.inhibited && !w.axis.gate.negativeBlocked && !w.pins.inputs.negativeLimit ==>
               v.axis.gate == w.axis.gate)
            && GateOk(v.axis.gate)
            && (w.axis.gate.output == 0.0 ==> v.axis.gate.output == 0.0)
  {
    NoneStale(w.health, Now(w));
    QuietEvaluation(w.safety, Observed(w));
  }

  /** Suspicion before an evaluation on the way is only raised while the plant is slow. */
  lemma SuspectIsSlow(o: Origin, r: Rig) returns (a: nat)
    requires Seeking(o, r) && Qualifying(r.world.safety, Observed(r.world)) && Age(o, r.world) >= 20
    ensures Age(o, r.world) - 20 < a <= Age(o, r.world) && Slow(o.v, a)
  {
    var w := r.world;
    var c := SampleAge(o, w);
    var p := if w.cycle.Resting? || w.published.velocity == Rate(o, c) then c else c - 10;
    assert w.published.velocity == Rate(o, p);
    assert CountAt(o, p) == CountAt(o, p - 10);
    UnchangedCountIsSlow(o.x, o.v, p - 10);
    a :| p - 10 < a <= p && Slow(o.v, a);
  }

  /** The suspicion after an evaluation that qualifies: no more than 440 ms old. */
  lemma SuspicionStaysShort(o: Origin, r: Rig) returns (since: nat, a: nat)
    requires Seeking(o, r) && Qualifying(r.world.safety, Observed(r.world))
    ensures SuspectedSince(o, StallAfter(r.world.safety, Observed(r.world)), r.world.clock, since, a)
    ensures r.world.clock - since < 500
  {
    var w := r.world;
    var n := Age(o, w);
    since, a := w.clock, 0;
    if w.safety.stall.candidate {
      since, a :| SuspectedSince(o, w.safety.stall, w.aux.evaluatedAt, since, a);
    }
    if n >= 20 {
      var b := SuspectIsSlow(o, r);
      if !w.safety.stall.candidate || w.aux.evaluatedAt < o.at + 20 {
        a := b;
      }
      SlowIsShort(o.v, a, b);
    }
  }

  lemma NotStalledOnTheWay(o: Origin, r: Rig)
    requires Seeking(o, r)
    ensures !Stalled(r.world.safety, Observed(r.world))
    ensures var stall := StallAfter(r.world.safety, Observed(r.world));
            stall.candidate ==> exists since: nat, a: nat :: SuspectedSince(o, stall, r.world.clock, since, a)
  {
    var w := r.world;
    if Qualifying(w.safety, Observed(w)) {
      var since, a := SuspicionStaysShort(o, r);
      ElapsedIsTrueTime(since, w.clock);
    }
  }

  // Every event keeps HOME going, or completes it.

  ghost predicate KeepsPhase(o: Origin, r: Rig, q: Rig) {
    (Seeking(o, r) ==> Seeking(o, q)) && (Touching(o, r) ==> Touching(o, q))
  }

  lemma SafetyKeepsSeeking(o: Origin, r: Rig)
    requires Seeking(o, r)
    ensures Seeking(o, r.(world := EvaluatedWorld(r.world)))
  {
    NotStalledOnTheWay(o, r);
    QuietEvaluationOfWorld(o, r.world);
    var v := EvaluatedWorld(r.world);
    assert InHoming(o, v) && InTime(o, v) && OnTrajectory(o, r.(world := v));
  }

  lemma SafetyKeepsTouching(o: Origin, r: Rig)
    requires Touching(o, r)
    ensures Touching(o, r.(world := EvaluatedWorld(r.world)))
  {
    assert r.plant.negativeLimit;
    QuietEvaluationOfWorld(o, r.world);
    var v := EvaluatedWorld(r.world);
    assert InHoming(o, v) && InTime(o, v);
  }

  /** The watchdog refresh changes a statistic only. */
  lemma SafetyCycleIsEvaluation(w: World)
    ensures var v, u := SafetyCycled(w), EvaluatedWorld(w);
            v == u.(safety := u.safety.(account := v.safety.account))
  {
  }

  lemma SafetyCycleKeeps(o: Origin, r: Rig)
    requires Seeking(o, r) || Touching(o, r)
    ensures KeepsPhase(o, r, r.(world := SafetyCycled(r.world)))
  {
    SafetyCycleIsEvaluation(r.world);
    var v, u := SafetyCycled(r.world), EvaluatedWorld(r.world);
    if Seeking(o, r) {
      SafetyKeepsSeeking(o, r);
    }
    if Touching(o, r) {
      SafetyKeepsTouching(o, r);
    }
    AccountIsNotRead(o, r.(world := u), v.safety.account);
  }

  lemma AccountIsNotRead(o: Origin, r: Rig, account: Account)
    requires Seeking(o, r) || Touching(o, r)
    ensures KeepsPhase(o, r, r.(world := r.world.(safety := r.world.safety.(account := account))))
  {
  }

  /** What a beat changes. */
  predicate OnlyBeats(w: World, v: World) {
    v == w.(health := v.health, aux := w.aux.(beatAt := v.aux.beatAt)) && AllFresh(v.health, Now(v))
  }

  lemma BeatOnlyBeats(w: World, task: nat)
    requires AllFresh(w.health, Now(w)) && task < 3
    ensures OnlyBeats(w, Step(w, Beat(task)))
  {
  }

  lemma BeatWhileSeeking(o: Origin, r: Rig, v: World)
    requires Seeking(o, r) && OnlyBeats(r.world, v)
    ensures Seeking(o, r.(world := v))
  {
  }

  lemma BeatWhileTouching(o: Origin, r: Rig, v: World)
    requires Touching(o, r) && OnlyBeats(r.world, v)
    ensures Touching(o, r.(world := v))
  {
  }

  lemma BeatKeeps(o: Origin, r: Rig, task: nat)
    requires (Seeking(o, r) || Touching(o, r)) && task < 3
    ensures KeepsPhase(o, r, r.(world := Step(r.world, Beat(task))))
  {
    BeatOnlyBeats(r.world, task);
    if Seeking(o, r) {
      BeatWhileSeeking(o, r, Step(r.world, Beat(task)));
    }
    if Touching(o, r) {
      BeatWhileTouching(o, r, Step(r.world, Beat(task)));
    }
  }

  /** Against the other stop: the next evaluation latches. */
  ghost predicate Overrun(o: Origin, r: Rig) {
    && InHoming(o, r.world) && PlantFine(r.plant) && Connected(r.world, r.plant) && r.plant.positiveLimit
    && o.at <= r.world.clock
  }

  /** A millisecond passes for the firmware: new counts, new switches, a later clock. */
  lemma TickShape(r: Rig)
    requires PlantFine(r.plant)
    ensures var q := PlantTicked(r);
            && q.world == r.world.(axis := r.world.axis.(encoder := q.world.axis.encoder), pins := q.world.pins,
                                   clock := r.world.clock + 1, aux := r.world.aux.(pinsSeen := false))
            && q.world.axis.encoder == r.world.axis.encoder.(raw := Wrap(q.plant.count))
            && (Connected(r.world, r.plant) ==> Connected(q.world, q.plant)) && PlantFine(q.plant)
            && q.plant == PlantStepped(DEFAULT_PLANT, r.plant, r.world.axis.gate.output, false)
  {
    StepStaysInBounds(DEFAULT_PLANT, r.plant, r.world.axis.gate.output, false);
  }

  lemma TickKeepsTime(o: Origin, r: Rig)
    requires InHoming(o, r.world) && InTime(o, r.world) && PlantFine(r.plant) && LoopEnabled(r, PlantTick)
    ensures InHoming(o, PlantTicked(r).world) && InTime(o, PlantTicked(r).world)
  {
    TickShape(r);
  }

  lemma TickWhileTouching(o: Origin, r: Rig)
    requires Touching(o, r) && LoopEnabled(r, PlantTick)
    ensures Touching(o, PlantTicked(r))
  {
    TickKeepsTime(o, r);
    TickShape(r);
    RestsOnSwitch(r.plant, r.world.axis.gate.output);
  }

  /** The plant's next step, seen from the trajectory. */
  lemma NextPlace(o: Origin, r: Rig)
    requires Seeking(o, r) && LoopEnabled(r, PlantTick)
    ensures var n, t := Age(o, r.world), PlantTicked(r).plant;
            var x := Place(o.x, o.v, n + 1);
            && (0.0 < x < 5000.0 ==> t.velocity == Speed(o.v, n + 1) && t.position == x)
            && (x <= 0.0 ==> t.velocity == 0.0 && t.position == 0.0)
            && (x >= 5000.0 ==> t.position == 5000.0)
  {
    HomingStep(r.plant);
    TickShape(r);
  }

  lemma TickOnTheWay(o: Origin, r: Rig)
    requires Seeking(o, r) && LoopEnabled(r, PlantTick) && 0.0 < Place(o.x, o.v, Age(o, r.world) + 1) < 5000.0
    ensures Seeking(o, PlantTicked(r))
  {
    TickKeepsTime(o, r);
    TickShape(r);
    NextPlace(o, r);
    var q := PlantTicked(r);
    assert OnTrajectory(o, q);
    assert Driving(o, q.world) && Sampling(o, q.world) && Suspicion(o, q.world);
  }

  lemma TickToContact(o: Origin, r: Rig)
    requires Seeking(o, r) && LoopEnabled(r, PlantTick) && Place(o.x, o.v, Age(o, r.world) + 1) <= 0.0
    ensures Touching(o, PlantTicked(r))
  {
    TickKeepsTime(o, r);
    TickShape(r);
    NextPlace(o, r);
    var c := SampleAge(o, r.world);
    assert 0.0 < Place(o.x, o.v, c) < 5000.0;
    assert 0 <= CountAt(o, c) <= 5000;
    if c > LATEST_CONTACT {
      assert 0.0 < Place(o.x, o.v, 0) < 5000.0;
      ContactIsInevitable(o.x, o.v, c);
    }
  }

  lemma TickToOtherStop(o: Origin, r: Rig)
    requires Seeking(o, r) && LoopEnabled(r, PlantTick) && Place(o.x, o.v, Age(o, r.world) + 1) >= 5000.0
    ensures Overrun(o, PlantTicked(r))
  {
    TickKeepsTime(o, r);
    TickShape(r);
    NextPlace(o, r);
  }

  // The Motion cycle.

  lemma SampleOnTheWay(o: Origin, i: int, j: int)
    requires -5000 <= i - j <= 5000
    ensures DeltaBits(ReadingOf(o.offset, i), ReadingOf(o.offset, j)) != AMBIGUOUS
    ensures SignedDelta(ReadingOf(o.offset, i), ReadingOf(o.offset, j)) == i - j
  {
    DeltaIsDisplacement(j, i, o.offset);
  }

  /** The cycle that has begun, with its sample. */
  predicate BegunWith(o: Origin, w: World, v: World, count: int, velocity: real) {
    && InHoming(o, v) && InTime(o, v) && v.cycle.Begun?
    && v == w.(axis := v.axis, cycle := v.cycle, aux := w.aux.(capturedAt := w.clock))
    && v.axis == w.axis.(m := v.axis.m)
    && v.axis.m.previousCount == ReadingOf(o.offset, count) && v.axis.m.data.velocity == velocity
  }

  /** A cycle begins with a good sample. */
  lemma BeginShape(o: Origin, w: World, count: int, k: int)
    requires InHoming(o, w) && InTime(o, w) && w.cycle.Resting? && w.clock == w.aux.capturedAt + MOTION_PERIOD_MS
    requires w.axis.encoder.initialized && w.axis.encoder.raw == Wrap(count)
    requires 0 <= count <= 5000 && 0 <= k <= 5000 && w.axis.m.previousCount == ReadingOf(o.offset, k)
    ensures BegunWith(o, w, MotionBegun(w), count, (count - k) as real / 0.01)
  {
    SampleOnTheWay(o, count, k);
    ElapsedIsTrueTime(w.aux.capturedAt, w.clock);
    assert Gap(w) == MOTION_PERIOD_MS;
    assert Gap(w) as real / 1000.0 == 0.01;
    assert w.axis.encoder == Encoder(true, Wrap(count), o.offset);
  }

  lemma BegunIsSeeking(o: Origin, r: Rig, v: World)
    requires Seeking(o, r) && r.world.cycle.Resting? && r.world.clock == r.world.aux.capturedAt + MOTION_PERIOD_MS
    requires BegunWith(o, r.world, v, r.plant.count,
                       (r.plant.count - CountAt(o, SampleAge(o, r.world))) as real / 0.01)
    ensures Seeking(o, r.(world := v))
  {
    CountsOnTheWay(o, r);
    assert r.plant.count - CountAt(o, SampleAge(o, r.world)) ==
           CountAt(o, Age(o, r.world)) - CountAt(o, Age(o, r.world) - 10);
    assert OnTrajectory(o, r.(world := v)) && Driving(o, v) && Sampling(o, v) && Suspicion(o, v);
  }

  lemma CountsOnTheWay(o: Origin, r: Rig)
    requires Seeking(o, r)
    ensures 0 <= CountAt(o, SampleAge(o, r.world)) <= 5000
    ensures r.plant.count == CountAt(o, Age(o, r.world)) && 0 <= r.plant.count <= 5000
  {
    assert 0.0 < Place(o.x, o.v, SampleAge(o, r.world)) < 5000.0;
    assert 0.0 < Place(o.x, o.v, Age(o, r.world)) < 5000.0;
  }

  lemma BeginKeepsSeeking(o: Origin, r: Rig)
    requires Seeking(o, r) && LoopEnabled(r, Section(MotionBegin))
    ensures Seeking(o, r.(world := MotionBegun(r.world)))
  {
    CountsOnTheWay(o, r);
    BeginShape(o, r.world, r.plant.count, CountAt(o, SampleAge(o, r.world)));
    BegunIsSeeking(o, r, MotionBegun(r.world));
  }

  lemma BegunIsTouching(o: Origin, r: Rig, v: World, velocity: real)
    requires Touching(o, r) && r.world.cycle.Resting? && BegunWith(o, r.world, v, 0, velocity)
    requires r.world.clock == r.world.aux.capturedAt + MOTION_PERIOD_MS
    ensures Touching(o, r.(world := v))
  {
  }

  lemma BeginKeepsTouching(o: Origin, r: Rig)
    requires Touching(o, r) && LoopEnabled(r, Section(MotionBegin))
    ensures Touching(o, r.(world := MotionBegun(r.world)))
  {
    var k: int :| 0 <= k <= 5000 && r.world.axis.m.previousCount == ReadingOf(o.offset, k);
    assert r.plant.count == 0;
    BeginShape(o, r.world, 0, k);
    BegunIsTouching(o, r, MotionBegun(r.world), (0 - k) as real / 0.01);
  }

  lemma SyncKeeps(o: Origin, r: Rig)
    requires (Seeking(o, r) || Touching(o, r)) && r.world.cycle.Begun?
    ensures KeepsPhase(o, r, r.(world := MotionSynced(r.world)))
  {
    var q := r.(world := MotionSynced(r.world));
    assert q.world == r.world.(cycle := q.world.cycle) && q.world.cycle.Open?;
    assert InHoming(o, q.world) && InTime(o, q.world);
    assert Seeking(o, r) ==> Seeking(o, q);
    assert Touching(o, r) ==> Touching(o, q);
  }

  /** What a command is during HOMING, unless it ends the attempt: refused, and a second HOME publishes. */
  predicate OnlyReceives(w: World, v: World) {
    && w.cycle.Open?
    && v == w.(cycle := w.cycle.(taken := w.cycle.taken + 1), published := v.published)
    && (v.published == w.published || v.published == w.axis.m.data)
  }

  lemma RefusedWhileHoming(w: World, c: Command)
    requires w.cycle.Open? && w.axis.m.data.state == Homing && w.safety.state == Idle
    requires c.kind != Stop && c.kind != EmergencyStop
    ensures OnlyReceives(w, MotionReceived(w, c)) && ReceivedResult(w, c).1 != Accepted
  {
  }

  lemma ReceivedWhileSeeking(o: Origin, r: Rig, v: World)
    requires Seeking(o, r) && OnlyReceives(r.world, v)
    ensures Seeking(o, r.(world := v))
  {
    assert OnTrajectory(o, r.(world := v)) && Driving(o, v) && Sampling(o, v) && Suspicion(o, v);
  }

  lemma ReceivedWhileTouching(o: Origin, r: Rig, v: World)
    requires Touching(o, r) && OnlyReceives(r.world, v)
    ensures Touching(o, r.(world := v))
  {
  }

  lemma ReceiveKeeps(o: Origin, r: Rig, c: Command)
    requires (Seeking(o, r) || Touching(o, r)) && LoopEnabled(r, Section(MotionReceive(c)))
    ensures KeepsPhase(o, r, r.(world := MotionReceived(r.world, c)))
  {
    RefusedWhileHoming(r.world, c);
    if Seeking(o, r) {
      ReceivedWhileSeeking(o, r, MotionReceived(r.world, c));
    }
    if Touching(o, r) {
      ReceivedWhileTouching(o, r, MotionReceived(r.world, c));
    }
  }

  lemma NotTimedOut(o: Origin, w: World)
    requires InHoming(o, w) && InTime(o, w) && !w.cycle.Resting? && SampleAge(o, w) <= LATEST_CONTACT + MOTION_PERIOD_MS
    ensures Elapsed(w.cycle.now, w.axis.m.data.homing.startedMs) < HOMING_TIMEOUT_MS
  {
    ElapsedIsTrueTime(o.at, w.clock);
  }

  lemma AgeOnTheWay(o: Origin, r: Rig)
    requires Seeking(o, r)
    ensures Age(o, r.world) < LATEST_CONTACT
  {
    assert 0.0 < Place(o.x, o.v, 0) < 5000.0;
    if Age(o, r.world) >= LATEST_CONTACT {
      ContactIsInevitable(o.x, o.v, Age(o, r.world));
    }
  }

  /** An update on the way sets the drive, publishes, and ends the cycle. */
  lemma FinishShape(o: Origin, r: Rig)
    requires Seeking(o, r) && r.world.cycle.Open?
    ensures var w := r.world;
            var a := HomingUpdated(w.axis, ReadPins(w.pins), w.cycle.now).0;
            MotionFinished(w) == w.(axis := a, published := a.m.data, cycle := Resting, first := false,
                                    previousMs := w.cycle.now)
    ensures var w := r.world;
            var a := HomingUpdated(w.axis, ReadPins(w.pins), w.cycle.now).0;
            a == w.axis.(gate := w.axis.gate.(output := HOMING_PWM, requested := HOMING_PWM),
                         m := w.axis.m.(data := a.m.data)) &&
            a.m.data == w.axis.m.data.(pwm := HOMING_PWM,
                                       homing := w.axis.m.data.homing.(elapsedMs := a.m.data.homing.elapsedMs))
  {
    var w := r.world;
    AgeOnTheWay(o, r);
    NotTimedOut(o, w);
    var (a, ok) := HomingUpdated(w.axis, ReadPins(w.pins), w.cycle.now);
    assert ok && HomingSettled(w.(axis := a), w.cycle.now) == w.(axis := a);
  }

  lemma FinishKeepsSeeking(o: Origin, r: Rig)
    requires Seeking(o, r) && r.world.cycle.Open?
    ensures Seeking(o, r.(world := MotionFinished(r.world)))
  {
    FinishShape(o, r);
    var v := MotionFinished(r.world);
    assert InHoming(o, v) && InTime(o, v) && OnTrajectory(o, r.(world := v));
    assert Driving(o, v) && Sampling(o, v) && Suspicion(o, v);
  }

  /** At rest on the switch right after HOME. */
  lemma ParkedEvaluation(w: World)
    requires w.safety.state == Idle && w.safety.homeContact && GateOk(w.axis.gate) && w.axis.gate.output == 0.0
    requires w.published.state == Idle && w.pins == Pins(true, Inputs(false, true, false)) && AllFresh(w.health, Now(w))
    ensures var v := EvaluatedWorld(w);
            && v == w.(axis := w.axis.(gate := v.axis.gate), safety := v.safety, aux := v.aux)
            && v.safety.state == Idle && v.axis.gate.output == 0.0
  {
    NoneStale(w.health, Now(w));
  }

  /** What contact makes of the axis. */
  lemma CompletionShape(a: Axis, now: Word)
    requires a.m.data.feedbackValid && a.m.data.state == Homing && a.encoder.initialized
    requires Elapsed(now, a.m.data.homing.startedMs) < HOMING_TIMEOUT_MS
    ensures var (b, ok) := HomingUpdated(a, Inputs(false, true, false), now);
            && ok && b.gate == Disabled(a.gate) && Logical(b.encoder) == 0
            && b.m.data.state == Idle && b.m.data.homing.result == HomeComplete && b.m.data.homing.referenced
            && b.m.data.homing.completed == Wrap(a.m.data.homing.completed + 1)
  {
    ReferenceRoundTrip(a.encoder, 0, 0);
  }

  /** What the runtime makes of a completed HOME. */
  lemma SettledShape(w: World, now: Word)
    requires w.axis.m.data.homing.result == HomeComplete && w.axis.m.data.state == Idle && w.axis.gate.output == 0.0
    requires w.safety.state == Idle && GateOk(w.axis.gate) && AllFresh(w.health, Now(w))
    requires w.pins == Pins(true, Inputs(false, true, false))
    ensures var u := HomingSettled(w, now);
            && u.axis == w.axis.(gate := u.axis.gate) && u.safety.state == Idle && u.axis.gate.output == 0.0
            && u.clock == w.clock
  {
    ParkedEvaluation(Published(w.(safety := w.safety.(homeContact := true),
                                  aux := w.aux.(contactRaw := w.axis.encoder.raw))));
  }

  /** The evaluation that the contact itself calls for. */
  lemma ContactEvaluation(o: Origin, r: Rig)
    requires Touching(o, r)
    ensures var w := r.world;
            var v := EvaluatedAndSynced(Published(w));
            && v.axis == w.axis.(gate := v.axis.gate) && GateOk(v.axis.gate) && v.safety.state == Idle
            && v.pins == w.pins == Pins(true, Inputs(false, true, false)) && v.health == w.health && v.clock == w.clock
  {
    assert r.plant.negativeLimit && !r.plant.positiveLimit;
    QuietEvaluationOfWorld(o, Published(r.world));
  }

  lemma ControlAtContact(w: World, now: Word, v: World, a: Axis)
    requires HomingInterrupt(w.pins) && v == EvaluatedAndSynced(Published(w)) && v.safety.state == Idle
    requires HomingUpdated(v.axis, ReadPins(w.pins), now) == (a, true)
    ensures HomingControl(w, now) == (HomingSettled(v.(axis := a), now), true)
  {
  }

  /** Complete and at rest, and the runtime has not been told yet. */
  predicate Completed(o: Origin, w: World, x: World) {
    var d := x.axis.m.data;
    && d.state == Idle && d.homing.result == HomeComplete && d.homing.referenced
    && d.homing.completed == Wrap(o.completed + 1) && Logical(x.axis.encoder) == 0
    && x.axis.gate.output == 0.0 && GateOk(x.axis.gate) && x.safety.state == Idle
    && x.pins == Pins(true, Inputs(false, true, false)) && AllFresh(x.health, Now(x)) && x.clock == w.clock
  }

  /** The axis after contact, wherever the gate has been left by the evaluation. */
  lemma ContactCompletes(o: Origin, w: World, v: World) returns (a: Axis)
    requires InHoming(o, w) && w.axis.encoder.initialized && w.cycle.Open?
    requires Elapsed(w.cycle.now, w.axis.m.data.homing.startedMs) < HOMING_TIMEOUT_MS
    requires v.axis == w.axis.(gate := v.axis.gate) && GateOk(v.axis.gate) && v.safety.state == Idle
    requires v.pins == w.pins == Pins(true, Inputs(false, true, false)) && v.health == w.health && v.clock == w.clock
    ensures HomingUpdated(v.axis, ReadPins(w.pins), w.cycle.now) == (a, true) && Completed(o, w, v.(axis := a))
  {
    CompletionShape(v.axis, w.cycle.now);
    a := HomingUpdated(v.axis, ReadPins(w.pins), w.cycle.now).0;
  }

  lemma ContactUpdate(o: Origin, r: Rig) returns (x: World)
    requires Touching(o, r) && r.world.cycle.Open?
    ensures HomingControl(r.world, r.world.cycle.now) == (HomingSettled(x, r.world.cycle.now), true)
    ensures Completed(o, r.world, x)
  {
    var w := r.world;
    NotTimedOut(o, w);
    ContactEvaluation(o, r);
    var v := EvaluatedAndSynced(Published(w));
    var a := ContactCompletes(o, w, v);
    ControlAtContact(w, w.cycle.now, v, a);
    x := v.(axis := a);
  }

  /** The first update after contact completes HOME. */
  lemma UpdateCompletes(o: Origin, r: Rig)
    requires Touching(o, r) && r.world.cycle.Open?
    ensures var (u, ok) := HomingControl(r.world, r.world.cycle.now);
            && ok && Homed(o, u) && u.clock == r.world.clock
  {
    var x := ContactUpdate(o, r);
    SettledShape(x, r.world.cycle.now);
  }

  lemma FinishCompletes(o: Origin, r: Rig)
    requires Touching(o, r) && r.world.cycle.Open?
    ensures Homed(o, MotionFinished(r.world))
  {
    UpdateCompletes(o, r);
  }

  /** In progress, or complete. */
  ghost predicate GoingWell(o: Origin, r: Rig) {
    Seeking(o, r) || Touching(o, r) || Homed(o, r.world)
  }

  lemma SectionKeeps(o: Origin, r: Rig, event: Event)
    requires (Seeking(o, r) || Touching(o, r)) && LoopEnabled(r, Section(event))
    ensures var q := LoopStep(r, Section(event));
            KeepsPhase(o, r, q) || (Touching(o, r) && !Seeking(o, r) && Homed(o, q.world))
  {
    OnePhase(o, r);
    match event
    case SafetyCycle => SafetyCycleKeeps(o, r);
    case Beat(task) => BeatKeeps(o, r, task);
    case MotionBegin =>
      if Seeking(o, r) {
        BeginKeepsSeeking(o, r);
      } else {
        BeginKeepsTouching(o, r);
      }
    case MotionSync => SyncKeeps(o, r);
    case MotionReceive(c) => ReceiveKeeps(o, r, c);
    case MotionFinish =>
      if Seeking(o, r) {
        FinishKeepsSeeking(o, r);
      } else {
        FinishCompletes(o, r);
      }
    case _ =>
  }

  lemma OnePhase(o: Origin, r: Rig)
    ensures Seeking(o, r) ==> !Touching(o, r)
  {
    if Seeking(o, r) {
      assert 0.0 < Place(o.x, o.v, Age(o, r.world)) < 5000.0;
    }
  }

  /** A trajectory whose peak is beyond the other stop comes to that stop before it comes to the switch. */
  lemma PeakComesFirst(o: Origin, r: Rig)
    requires Seeking(o, r) && Peak(o.x, o.v) >= 5000.0
    ensures Place(o.x, o.v, Age(o, r.world) + 1) > 0.0
  {
    var m := ReachesPeak(o.x, o.v);
    assert 0.0 < Place(o.x, o.v, 0) < 5000.0;
  }

  lemma TickOutcome(o: Origin, r: Rig)
    requires Seeking(o, r) && LoopEnabled(r, PlantTick)
    ensures var q := PlantTicked(r);
            if Peak(o.x, o.v) < 5000.0 then Seeking(o, q) || Touching(o, q) else Seeking(o, q) || Overrun(o, q)
  {
    var x := Place(o.x, o.v, Age(o, r.world) + 1);
    NeverPassesPeak(o.x, o.v, Age(o, r.world) + 1);
    if Peak(o.x, o.v) >= 5000.0 {
      PeakComesFirst(o, r);
    }
    if x >= 5000.0 {
      TickToOtherStop(o, r);
    } else if x <= 0.0 {
      TickToContact(o, r);
    } else {
      TickOnTheWay(o, r);
    }
  }

  lemma LoopKeeps(o: Origin, r: Rig, e: LoopEvent)
    requires (Seeking(o, r) || Touching(o, r)) && LoopEnabled(r, e)
    ensures var q := LoopStep(r, e);
            && (GoingWell(o, q) || (Overrun(o, q) && Peak(o.x, o.v) >= 5000.0))
            && (Seeking(o, r) && Peak(o.x, o.v) >= 5000.0 ==> Seeking(o, q) || Overrun(o, q))
  {
    match e
    case PlantTick =>
      if Seeking(o, r) {
        TickOutcome(o, r);
      } else {
        TickWhileTouching(o, r);
      }
    case Section(event) => SectionKeeps(o, r, event);
  }

  // HOME is accepted.

  /** Motion is about to take a HOME: idle, unlatched, with a good sample, the gate open or the axis parked. */
  predicate HomeReady(w: World, p: PlantState) {
    && PlantFine(p) && Connected(w, p) && !p.positiveLimit
    && w.cycle.Open? && w.cycle.taken < 2 && w.cycle.sampled && w.cycle.now == Now(w) && w.aux.capturedAt == w.clock
    && w.app == Idle && w.safety.state == Idle && w.axis.m.data.state == Idle
    && w.axis.m.data.feedbackValid && w.axis.m.sampled && w.axis.m.previousCount == Logical(w.axis.encoder)
    && GateOk(w.axis.gate) && (!w.axis.gate.inhibited || ParkedHome(w)) && AllFresh(w.health, Now(w))
  }

  const HOME_COMMAND := Command(Home, 0)

  function HomeStarted(w: World, p: PlantState): Rig
    requires w.cycle.Open?
  {
    Rig(MotionReceived(w, HOME_COMMAND), p)
  }

  function OriginOf(w: World, p: PlantState): Origin {
    Origin(w.clock, p.position, p.velocity, w.axis.encoder.offset, w.axis.m.data.homing.completed)
  }

  lemma HomeTakenShape(w: World, p: PlantState)
    requires HomeReady(w, p)
    ensures var u, o := HomeStarted(w, p).world, OriginOf(w, p);
            && ReceivedResult(w, HOME_COMMAND).1 == Accepted
            && InHoming(o, u) && InTime(o, u) && u.cycle.Open? && u.clock == w.clock && u.aux.capturedAt == w.clock
            && u.axis.encoder == w.axis.encoder && u.pins == w.pins && u.axis.m.previousCount == w.axis.m.previousCount
            && u.axis.gate.output == 0.0 && !u.safety.stall.candidate
            && (!p.negativeLimit ==> !u.axis.gate.inhibited && !u.axis.gate.negativeBlocked)
  {
    var o := OriginOf(w, p);
    var v := Published(w.(axis := HomingStarted(w.axis, Now(w))));
    var x := v.(aux := v.aux.(homeAt := w.clock));
    assert InHoming(o, x);
    QuietEvaluationOfWorld(o, x);
    assert ReceivedResult(w, HOME_COMMAND) == (EvaluatedWorld(x), Accepted);
  }

  /** An accepted HOME is on its way, or already there. */
  lemma HomeStartsWell(w: World, p: PlantState)
    requires HomeReady(w, p)
    ensures var o, r := OriginOf(w, p), HomeStarted(w, p); Seeking(o, r) || Touching(o, r)
  {
    var o, r := OriginOf(w, p), HomeStarted(w, p);
    HomeTakenShape(w, p);
    FirstSample(w, p);
    if p.negativeLimit {
      assert Connected(r.world, r.plant);
      assert Touching(o, r);
    } else {
      assert OnTrajectory(o, r) && Driving(o, r.world);
      assert Sampling(o, r.world) && Suspicion(o, r.world);
    }
  }

  lemma FirstSample(w: World, p: PlantState)
    requires HomeReady(w, p)
    ensures var o := OriginOf(w, p);
            0 <= CountAt(o, 0) <= 5000 && w.axis.m.previousCount == ReadingOf(o.offset, CountAt(o, 0))
  {
    assert w.axis.encoder == Encoder(true, Wrap(p.count), w.axis.encoder.offset);
    assert p.count == Round(p.position);
  }

  // Runs of the loop.

  ghost predicate LoopRun(rs: seq<Rig>, es: seq<LoopEvent>)
    requires ValidPlant(DEFAULT_PLANT)
  {
    && |rs| == |es| + 1
    && forall i | 0 <= i < |es| :: LoopEnabled(rs[i], es[i]) && rs[i + 1] == LoopStep(rs[i], es[i])
  }

  /** HOME beats its deadline. From any position in travel and any admissible velocity, provided only that
      the plant does not run into the other stop first: whatever the order of the sections, HOME is in
      progress with nothing latched, or it has completed, referenced at zero, with 4.6 s to spare. The
      supervisor never takes the reversal for a stalled axis. */
  lemma HomeBeatsDeadline(w: World, p: PlantState, rs: seq<Rig>, es: seq<LoopEvent>, n: nat)
    requires HomeReady(w, p) && Peak(p.position, p.velocity) < 5000.0
    requires LoopRun(rs, es) && rs[0] == HomeStarted(w, p) && n <= |es|
    ensures GoingWell(OriginOf(w, p), rs[n])
    ensures rs[n].world.safety.state == Idle && rs[n].world.clock - w.clock <= 35336 < HOMING_TIMEOUT_MS
    ensures rs[n].world.axis.m.data.state == Homing || Homed(OriginOf(w, p), rs[n].world)
  {
    var o := OriginOf(w, p);
    HomeStartsWell(w, p);
    for i := 0 to n
      invariant GoingWell(o, rs[i])
    {
      assert LoopEnabled(rs[i], es[i]);
      LoopKeeps(o, rs[i], es[i]);
    }
    if Seeking(o, rs[n]) {
      AgeOnTheWay(o, rs[n]);
    }
  }

  // The loop always goes on, to one end or the other.

  /** The next thing to do, with Safety evaluating every millisecond. */
  function Next(r: Rig): LoopEvent {
    var w := r.world;
    if w.cycle.Begun? then Section(MotionSync)
    else if w.cycle.Open? then Section(MotionFinish)
    else if w.clock >= w.aux.capturedAt + MOTION_PERIOD_MS then Section(MotionBegin)
    else if w.aux.evaluatedAt < w.clock then Section(SafetyCycle)
    else if Due(w, 0) then Section(Beat(0))
    else if Due(w, 1) then Section(Beat(1))
    else if Due(w, 2) then Section(Beat(2))
    else PlantTick
  }

  /** A task that must beat before the clock may go on. */
  predicate Due(w: World, task: nat)
    requires task < 3
  {
    !Fresh(w.health[task], Wrap(w.clock + 1))
  }

  /** The things to do before the clock may go on. */
  function Pending(r: Rig): nat {
    var w := r.world;
    (if w.cycle.Begun? then 2 else if w.cycle.Open? then 1
     else if w.clock >= w.aux.capturedAt + MOTION_PERIOD_MS then 3 else 0)
    + (if w.aux.evaluatedAt < w.clock then 1 else 0)
    + (if Due(w, 0) then 1 else 0) + (if Due(w, 1) then 1 else 0) + (if Due(w, 2) then 1 else 0)
  }

  lemma BeatIsFresh(h: Health, clock: nat)
    ensures Fresh(Beaten(h, Wrap(clock)), Wrap(clock + 1))
  {
    ElapsedIsTrueTime(clock, clock + 1);
  }

  lemma BeatSettles(r: Rig, task: nat)
    requires task < 3 && Due(r.world, task)
    ensures var q := r.(world := Step(r.world, Beat(task)));
            Pending(q) < Pending(r) && q.world.clock == r.world.clock
  {
    BeatIsFresh(r.world.health[task], r.world.clock);
  }

  lemma NextIsEnabled(o: Origin, r: Rig)
    requires Seeking(o, r) || Touching(o, r)
    ensures LoopEnabled(r, Next(r))
  {
  }

  lemma EvaluationSettles(r: Rig)
    requires r.world.aux.evaluatedAt < r.world.clock
    ensures var q := r.(world := SafetyCycled(r.world)); Pending(q) < Pending(r) && q.world.clock == r.world.clock
  {
  }

  /** What a cycle that begins leaves alone. */
  predicate BeginsOnly(w: World, v: World) {
    v.cycle.Begun? && v.clock == w.clock && v.health == w.health && v.aux == w.aux.(capturedAt := w.clock)
  }

  lemma BeginBegins(w: World)
    ensures BeginsOnly(w, MotionBegun(w))
  {
  }

  lemma BegunHasLess(r: Rig, v: World)
    requires r.world.cycle.Resting? && r.world.clock >= r.world.aux.capturedAt + MOTION_PERIOD_MS
    requires BeginsOnly(r.world, v)
    ensures Pending(r.(world := v)) < Pending(r)
  {
  }

  lemma BeginSettles(r: Rig)
    requires r.world.cycle.Resting? && r.world.clock >= r.world.aux.capturedAt + MOTION_PERIOD_MS
    ensures var q := r.(world := MotionBegun(r.world)); Pending(q) < Pending(r) && q.world.clock == r.world.clock
  {
    BeginBegins(r.world);
    BegunHasLess(r, MotionBegun(r.world));
  }

  lemma SyncShape(o: Origin, w: World)
    requires InHoming(o, w) && InTime(o, w) && w.cycle.Begun?
    ensures MotionSynced(w) == w.(cycle := Open(w.cycle.now, w.cycle.dt, true, 0))
  {
  }

  lemma SyncSettles(o: Origin, r: Rig)
    requires InHoming(o, r.world) && InTime(o, r.world) && r.world.cycle.Begun?
    ensures var q := r.(world := MotionSynced(r.world)); Pending(q) < Pending(r) && q.world.clock == r.world.clock
  {
    SyncShape(o, r.world);
  }

  lemma RestingHasLess(r: Rig, v: World)
    requires r.world.cycle.Open? && v.cycle.Resting? && v.clock == r.world.clock == r.world.aux.capturedAt
    requires v.aux == r.world.aux && v.health == r.world.health
    ensures Pending(r.(world := v)) < Pending(r)
  {
  }

  lemma FinishSettles(o: Origin, r: Rig)
    requires Seeking(o, r) && r.world.cycle.Open?
    ensures var q := r.(world := MotionFinished(r.world)); Pending(q) < Pending(r) && q.world.clock == r.world.clock
  {
    FinishShape(o, r);
    RestingHasLess(r, MotionFinished(r.world));
  }

  /** HOME completes, or the clock goes on, or there is less to do before it may. */
  lemma NextMakesProgress(o: Origin, r: Rig)
    requires Seeking(o, r) || Touching(o, r)
    ensures LoopEnabled(r, Next(r))
    ensures var q := LoopStep(r, Next(r));
            || Homed(o, q.world) || q.world.clock > r.world.clock
            || (q.world.clock == r.world.clock && Pending(q) < Pending(r))
  {
    NextIsEnabled(o, r);
    match Next(r)
    case PlantTick => TickShape(r);
    case Section(event) =>
      match event
      case Beat(task) => BeatSettles(r, task);
      case SafetyCycle => EvaluationSettles(r);
      case MotionBegin => BeginSettles(r);
      case MotionSync => SyncSettles(o, r);
      case MotionFinish =>
        if Seeking(o, r) {
          FinishSettles(o, r);
        } else {
          FinishCompletes(o, r);
        }
      case _ =>
  }

  lemma RunPrepends(r: Rig, e: LoopEvent, ps: seq<Rig>, fs: seq<LoopEvent>)
    requires LoopEnabled(r, e) && LoopRun(ps, fs) && ps[0] == LoopStep(r, e)
    ensures LoopRun([r] + ps, [e] + fs) && ([r] + ps)[|[e] + fs|] == ps[|fs|]
  {
  }

  /** One run from here to an end: HOME completes, or the plant comes to the other stop, and that last only
      if its peak was beyond it. */
  lemma RunsToAnEnd(o: Origin, r: Rig) returns (rs: seq<Rig>, es: seq<LoopEvent>)
    requires Seeking(o, r) || Touching(o, r)
    requires Peak(o.x, o.v) >= 5000.0 ==> Seeking(o, r)
    ensures LoopRun(rs, es) && rs[0] == r
    ensures if Peak(o.x, o.v) < 5000.0 then Homed(o, rs[|es|].world) else Overrun(o, rs[|es|])
    decreases o.at + LATEST_CONTACT + MOTION_PERIOD_MS - r.world.clock, Pending(r)
  {
    NextMakesProgress(o, r);
    var e := Next(r);
    var q := LoopStep(r, e);
    LoopKeeps(o, r, e);
    BoundedAge(o, r);
    if Homed(o, q.world) || Overrun(o, q) {
      rs, es := [r, q], [e];
    } else {
      BoundedAge(o, q);
      var ps, fs := RunsToAnEnd(o, q);
      RunPrepends(r, e, ps, fs);
      rs, es := [r] + ps, [e] + fs;
    }
  }

  lemma BoundedAge(o: Origin, r: Rig)
    requires Seeking(o, r) || Touching(o, r)
    ensures r.world.clock <= o.at + LATEST_CONTACT + MOTION_PERIOD_MS
  {
    if Seeking(o, r) {
      AgeOnTheWay(o, r);
    }
  }

  lemma OverrunLatches(o: Origin, r: Rig)
    requires Overrun(o, r)
    ensures LoopEnabled(r, Section(SafetyCycle))
    ensures var w := LoopStep(r, Section(SafetyCycle)).world;
            && w.safety.state == Fault && w.safety.faults.active.code != NoFault
            && w.axis.m.data.homing.result == HomeRunning
  {
  }

  /** HOME can always complete: wherever a run of the loop has got to, it goes on to completion, by the
      deadline, if it is not complete already. */
  lemma HomeCompletes(w: World, p: PlantState, rs: seq<Rig>, es: seq<LoopEvent>)
      returns (ps: seq<Rig>, fs: seq<LoopEvent>)
    requires HomeReady(w, p) && Peak(p.position, p.velocity) < 5000.0
    requires LoopRun(rs, es) && rs[0] == HomeStarted(w, p)
    ensures LoopRun(ps, fs) && ps[0] == rs[|es|] && Homed(OriginOf(w, p), ps[|fs|].world)
    ensures ps[|fs|].world.clock - w.clock <= 35336 < HOMING_TIMEOUT_MS
  {
    HomeBeatsDeadline(w, p, rs, es, |es|);
    ps, fs := [rs[|es|]], [];
    if !Homed(OriginOf(w, p), rs[|es|].world) {
      ps, fs := RunsToAnEnd(OriginOf(w, p), rs[|es|]);
    }
  }

  /** A plant on the switch cannot be fast enough to reach the other one. */
  lemma PeakBeyondStartsOff(w: World, p: PlantState)
    requires HomeReady(w, p) && Peak(p.position, p.velocity) >= 5000.0
    ensures Seeking(OriginOf(w, p), HomeStarted(w, p))
  {
    HomeStartsWell(w, p);
    PeakBound(p.position, p.velocity);
  }

  lemma RunExtends(rs: seq<Rig>, es: seq<LoopEvent>, e: LoopEvent, q: Rig)
    requires LoopRun(rs, es) && LoopEnabled(rs[|es|], e) && q == LoopStep(rs[|es|], e)
    ensures LoopRun(rs + [q], es + [e])
  {
  }

  /** Otherwise it need not: there is a run in which the supervisor latches before HOME is over. */
  lemma HomeCanFail(w: World, p: PlantState)
    requires HomeReady(w, p) && Peak(p.position, p.velocity) >= 5000.0
    ensures exists rs: seq<Rig>, es: seq<LoopEvent> ::
              LoopRun(rs, es) && rs[0] == HomeStarted(w, p) && rs[|es|].world.safety.state == Fault
  {
    PeakBeyondStartsOff(w, p);
    var rs, es := RunsToAnEnd(OriginOf(w, p), HomeStarted(w, p));
    OverrunLatches(OriginOf(w, p), rs[|es|]);
    var q := LoopStep(rs[|es|], Section(SafetyCycle));
    RunExtends(rs, es, Section(SafetyCycle), q);
    assert (rs + [q])[|es + [Section(SafetyCycle)]|] == q;
  }

  /** Every order of events lets HOME go through if and only if the plant's way out does not reach the other
      stop. */
  lemma HomeIsSafeExactly(w: World, p: PlantState)
    requires HomeReady(w, p)
    ensures Peak(p.position, p.velocity) < 5000.0 <==>
            forall rs: seq<Rig>, es: seq<LoopEvent> :: LoopRun(rs, es) && rs[0] == HomeStarted(w, p) ==>
                rs[|es|].world.safety.state == Idle
  {
    if Peak(p.position, p.velocity) < 5000.0 {
      forall rs: seq<Rig>, es: seq<LoopEvent> | LoopRun(rs, es) && rs[0] == HomeStarted(w, p)
        ensures rs[|es|].world.safety.state == Idle
      {
        HomeBeatsDeadline(w, p, rs, es, |es|);
      }
    } else {
      HomeCanFail(w, p);
    }
  }

  /** At rest, or moving towards the switch, HOME is safe from everywhere short of the other stop; moving
      away, a clearance of a quarter of the velocity is enough. */
  lemma ClearanceSuffices(w: World, p: PlantState)
    requires HomeReady(w, p) && p.position + 0.249 * (if p.velocity > 0.0 then p.velocity else 0.0) < 5000.0
    ensures forall rs: seq<Rig>, es: seq<LoopEvent> ::
              LoopRun(rs, es) && rs[0] == HomeStarted(w, p) ==> rs[|es|].world.safety.state == Idle
  {
    PeakBound(p.position, p.velocity);
    HomeIsSafeExactly(w, p);
  }
}
