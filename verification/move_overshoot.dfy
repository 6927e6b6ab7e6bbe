/** A default move on the default plant: controller and plant in closed loop, every millisecond of it. */
module MoveOvershoot {
  import opened Words
  import opened Floats
  import opened CommandTypes
  import opened PidControl
  import opened MotionControl
  import opened RuntimeModel
  import opened PlantModel
  import opened ClosedLoop
  import opened Startup
  import HomingFailures

  /** Where the plant would come to rest if the drive were cut now. */
  function Ahead(s: PlantState): real {
    s.position + 0.249 * s.velocity
  }

  /** How far the count is from the position. */
  function Rounding(s: PlantState): real {
    s.count as real - s.position
  }

  // One leg: the milliseconds between two updates, under one duty.

  ghost predicate Leg(ts: seq<PlantState>, u: real)
    requires ValidPlant(DEFAULT_PLANT)
  {
    && 1 <= |ts| <= 11
    && forall i: nat | i < |ts| - 1 :: LegStep(ts, i, u)
  }

  /** No switch is reached: that would end the move. */
  predicate LegStep(ts: seq<PlantState>, i: nat, u: real)
    requires ValidPlant(DEFAULT_PLANT) && i + 1 < |ts|
  {
    ts[i + 1] == PlantStepped(DEFAULT_PLANT, ts[i], u, false) && OffStops(ts[i + 1])
  }

  predicate Drivable(s: PlantState) {
    PlantFine(s) && -400.0 <= s.velocity <= 400.0
  }

  /** A step that reaches no stop. */
  lemma FreeStep(s: PlantState, u: real)
    requires Drivable(s) && -0.8 <= u <= 0.8 && OffStops(PlantStepped(DEFAULT_PLANT, s, u, false))
    ensures var t := PlantStepped(DEFAULT_PLANT, s, u, false);
            && Drivable(t) && t.velocity == 0.996 * s.velocity + 2.0 * u
            && t.position == s.position + 0.001 * t.velocity
  {
    DrivenStep(s, u);
  }

  /** Velocity and way after n free milliseconds under one duty. */
  function LegSpeed(v: real, u: real, n: nat): real
    decreases n
  {
    if n == 0 then v else 0.996 * LegSpeed(v, u, n - 1) + 2.0 * u
  }

  function LegWay(v: real, u: real, n: nat): real
    decreases n
  {
    if n == 0 then 0.0 else LegWay(v, u, n - 1) + 0.001 * LegSpeed(v, u, n)
  }

  /** How far the place ahead moves in n milliseconds. */
  function Gain(u: real, n: nat): real
    decreases n
  {
    if n == 0 then 0.0 else Gain(u, n - 1) + 0.5 * u
  }

  lemma LegMoves(ts: seq<PlantState>, u: real, n: nat)
    requires ValidPlant(DEFAULT_PLANT) && Leg(ts, u) && n < |ts| && Drivable(ts[0]) && -0.8 <= u <= 0.8
    ensures Drivable(ts[n]) && Ahead(ts[n]) == Ahead(ts[0]) + Gain(u, n)
    ensures ts[n].velocity == LegSpeed(ts[0].velocity, u, n)
    ensures ts[n].position == ts[0].position + LegWay(ts[0].velocity, u, n)
  {
    for i := 0 to n
      invariant Drivable(ts[i]) && Ahead(ts[i]) == Ahead(ts[0]) + Gain(u, i)
      invariant ts[i].velocity == LegSpeed(ts[0].velocity, u, i)
      invariant ts[i].position == ts[0].position + LegWay(ts[0].velocity, u, i)
    {
      assert LegStep(ts, i, u);
      FreeStep(ts[i], u);
    }
  }

  /** What the displacement of a whole leg tells of the velocity at its end, which the loop takes it for. */
  lemma LegEstimate(v: real, u: real)
    requires -400.0 <= v <= 400.0 && -0.8 <= u <= 0.8
    ensures -4.0 <= 25.0 * LegWay(v, u, 10) - 0.249 * LegSpeed(v, u, 10) <= 4.0
  {
  }

  lemma {:induction false} GainGrows(u: real, m: nat, n: nat)
    requires m <= n
    ensures u >= 0.0 ==> Gain(u, m) <= Gain(u, n)
    ensures u <= 0.0 ==> Gain(u, m) >= Gain(u, n)
  {
    if m < n {
      GainGrows(u, m, n - 1);
    }
  }

  lemma WholeGain(u: real)
    ensures Gain(u, 10) == 5.0 * u
  {
  }

  // The loop.

  const DT := Finite(0.01)

  /** Sample and update of a cycle that finds the plant in s. */
  function CycleAt(a: Axis, s: PlantState): Axis {
    MotionUpdated(Sampled(a.(encoder := a.encoder.(raw := Wrap(s.count))), DT), DT).0
  }

  /** A default move accepted with the plant at rest in s. */
  predicate AcceptedAtRest(a: Axis, s: PlantState) {
    && PlantFine(s) && s.velocity == 0.0 && a.m.data.state == Moving
    && a.m.pid == Pid(DEFAULT_CONFIG.pid, 0.0, s.count as real, true) && a.m.data.position == s.count
    && a.encoder.initialized && a.encoder.offset == 0
  }

  /** A move under way: the axis after each of its updates, and the legs that the plant makes of them, the
      last of them perhaps in the middle. The move has neither completed nor failed. */
  ghost predicate Travels(a: Axis, bs: seq<Axis>, legs: seq<seq<PlantState>>)
    requires ValidPlant(DEFAULT_PLANT)
  {
    && 0 < |bs| == |legs|
    && (forall k | 0 <= k < |bs| :: bs[k].m.data.state == Moving && Leg(legs[k], bs[k].gate.output))
    && bs[0] == MotionUpdated(a, DT).0
    && forall k: nat | k + 1 < |bs| :: FollowsOn(bs, legs, k)
  }

  ghost predicate FollowsOn(bs: seq<Axis>, legs: seq<seq<PlantState>>, k: nat)
    requires k + 1 < |bs| == |legs| && |legs[k + 1]| > 0
  {
    && |legs[k]| == 11 && legs[k + 1][0] == legs[k][10]
    && bs[k + 1] == CycleAt(bs[k], legs[k + 1][0])
  }

  /** What an update that keeps the move going makes of the axis. */
  lemma UpdateDrives(a: Axis)
    requires a.m.data.state == Moving && a.m.pid.config == DEFAULT_CONFIG.pid && PidOk(a.m.pid)
    requires MotionUpdated(a, DT).0.m.data.state == Moving
    ensures var b, t, x := MotionUpdated(a, DT).0, a.m.data.target as real, a.m.data.position as real;
            && b.gate.output == Output(a.m.pid, t, x, 0.01) && b.m.pid == Updated(a.m.pid, t, x, 0.01)
            && b.m.data.target == a.m.data.target && b.encoder == a.encoder
            && -0.8 <= b.gate.output <= 0.8 && PidOk(b.m.pid)
  {
    var m := Dwelled(a.m);
    assert m == a.m.(data := m.data) && m.data.target == a.m.data.target && m.data.position == a.m.data.position;
    DriveSets(a.(m := m));
    UpdateIsBounded(a.m.pid, a.m.data.target as real, a.m.data.position as real, 0.01);
  }

  lemma DriveSets(a: Axis)
    requires Driven(a, 0.01).1
    ensures var b, t, x := Driven(a, 0.01).0, a.m.data.target as real, a.m.data.position as real;
            && b.gate.output == Output(a.m.pid, t, x, 0.01) && b.m.pid == Updated(a.m.pid, t, x, 0.01)
            && b.m.data.target == a.m.data.target && b.encoder == a.encoder
  {
  }

  /** A sample that keeps the move going delivers the plant's count. */
  lemma SampleDelivers(a: Axis, s: PlantState)
    requires a.encoder.initialized && a.encoder.offset == 0 && OffStops(s)
    requires Sampled(a.(encoder := a.encoder.(raw := Wrap(s.count))), DT).m.data.state == Moving
    ensures var b := Sampled(a.(encoder := a.encoder.(raw := Wrap(s.count))), DT);
            && b.m.data.position == s.count && b.m.pid == a.m.pid && b.m.data.target == a.m.data.target
            && b.encoder.initialized && b.encoder.offset == 0
  {
    CountOffStops(s);
    SignedBitsInverse(s.count);
  }

  lemma OnlyMovingKeepsMoving(a: Axis)
    ensures MotionUpdated(a, DT).0.m.data.state == Moving ==> a.m.data.state == Moving
  {
  }

  // The bound.

  /** Seen in the direction of the move, or against it. */
  function Signed(up: bool, x: real): real {
    if up then x else -x
  }

  /** One update in scalars: p is how far ahead of the target the plant is, e the error of the velocity
      estimate, q and q' the roundings of the two counts, i the integral. */
  lemma UpdateBound(p: real, e: real, q: real, q': real, i: real, u: real, b: real)
    requires p + 0.75 * q <= b && b >= 5.71 && e >= -4.0 && i <= 0.005
    requires -0.5 <= q <= 0.5 && -0.5 <= q' <= 0.5
    requires u == Clamp(i - 0.006 * (p + e + 26.0 * q' - 25.0 * q), -0.8, 0.8)
    ensures p + 5.0 * u + 0.75 * q' <= b
  {
  }

  /** The same for both directions. */
  lemma UpdateBounds(up: bool, p: real, e: real, q: real, q': real, i: real, u: real, b: real)
    requires Signed(up, p + 0.75 * q) <= b && b >= 5.71 && -4.0 <= e <= 4.0 && -0.005 <= i <= 0.005
    requires -0.5 <= q <= 0.5 && -0.5 <= q' <= 0.5
    requires u == Clamp(i - 0.006 * (p + e + 26.0 * q' - 25.0 * q), -0.8, 0.8)
    ensures Signed(up, p + 5.0 * u + 0.75 * q') <= b
  {
    if up {
      UpdateBound(p, e, q, q', i, u, b);
    } else {
      UpdateBound(-p, -e, -q, -q', -i, -u, b);
    }
  }

  /** Neither the plant nor the place it would coast to is beyond the target by more than b and a rounding. */
  predicate Short(up: bool, target: Count, s: PlantState, b: real) {
    Signed(up, s.position - target as real) <= b + 0.375 && Signed(up, Ahead(s) - target as real) <= b + 0.375
  }

  /** After an update: what the leg that follows will keep. */
  predicate Held(up: bool, a: Axis, s: PlantState, b: real) {
    && Drivable(s) && Short(up, a.m.data.target, s, b)
    && a.m.pid.config == DEFAULT_CONFIG.pid && PidOk(a.m.pid) && a.m.pid.sampled
    && a.m.pid.previousMeasurement == s.count as real
    && a.encoder.initialized && a.encoder.offset == 0 && -0.8 <= a.gate.output <= 0.8
    && Signed(up, Ahead(s) - a.m.data.target as real + 5.0 * a.gate.output + 0.75 * Rounding(s)) <= b
  }

  lemma RoundingIsSmall(s: PlantState)
    requires PlantFine(s)
    ensures -0.5 <= Rounding(s) <= 0.5
  {
    assert s.count == Round(s.position);
  }

  /** The plant does not get past the bound within a leg. */
  lemma LegStaysShort(up: bool, a: Axis, ts: seq<PlantState>, n: nat, b: real)
    requires ValidPlant(DEFAULT_PLANT) && Leg(ts, a.gate.output) && n < |ts| && Held(up, a, ts[0], b)
    ensures Drivable(ts[n]) && Short(up, a.m.data.target, ts[n], b)
  {
    var u, target := a.gate.output, a.m.data.target;
    RoundingIsSmall(ts[0]);
    for i := 0 to n
      invariant Drivable(ts[i]) && Short(up, target, ts[i], b)
    {
      LegMoves(ts, u, i);
      Between(up, Ahead(ts[0]) - target as real, u, i + 1, b + 0.375);
      assert LegStep(ts, i, u);
      FreeStep(ts[i], u);
    }
  }

  lemma Between(up: bool, p: real, u: real, i: nat, b: real)
    requires Signed(up, p) <= b && Signed(up, p + 5.0 * u) <= b && i <= 10
    ensures Signed(up, p + Gain(u, i)) <= b
  {
    WholeGain(u);
    GainGrows(u, 0, i);
    GainGrows(u, i, 10);
  }

  /** The loop's output in the terms of the bound. */
  lemma OutputInScalars(p: Pid, target: Count, s: PlantState, x: real, q: real)
    requires p.config == DEFAULT_CONFIG.pid && p.sampled && p.previousMeasurement == x + q
    ensures var i := Integral(p, (target - s.count) as real, 0.01);
            var e := 25.0 * (s.position - x) - 0.249 * s.velocity;
            Output(p, target as real, s.count as real, 0.01)
            == Clamp(i - 0.006 * (Ahead(s) - target as real + e + 26.0 * Rounding(s) - 25.0 * q), -0.8, 0.8)
  {
    var i := Integral(p, (target - s.count) as real, 0.01);
    assert Derivative(p, s.count as real, 0.01) == -100.0 * (s.count as real - x - q);
  }

  /** An update keeps the bound. */
  lemma UpdateHolds(up: bool, a: Axis, s: PlantState, x: real, q: real, b: real)
    requires Drivable(s) && Short(up, a.m.data.target, s, b) && a.m.data.state == Moving && b >= 5.71
    requires a.m.data.position == s.count && a.encoder.initialized && a.encoder.offset == 0
    requires a.m.pid.config == DEFAULT_CONFIG.pid && PidOk(a.m.pid) && a.m.pid.sampled
    requires a.m.pid.previousMeasurement == x + q && -0.5 <= q <= 0.5
    requires -4.0 <= 25.0 * (s.position - x) - 0.249 * s.velocity <= 4.0
    requires Signed(up, Ahead(s) - a.m.data.target as real + 0.75 * q) <= b
    requires MotionUpdated(a, DT).0.m.data.state == Moving
    ensures Held(up, MotionUpdated(a, DT).0, s, b) && MotionUpdated(a, DT).0.m.data.target == a.m.data.target
  {
    var t := a.m.data.target;
    var z, i := MotionUpdated(a, DT).0, Integral(a.m.pid, (t - s.count) as real, 0.01);
    UpdateDrives(a);
    OutputInScalars(a.m.pid, t, s, x, q);
    RoundingIsSmall(s);
    UpdateBounds(up, Ahead(s) - t as real, 25.0 * (s.position - x) - 0.249 * s.velocity, q, Rounding(s), i,
                 z.gate.output, b);
  }

  /** What a move may use of its side: 5.71, or where it started if that is more. */
  predicate Allows(up: bool, target: Count, s: PlantState, b: real) {
    b >= 5.71 && Signed(up, s.position - target as real) + 0.375 <= b
  }

  lemma FirstHolds(up: bool, a: Axis, s: PlantState, b: real)
    requires AcceptedAtRest(a, s) && Allows(up, a.m.data.target, s, b)
    requires MotionUpdated(a, DT).0.m.data.state == Moving
    ensures Held(up, MotionUpdated(a, DT).0, s, b) && MotionUpdated(a, DT).0.m.data.target == a.m.data.target
  {
    RoundingIsSmall(s);
    UpdateHolds(up, a, s, s.position, Rounding(s), b);
  }

  lemma NextHolds(up: bool, a: Axis, ts: seq<PlantState>, b: real)
    requires ValidPlant(DEFAULT_PLANT) && Leg(ts, a.gate.output) && |ts| == 11 && Held(up, a, ts[0], b) && b >= 5.71
    requires CycleAt(a, ts[10]).m.data.state == Moving
    ensures Held(up, CycleAt(a, ts[10]), ts[10], b) && CycleAt(a, ts[10]).m.data.target == a.m.data.target
  {
    var sampled := Sampled(a.(encoder := a.encoder.(raw := Wrap(ts[10].count))), DT);
    OnlyMovingKeepsMoving(sampled);
    assert LegStep(ts, 9, a.gate.output);
    SampleDelivers(a, ts[10]);
    LegStaysShort(up, a, ts, 10, b);
    LegMoves(ts, a.gate.output, 10);
    LegEstimate(ts[0].velocity, a.gate.output);
    WholeGain(a.gate.output);
    RoundingIsSmall(ts[0]);
    UpdateHolds(up, sampled, ts[10], ts[0].position, Rounding(ts[0]), b);
  }

  lemma EveryUpdateHolds(up: bool, a: Axis, bs: seq<Axis>, legs: seq<seq<PlantState>>, n: nat, b: real)
    requires ValidPlant(DEFAULT_PLANT) && Travels(a, bs, legs) && AcceptedAtRest(a, legs[0][0]) && n < |bs|
    requires Allows(up, a.m.data.target, legs[0][0], b)
    ensures Held(up, bs[n], legs[n][0], b) && bs[n].m.data.target == a.m.data.target
  {
    FirstHolds(up, a, legs[0][0], b);
    for k := 0 to n
      invariant Held(up, bs[k], legs[k][0], b) && bs[k].m.data.target == a.m.data.target
    {
      assert FollowsOn(bs, legs, k);
      NextHolds(up, bs[k], legs[k], b);
    }
  }

  lemma StaysShort(up: bool, a: Axis, bs: seq<Axis>, legs: seq<seq<PlantState>>, k: nat, i: nat, b: real)
    requires ValidPlant(DEFAULT_PLANT) && Travels(a, bs, legs) && AcceptedAtRest(a, legs[0][0])
    requires Allows(up, a.m.data.target, legs[0][0], b) && k < |legs| && i < |legs[k]|
    ensures Drivable(legs[k][i]) && Short(up, a.m.data.target, legs[k][i], b)
  {
    EveryUpdateHolds(up, a, bs, legs, k, b);
    LegStaysShort(up, bs[k], legs[k], i, b);
  }

  function Max(x: real, y: real): real {
    if x >= y then x else y
  }

  function Min(x: real, y: real): real {
    if x <= y then x else y
  }

  /** A place between where a move began and its target, give or take the overshoot. */
  predicate OnTheWay(x: real, start: real, target: Count) {
    Min(start - 0.75, target as real - 6.1) <= x <= Max(start + 0.75, target as real + 6.1)
  }

  /** A default move hardly overshoots. From rest anywhere to any target: at every millisecond the plant is
      between where it began and 6.1 counts past the target, quantised counts and sampled velocity included;
      and so is the place that it would coast to if the move were cut there. */
  lemma OvershootIsBounded(a: Axis, bs: seq<Axis>, legs: seq<seq<PlantState>>, k: nat, i: nat)
    requires ValidPlant(DEFAULT_PLANT) && Travels(a, bs, legs) && AcceptedAtRest(a, legs[0][0])
    requires k < |legs| && i < |legs[k]|
    ensures Drivable(legs[k][i])
    ensures OnTheWay(legs[k][i].position, legs[0][0].position, a.m.data.target)
    ensures OnTheWay(Ahead(legs[k][i]), legs[0][0].position, a.m.data.target)
  {
    var x, t := legs[0][0].position, a.m.data.target as real;
    StaysShort(true, a, bs, legs, k, i, Max(5.71, x - t + 0.375));
    StaysShort(false, a, bs, legs, k, i, Max(5.71, t - x + 0.375));
  }

  /** A move that the runtime accepts right after startup, with the plant at rest, is such a move. */
  lemma RuntimeAcceptance(w: World, s: PlantState, c: Command)
    requires Listening(w, s) && OffStops(s) && s.velocity == 0.0 && (c.kind == MoveAbs || c.kind == MoveRel)
    requires w.axis.m.data.position == ReadingOf(0, s.count) && w.axis.m.pid.config == DEFAULT_CONFIG.pid
    requires w.cycle.taken < 2 && ReceivedResult(w, c).1 == Accepted
    ensures AcceptedAtRest(MotionReceived(w, c).axis, s)
    ensures MotionReceived(w, c).axis.m.data.target ==
            if c.kind == MoveRel then w.axis.m.data.position + c.value else c.value
  {
    CountOffStops(s);
    SignedBitsInverse(s.count);
  }

  /** One uninterrupted cycle of the runtime is such a cycle. */
  lemma RuntimeCycle(w: World, s: PlantState)
    requires w.cycle.Resting? && Gap(w) == MOTION_PERIOD_MS && w.app == Idle
    requires w.safety.state == Idle && !w.safety.homeContact && w.axis.m.data.state == Moving
    requires w.axis.encoder.raw == Wrap(s.count) && CycleAt(w.axis, s).m.data.state == Moving
    ensures MotionFinished(MotionSynced(MotionBegun(w))).axis == CycleAt(w.axis, s)
  {
    var sampled := Sampled(w.axis, DT);
    assert MOTION_PERIOD_MS as real / 1000.0 == 0.01;
    assert w.axis.(encoder := w.axis.encoder.(raw := Wrap(s.count))) == w.axis;
    OnlyMovingKeepsMoving(sampled);
  }

  // HOME after a move.

  /** The drive is cut, and no switch is reached. */
  ghost predicate Coasting(cs: seq<PlantState>)
    requires ValidPlant(DEFAULT_PLANT)
  {
    |cs| > 0 && forall i: nat | i < |cs| - 1 :: LegStep(cs, i, 0.0)
  }

  lemma CoastKeepsAhead(cs: seq<PlantState>, n: nat)
    requires ValidPlant(DEFAULT_PLANT) && Coasting(cs) && n < |cs| && Drivable(cs[0])
    ensures Drivable(cs[n]) && Ahead(cs[n]) == Ahead(cs[0])
  {
    for i := 0 to n
      invariant Drivable(cs[i]) && Ahead(cs[i]) == Ahead(cs[0])
    {
      assert LegStep(cs, i, 0.0);
      FreeStep(cs[i], 0.0);
    }
  }

  /** A default move from rest, cut at any moment, by STOP, by a latch or by its completion, and then any time
      without drive: if start and target were 7 counts short of the positive stop, then HOME, whenever it is
      accepted, goes through in every order of events. */
  lemma HomeIsSafeAfterAMove(a: Axis, bs: seq<Axis>, legs: seq<seq<PlantState>>, k: nat, i: nat,
                             cs: seq<PlantState>, n: nat, w: World)
    requires ValidPlant(DEFAULT_PLANT) && Travels(a, bs, legs) && AcceptedAtRest(a, legs[0][0])
    requires a.m.data.target <= 4993 && legs[0][0].position <= 4993.0
    requires k < |legs| && i < |legs[k]| && Coasting(cs) && cs[0] == legs[k][i] && n < |cs|
    requires HomeReady(w, cs[n])
    ensures forall rs: seq<Rig>, es: seq<LoopEvent> ::
              LoopRun(rs, es) && rs[0] == HomeStarted(w, cs[n]) ==> rs[|es|].world.safety.state == Idle
  {
    OvershootIsBounded(a, bs, legs, k, i);
    CoastKeepsAhead(cs, n);
    assert cs[n].position < 5000.0;
    ClearanceSuffices(w, cs[n]);
  }

  /** So the start from which HOME is shown to fail is none that a default move from rest leaves. */
  lemma OutboundIsNoMove(a: Axis, bs: seq<Axis>, legs: seq<seq<PlantState>>, k: nat, i: nat)
    requires ValidPlant(DEFAULT_PLANT) && Travels(a, bs, legs) && AcceptedAtRest(a, legs[0][0])
    requires a.m.data.target <= 5000 && k < |legs| && i < |legs[k]|
    ensures !HomingFailures.Outbound(legs[k][i])
  {
    OvershootIsBounded(a, bs, legs, k, i);
  }
}
