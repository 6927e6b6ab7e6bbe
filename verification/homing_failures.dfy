/** The two ways in which HOME fails without any fault of plant or sensors, each shown in a reachable state. */
module HomingFailures {
  import opened Words
  import opened MotionControl
  import opened SafetyPolicy
  import opened RuntimeModel
  import opened PlantModel
  import opened HomingTrajectory
  import opened ClosedLoop
  import opened Startup
  import RuntimeHoming
  import RuntimeSafety

  // Away from the switch, towards the other stop.

  /** Thirty-five units from the positive stop and moving towards it, slower than the drive limit allows. */
  predicate Outbound(p: PlantState) {
    PlantFine(p) && p.position == 4965.0 && p.velocity == 390.0
  }

  /** Where the plant is while it coasts for up to 21 ms. */
  predicate StillOutbound(p: PlantState, n: nat) {
    && PlantFine(p)
    && 4965.0 <= p.position <= 4965.0 + 0.39 * n as real
    && 390.0 - 1.56 * n as real <= p.velocity <= 390.0
  }

  lemma OutboundCoasts(p: PlantState, n: nat)
    requires StillOutbound(p, n) && n <= 21
    ensures OffStops(p) && StillOutbound(PlantStepped(DEFAULT_PLANT, p, 0.0, false), n + 1)
  {
    CoastingStep(p);
  }

  lemma OutboundCoastsClear(p: PlantState) returns (ps: seq<PlantState>)
    requires Outbound(p)
    ensures CoastsClear(ps) && ps[0] == p && StillOutbound(ps[20], 20)
  {
    ps := [p];
    for n := 0 to 21
      invariant |ps| == n + 1 && ps[0] == p
      invariant forall i | 0 <= i <= n :: StillOutbound(ps[i], i)
      invariant forall i: nat | i < n :: CoastsAt(ps, i)
    {
      OutboundCoasts(ps[n], n);
      ps := CoastLonger(ps);
    }
    forall i | 0 <= i < 22
      ensures OffStops(ps[i])
    {
      OutboundCoasts(ps[i], i);
    }
  }

  lemma {:induction false} PlaceOrder(x: real, v: real, x': real, v': real, n: nat)
    requires x <= x' && v <= v'
    ensures Speed(v, n) <= Speed(v', n) && Place(x, v, n) <= Place(x', v', n)
  {
    if n > 0 {
      PlaceOrder(x, v, x', v', n - 1);
    }
  }

  /** In 300 steps less than a third is left. */
  lemma FadesToAThird()
    ensures FadesTo(300, 0.302)
  {
    FadingLadder();
    FadesTogether(256, 0.35890, 32, 0.87977, 0.31576);
    FadesTogether(288, 0.31576, 8, 0.96848, 0.30581);
    FadesTogether(296, 0.30581, 4, 0.98411, 0.302);
  }

  /** The homing drive does not turn such a plant around before the stop. */
  lemma OutboundPeaksBeyond(p: PlantState)
    requires StillOutbound(p, 20)
    ensures Peak(p.position, p.velocity) >= 5000.0
  {
    FadesToAThird();
    ExcessFades(358.0, 0, 300);
    assert Fading(Speed(358.0, 0) + 150.0, 300) <= 0.302 * 508.0;
    PotentialFalls(4965.0, 358.0, 300);
    PlaceOrder(4965.0, 358.0, p.position, p.velocity, 300);
    NeverPassesPeak(p.position, p.velocity, 300);
  }

  /** HOME fails there: from power-up while the plant coasts so there is a reachable state that accepts HOME,
      and a run of the closed loop from it in which the supervisor latches. */
  lemma OutboundHomeFails(p: PlantState) returns (w: World, q: PlantState, rs: seq<Rig>, es: seq<LoopEvent>)
    requires Outbound(p)
    ensures Reachable(w) && HomeReady(w, q) && 358.0 <= q.velocity <= 390.0
    ensures LoopRun(rs, es) && rs[0] == HomeStarted(w, q) && rs[|es|].world.safety.state == Fault
  {
    var ps := OutboundCoastsClear(p);
    q := ps[20];
    w := PowerUpReachesHome(ps);
    OutboundPeaksBeyond(q);
    HomeCanFail(w, q);
    rs, es :| LoopRun(rs, es) && rs[0] == HomeStarted(w, q) && rs[|es|].world.safety.state == Fault;
  }

  // Such a state of the plant is within its means.

  /** Velocity and travel after n steps at a duty of 0.8. */
  function UpSpeed(n: nat): real {
    if n == 0 then 0.0 else 0.996 * UpSpeed(n - 1) + 1.6
  }

  function UpWay(n: nat): real {
    if n == 0 then 0.0 else UpWay(n - 1) + 0.001 * UpSpeed(n)
  }

  /** The last step at full duty before 390 would be passed. */
  lemma LastFullStep() returns (n: nat)
    ensures 0.0 <= UpSpeed(n) < 390.0 <= UpSpeed(n + 1) && 0.0 <= UpWay(n) <= 4000.0
    ensures forall k: nat | k <= n :: 0.0 <= UpSpeed(k) < 390.0 && 0.0 <= UpWay(k) <= UpWay(n)
  {
    n := 0;
    while UpSpeed(n + 1) < 390.0
      invariant 0.04 * n as real <= UpSpeed(n) < 390.0 && UpWay(n) <= 0.39 * n as real
      invariant forall k: nat | k <= n :: 0.0 <= UpSpeed(k) < 390.0 && 0.0 <= UpWay(k) <= UpWay(n)
      decreases 9750 - n
    {
      n := n + 1;
    }
  }

  function FullDrive(p: PlantState, n: nat): PlantState
    requires ValidPlant(DEFAULT_PLANT)
  {
    if n == 0 then p else PlantStepped(DEFAULT_PLANT, FullDrive(p, n - 1), 0.8, false)
  }

  lemma {:induction false} FullDriveFollows(p: PlantState, n: nat, last: nat)
    requires PlantFine(p) && p.velocity == 0.0 && p.position > 0.0 && p.position + UpWay(last) < 5000.0 && n <= last
    requires forall k: nat | k <= last :: 0.0 <= UpSpeed(k) < 390.0 && 0.0 <= UpWay(k) <= UpWay(last)
    ensures var s := FullDrive(p, n); PlantFine(s) && s.velocity == UpSpeed(n) && s.position == p.position + UpWay(n)
  {
    if n > 0 {
      FullDriveFollows(p, n - 1, last);
      DrivenStep(FullDrive(p, n - 1), 0.8);
    }
  }

  /** Some duties from 0 to 0.8 bring the plant there from rest. (Not those of a default move: that does not
      throw the plant so far ahead of its target.) */
  lemma OutboundIsAttained() returns (ss: seq<PlantState>, ds: seq<Drive>)
    ensures ValidPlant(DEFAULT_PLANT) && PlantRun(DEFAULT_PLANT, ss, ds)
    ensures PlantFine(ss[0]) && ss[0].velocity == 0.0 && Outbound(ss[|ds|])
    ensures forall i | 0 <= i < |ds| :: 0.0 <= ds[i].pwm <= 0.8 && !ds[i].stalled
  {
    var n := LastFullStep();
    var start := 4965.0 - UpWay(n) - 0.39;
    var p := Placed(DEFAULT_PLANT, start);
    var duty := (390.0 - 0.996 * UpSpeed(n)) / 2.0;
    FullDriveFollows(p, n, n);
    DrivenStep(FullDrive(p, n), duty);
    var t := PlantStepped(DEFAULT_PLANT, FullDrive(p, n), duty, false);
    ss, ds := FullDriveRun(p, n, duty);
    assert t == ss[n + 1];
  }

  /** Full drive for n steps, and one more step with another duty. */
  lemma FullDriveRun(p: PlantState, n: nat, duty: real) returns (ss: seq<PlantState>, ds: seq<Drive>)
    requires ValidPlant(DEFAULT_PLANT)
    ensures PlantRun(DEFAULT_PLANT, ss, ds) && |ds| == n + 1 && ss[0] == p
    ensures ss[n + 1] == PlantStepped(DEFAULT_PLANT, FullDrive(p, n), duty, false)
    ensures forall i | 0 <= i < |ds| :: ds[i] == Drive(if i < n then 0.8 else duty, false)
  {
    ss := seq(n + 1, i requires 0 <= i <= n => FullDrive(p, i))
          + [PlantStepped(DEFAULT_PLANT, FullDrive(p, n), duty, false)];
    ds := seq(n, _ => Drive(0.8, false)) + [Drive(duty, false)];
  }

  // A tick between the capture of a cycle and its HOME.

  /** HOME taken in a state of startup, however old the capture of its cycle. */
  lemma HomeTakenWhileListening(w: World, p: PlantState)
    requires Listening(w, p) && w.clock > 0
    ensures var u := MotionReceived(w, HOME_COMMAND);
            var o := Origin(w.clock, p.position, p.velocity, 0, w.axis.m.data.homing.completed);
            && ReceivedResult(w, HOME_COMMAND).1 == Accepted && InHoming(o, u) && u.pins == w.pins
            && u.cycle == w.cycle.(taken := 1) && u.aux.homeAt == w.clock && u.aux.capturedAt == w.aux.capturedAt
  {
    var o := Origin(w.clock, p.position, p.velocity, 0, w.axis.m.data.homing.completed);
    var v := Published(w.(axis := HomingStarted(w.axis, Now(w))));
    var x := v.(aux := v.aux.(homeAt := w.clock));
    assert InHoming(o, x);
    QuietEvaluationOfWorld(o, x);
    assert ReceivedResult(w, HOME_COMMAND) == (EvaluatedWorld(x), Accepted);
  }

  /** An attempt accepted a millisecond after its cycle's capture. */
  predicate CapturedBefore(u: World) {
    && RuntimeHoming.Seeking(u) && u.pins == Pins(true, NO_INPUTS) && u.aux.capturedAt == u.aux.homeAt - 1
  }

  lemma CapturedBeforeTimesOut(u: World)
    requires Reachable(u) && CapturedBefore(u)
    ensures var v := MotionFinished(u);
            && v.safety.state == Fault && v.safety.faults.active.code == HomingTimeoutFault
            && v.axis.m.data.homing.result == HomeTimeout
  {
    RuntimeHoming.ReachableClock(u);
    YoungerThanItsHome(u);
    RuntimeHoming.UpdateOutcome(u);
  }

  lemma YoungerThanItsHome(u: World)
    requires CapturedBefore(u) && RuntimeSafety.Inv(u)
    ensures RuntimeHoming.OutcomeOf(u) == RuntimeHoming.TimedOut
  {
    assert RuntimeHoming.Age(u) == -1 && Wrap(-1) == WORD - 1;
  }

  lemma CaptureGetsOld(ps: seq<PlantState>) returns (w: World)
    requires CoastsClear(ps)
    ensures Reachable(w) && Listening(w, ps[21]) && w.clock == 21 && w.aux.capturedAt == 20
  {
    var before := StartupReaches(ps);
    assert CoastsAt(ps, 20);
    w := TickReaches(before, ps[20], ps[21]);
  }

  lemma LateHomeReaches(w: World, p: PlantState) returns (u: World)
    requires Reachable(w) && Listening(w, p) && w.clock == w.aux.capturedAt + 1
    ensures u == MotionReceived(w, HOME_COMMAND) && ReceivedResult(w, HOME_COMMAND).1 == Accepted
    ensures Reachable(u) && CapturedBefore(u) && u.clock == u.aux.homeAt
  {
    HomeTakenWhileListening(w, p);
    ReachableGoesOn(w, MotionReceive(HOME_COMMAND));
    u := MotionReceived(w, HOME_COMMAND);
  }

  /** A single millisecond between the capture and an accepted HOME, and its first update is a timeout:
      from power-up, through reachable states, with nothing else amiss. */
  lemma TickBeforeHomeTimesOut(ps: seq<PlantState>) returns (w: World, u: World, v: World)
    requires CoastsClear(ps)
    ensures Reachable(w) && w.cycle.Open? && w.clock == w.aux.capturedAt + 1
    ensures ReceivedResult(w, HOME_COMMAND).1 == Accepted
    ensures u == MotionReceived(w, HOME_COMMAND) && Reachable(u) && u.axis.m.data.state == Homing
    ensures u.clock == u.aux.homeAt
    ensures u.cycle.Open? && v == MotionFinished(u) && Reachable(v)
    ensures v.safety.state == Fault && v.safety.faults.active.code == HomingTimeoutFault
    ensures v.axis.m.data.homing.result == HomeTimeout
  {
    w := CaptureGetsOld(ps);
    u := LateHomeReaches(w, ps[21]);
    CapturedBeforeTimesOut(u);
    ReachableGoesOn(u, MotionFinish);
    v := MotionFinished(u);
  }
}
