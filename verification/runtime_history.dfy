/** The supervisor inside the runtime: every run of the runtime is a history of its operations, and what is
    proved of all histories holds of all runs. */
module RuntimeHistory {
  import opened Words
  import opened CommandTypes
  import opened Encoders
  import opened MotionControl
  import opened SafetyPolicy
  import opened SafetyRuns
  import opened RuntimeModel
  import opened RuntimeSafety
  import opened RuntimeRuns
  import opened RuntimeResponse

  // What each section does to the supervisor.

  function HomeAsked(w: World): World {
    Published(w.(axis := HomingStarted(w.axis, Now(w))))
  }

  function MoveAsked(w: World, c: Command): World {
    Published(w.(axis := Commanded(w.axis, c)))
  }

  function CommandOps(w: World, c: Command): seq<Op> {
    if c.kind == EmergencyStop then [StopNow(Now(w))]
    else if c.kind == Reset then
      if w.safety.state == Idle && w.axis.m.data.state != Idle then [] else [Observe(Observed(w)), Recover]
    else if w.safety.state == Idle && w.axis.m.data.state == Homing && c.kind == Stop then []
    else if (w.safety.state != Idle || w.axis.gate.inhibited) && !ParkedHome(w) then []
    else if c.kind == Home then
      if HomingStartResult(w.axis.m) == Accepted then [Observe(Observed(HomeAsked(w)))] else []
    else if w.axis.m.data.state == Homing then []
    else if w.safety.homeContact && (c.kind == MoveAbs || c.kind == MoveRel)
            && Destination(w.axis.m, c) > w.axis.m.data.position then [Observe(Observed(MoveAsked(w, c)))]
    else []
  }

  function Granted(w: World): World {
    Published(w.(safety := w.safety.(homeContact := true), aux := w.aux.(contactRaw := w.axis.encoder.raw)))
  }

  function SettleOps(w: World, now: Word): seq<Op> {
    match w.axis.m.data.homing.result
    case HomeTimeout => [TimeOutNow(now)]
    case HomeComplete => [GrantContact, Observe(Observed(Granted(w)))]
    case _ => []
  }

  function HomingOps(w: World, now: Word): seq<Op> {
    var first := if HomingInterrupt(w.pins) then [Observe(Observed(Published(w)))] else [];
    var v := if HomingInterrupt(w.pins) then EvaluatedAndSynced(Published(w)) else w;
    if HomingInterrupt(w.pins) && v.safety.state != Idle then first
    else
      var (a, ok) := HomingUpdated(v.axis, ReadPins(w.pins), now);
      if ok then first + SettleOps(v.(axis := a), now) else first
  }

  function ControlOps(w: World, now: Word): seq<Op> {
    if w.axis.m.data.state == Homing then HomingOps(w, now)
    else if w.safety.homeContact then [Observe(Observed(Published(w)))]
    else []
  }

  /** The operations of an update, and of its failure. */
  function UpdateOps(v: World, c: Cycle): seq<Op>
    requires c.Open?
  {
    if !c.sampled then [FailNow(c.now)]
    else ControlOps(v, c.now) + if ControlUpdated(v, c.dt, c.now).1 then [] else [FailNow(c.now)]
  }

  function FinishOps(w: World): seq<Op>
    requires w.cycle.Open?
  {
    UpdateOps(Synced(w), w.cycle)
  }

  /** The operations of one step; what it notes in the account comes last, since none of them reads it. */
  function SectionOps(w: World, e: Event): seq<Op>
    requires Enabled(w, e)
  {
    DecidingOps(w, e) + [Book(Step(w, e).safety.account)]
  }

  function DecidingOps(w: World, e: Event): seq<Op>
    requires Enabled(w, e)
  {
    match e
    case SafetyCycle => [Observe(Observed(w))]
    case MotionSync => if w.cycle.sampled then [] else [FailNow(w.cycle.now)]
    case MotionReceive(c) =>
      if c.kind == Status || c.kind == Help || w.app != Idle then [] else CommandOps(w, c)
    case MotionFinish => FinishOps(w)
    case _ => []
  }

  // They account for all that the step does.

  /** The same supervisor but for its account. */
  predicate Equivalent(s: Safety, t: Safety) {
    s == t.(account := s.account)
  }

  lemma AfterOne(s: Safety, a: Op)
    ensures After(s, [a]) == Apply(s, a)
  {
    assert [a][..0] == [];
  }

  lemma AfterTwo(s: Safety, a: Op, b: Op)
    ensures After(s, [a, b]) == Apply(Apply(s, a), b)
  {
    assert [a, b][..1] == [a];
    AfterOne(s, a);
  }

  lemma {:induction false} AfterBoth(s: Safety, a: seq<Op>, b: seq<Op>)
    ensures After(s, a + b) == After(After(s, a), b)
  {
    if b == [] {
      assert a + b == a;
    } else {
      var init := b[..|b| - 1];
      assert (a + b)[..|a + b| - 1] == a + init;
      AfterBoth(s, a, init);
    }
  }

  lemma ApplyEquivalent(s: Safety, t: Safety, op: Op)
    requires Equivalent(s, t)
    ensures Equivalent(Apply(s, op), Apply(t, op))
  {
  }

  lemma {:induction false} AfterEquivalent(s: Safety, t: Safety, ops: seq<Op>)
    requires Equivalent(s, t)
    ensures Equivalent(After(s, ops), After(t, ops))
  {
    if ops != [] {
      AfterEquivalent(s, t, ops[..|ops| - 1]);
      ApplyEquivalent(After(s, ops[..|ops| - 1]), After(t, ops[..|ops| - 1]), ops[|ops| - 1]);
    }
  }

  /** A part of a section that does these operations to the supervisor. */
  predicate Does(w: World, ops: seq<Op>, v: World) {
    Equivalent(After(w.safety, ops), v.safety)
  }

  lemma DoesBoth(w: World, a: seq<Op>, v: World, b: seq<Op>, u: World)
    requires Does(w, a, v) && Does(v, b, u)
    ensures Does(w, a + b, u)
  {
    AfterBoth(w.safety, a, b);
    AfterEquivalent(After(w.safety, a), v.safety, b);
  }

  lemma SyncDoes(w: World)
    ensures Does(w, [], Synced(w)) && Does(w, [], Enforced(w))
  {
  }

  lemma EvaluateDoes(w: World)
    ensures Does(w, [Observe(Observed(w))], EvaluatedWorld(w)) && Does(w, [Observe(Observed(w))], EvaluatedAndSynced(w))
    ensures Does(w, [], Synced(w)) && Does(w, [], Enforced(w))
  {
    AfterOne(w.safety, Observe(Observed(w)));
    SyncDoes(w);
    SyncDoes(w.(safety := Evaluated(w.safety, Observed(w)), aux := EvaluatedWorld(w).aux));
    SyncDoes(EvaluatedWorld(w));
  }

  lemma OneOpDoes(w: World, op: Op, v: World)
    requires Equivalent(Apply(w.safety, op), v.safety)
    ensures Does(w, [op], v)
  {
    AfterOne(w.safety, op);
  }

  lemma StopDoes(w: World)
    ensures Does(w, [StopNow(Now(w))], StopLatched(w))
  {
    EvaluateDoes(Enforced(w.(safety := Stopped(w.safety, Now(w)))));
    OneOpDoes(w, StopNow(Now(w)), StopLatched(w));
  }

  lemma ResetDoes(w: World)
    requires w.safety.state != Idle || w.axis.m.data.state == Idle
    ensures Does(w, [Observe(Observed(w)), Recover], ResetTaken(w).0)
  {
    var v := EvaluatedWorld(w);
    EvaluateDoes(w);
    AfterTwo(w.safety, Observe(Observed(w)), Recover);
    ApplyEquivalent(Apply(w.safety, Observe(Observed(w))), v.safety, Recover);
  }

  lemma HomeDoes(w: World)
    ensures Does(w, if HomingStartResult(w.axis.m) == Accepted then [Observe(Observed(HomeAsked(w)))] else [],
                 HomeTaken(w).0)
  {
    var x := HomeAsked(w).(aux := w.aux.(homeAt := w.clock));
    EvaluateDoes(x);
    assert Observed(x) == Observed(HomeAsked(w));
  }

  lemma DepartureDoes(w: World, c: Command)
    ensures Does(w, if Destination(w.axis.m, c) > w.axis.m.data.position
                    then [Observe(Observed(MoveAsked(w, c)))] else [],
                 DepartureTaken(w, c).0)
  {
    EvaluateDoes(MoveAsked(w, c));
  }

  lemma CommandDoes(w: World, c: Command)
    ensures Does(w, CommandOps(w, c), CommandTaken(w, c).0)
  {
    if c.kind == EmergencyStop {
      StopDoes(w);
    } else if c.kind == Reset {
      if w.safety.state != Idle || w.axis.m.data.state == Idle {
        ResetDoes(w);
      }
    } else if c.kind == Home {
      HomeDoes(w);
    } else {
      OrdinaryDoes(w, c);
    }
  }

  lemma OrdinaryDoes(w: World, c: Command)
    requires c.kind != EmergencyStop && c.kind != Reset && c.kind != Home
    ensures Does(w, CommandOps(w, c), CommandTaken(w, c).0)
  {
    if w.safety.homeContact && (c.kind == MoveAbs || c.kind == MoveRel) {
      DepartureDoes(w, c);
    } else {
      assert CommandOps(w, c) == [];
    }
  }

  lemma SettleDoes(w: World, now: Word)
    ensures Does(w, SettleOps(w, now), HomingSettled(w, now))
  {
    match w.axis.m.data.homing.result
    case HomeTimeout => TimeoutDoes(w, now);
    case HomeComplete => GrantDoes(w);
    case _ =>
  }

  lemma TimeoutDoes(w: World, now: Word)
    ensures Does(w, [TimeOutNow(now)], Synced(Enforced(w.(safety := HomingTimedOut(w.safety, now)))))
  {
    var v := Enforced(w.(safety := HomingTimedOut(w.safety, now)));
    EvaluateDoes(v);
    OneOpDoes(w, TimeOutNow(now), Synced(v));
  }

  lemma GrantDoes(w: World)
    ensures Does(w, [GrantContact, Observe(Observed(Granted(w)))], EvaluatedWorld(Granted(w)))
  {
    var o := Observe(Observed(Granted(w)));
    AfterTwo(w.safety, GrantContact, o);
    EvaluateDoes(Granted(w));
    AfterOne(Granted(w).safety, o);
  }

  lemma HomingDoes(w: World, now: Word)
    ensures Does(w, HomingOps(w, now), HomingControl(w, now).0)
  {
    EvaluateDoes(Published(w));
    var first := if HomingInterrupt(w.pins) then [Observe(Observed(Published(w)))] else [];
    var v := if HomingInterrupt(w.pins) then EvaluatedAndSynced(Published(w)) else w;
    assert Does(w, first, v);
    if !(HomingInterrupt(w.pins) && v.safety.state != Idle) {
      var (a, ok) := HomingUpdated(v.axis, ReadPins(w.pins), now);
      var x := v.(axis := a);
      if ok {
        SettleDoes(x, now);
        DoesBoth(w, first, x, SettleOps(x, now), HomingSettled(x, now));
      }
    }
  }

  lemma ControlDoes(w: World, dt: real, now: Word)
    ensures Does(w, ControlOps(w, now), ControlUpdated(w, dt, now).0)
  {
    if w.axis.m.data.state == Homing {
      HomingDoes(w, now);
    } else {
      EvaluateDoes(Published(w));
    }
  }

  lemma LostDoes(w: World, active: bool, now: Word)
    ensures Does(w, [FailNow(now)], UpdateLost(w, active, now))
  {
    var s := if active then MoreAborted(w.safety) else w.safety;
    EvaluateDoes(IntegrityLost(w.(safety := s), now));
    OneOpDoes(w, FailNow(now), UpdateLost(w, active, now));
  }

  lemma FinishDoes(w: World)
    requires w.cycle.Open?
    ensures Does(w, FinishOps(w), MotionFinished(w))
  {
    var v, c := Synced(w), w.cycle;
    EvaluateDoes(w);
    SettlesDoes(v, c);
    DoesBoth(w, [], v, UpdateOps(v, c), Settle(v, c));
    assert [] + UpdateOps(v, c) == UpdateOps(v, c);
  }

  lemma SettlesDoes(v: World, c: Cycle)
    requires c.Open?
    ensures Does(v, UpdateOps(v, c), Settle(v, c))
  {
    var active := Active(v.axis.m.data.state);
    if c.sampled {
      var (u, ok) := ControlUpdated(v, c.dt, c.now);
      ControlDoes(v, c.dt, c.now);
      LostDoes(u, active, c.now);
      DoesBoth(v, ControlOps(v, c.now), u, [FailNow(c.now)], UpdateLost(u, active, c.now));
      assert ControlOps(v, c.now) + [] == ControlOps(v, c.now);
    } else {
      LostDoes(v, active, c.now);
    }
  }

  lemma SyncSectionDoes(w: World)
    requires w.cycle.Begun?
    ensures Does(w, DecidingOps(w, MotionSync), MotionSynced(w))
  {
    var c := w.cycle;
    if c.sampled {
      EvaluateDoes(w);
    } else {
      EvaluateDoes(SampleLost(w, c.before, c.now));
      OneOpDoes(w, FailNow(c.now), SampleLost(w, c.before, c.now));
    }
  }

  lemma DecidingDoes(w: World, e: Event)
    requires Enabled(w, e)
    ensures Does(w, DecidingOps(w, e), Step(w, e))
  {
    match e
    case SafetyCycle => EvaluateDoes(w);
    case MotionSync => SyncSectionDoes(w);
    case MotionReceive(c) => CommandDoes(w, c);
    case MotionFinish => FinishDoes(w);
    case _ =>
  }

  /** The operations of a step turn the supervisor before it into the one after it. */
  lemma SectionIsOps(w: World, e: Event)
    requires Enabled(w, e)
    ensures After(w.safety, SectionOps(w, e)) == Step(w, e).safety
  {
    DecidingDoes(w, e);
    BookCloses(w.safety, DecidingOps(w, e), Step(w, e).safety);
  }

  lemma BookCloses(s: Safety, ops: seq<Op>, t: Safety)
    requires Equivalent(After(s, ops), t)
    ensures After(s, ops + [Book(t.account)]) == t
  {
    AfterBoth(s, ops, [Book(t.account)]);
    AfterOne(After(s, ops), Book(t.account));
  }

  // They are allowed.

  lemma AllowedBoth(s: Safety, a: seq<Op>, b: seq<Op>)
    requires AllAllowed(s, a) && AllAllowed(After(s, a), b)
    ensures AllAllowed(s, a + b)
  {
    forall i | 0 <= i < |a + b|
      ensures Allowed(After(s, (a + b)[..i]), (a + b)[i])
    {
      AllowedBothAt(s, a, b, i);
    }
  }

  lemma AllowedBothAt(s: Safety, a: seq<Op>, b: seq<Op>, i: nat)
    requires AllAllowed(s, a) && AllAllowed(After(s, a), b) && i < |a + b|
    ensures Allowed(After(s, (a + b)[..i]), (a + b)[i])
  {
    if i < |a| {
      assert (a + b)[..i] == a[..i];
    } else {
      AfterBoth(s, a, b[..i - |a|]);
      assert (a + b)[..i] == a + b[..i - |a|];
    }
  }

  lemma AllowedEquivalent(s: Safety, t: Safety, ops: seq<Op>)
    requires Equivalent(s, t) && AllAllowed(s, ops)
    ensures AllAllowed(t, ops)
  {
    forall i | 0 <= i < |ops|
      ensures Allowed(After(t, ops[..i]), ops[i])
    {
      AfterEquivalent(s, t, ops[..i]);
    }
  }

  predicate Grantless(ops: seq<Op>) {
    forall i | 0 <= i < |ops| :: !ops[i].GrantContact?
  }

  lemma GrantlessIsAllowed(s: Safety, ops: seq<Op>)
    requires Grantless(ops)
    ensures AllAllowed(s, ops)
  {
  }

  lemma SettleAllowed(w: World, now: Word)
    requires w.safety.state == Idle
    ensures AllAllowed(w.safety, SettleOps(w, now))
  {
    var ops := SettleOps(w, now);
    forall i | 0 <= i < |ops|
      ensures Allowed(After(w.safety, ops[..i]), ops[i])
    {
      assert ops[..0] == [];
    }
  }

  lemma HomingAllowed(w: World, now: Word)
    requires w.safety.state == Idle
    ensures AllAllowed(w.safety, HomingOps(w, now))
  {
    EvaluateDoes(Published(w));
    var first := if HomingInterrupt(w.pins) then [Observe(Observed(Published(w)))] else [];
    var v := if HomingInterrupt(w.pins) then EvaluatedAndSynced(Published(w)) else w;
    GrantlessIsAllowed(w.safety, first);
    if v.safety.state == Idle {
      var (a, ok) := HomingUpdated(v.axis, ReadPins(w.pins), now);
      SettleAllowed(v.(axis := a), now);
      assert Equivalent(v.safety, After(w.safety, first));
      AllowedEquivalent(v.safety, After(w.safety, first), SettleOps(v.(axis := a), now));
      AllowedBoth(w.safety, first, SettleOps(v.(axis := a), now));
    }
  }

  lemma UpdateAllowed(v: World, c: Cycle)
    requires c.Open? && (v.axis.m.data.state == Homing ==> v.safety.state == Idle)
    ensures AllAllowed(v.safety, UpdateOps(v, c))
  {
    var fail := [FailNow(c.now)];
    GrantlessIsAllowed(v.safety, fail);
    if c.sampled {
      var ops := ControlOps(v, c.now);
      if v.axis.m.data.state == Homing {
        HomingAllowed(v, c.now);
      } else {
        GrantlessIsAllowed(v.safety, ops);
      }
      GrantlessIsAllowed(After(v.safety, ops), fail);
      AllowedBoth(v.safety, ops, fail);
      assert ops + [] == ops;
    }
  }

  lemma FinishAllowed(w: World)
    requires w.cycle.Open?
    ensures AllAllowed(w.safety, FinishOps(w))
  {
    var v := Synced(w);
    UpdateAllowed(v, w.cycle);
    AllowedEquivalent(v.safety, w.safety, FinishOps(w));
  }

  lemma CommandGrantless(w: World, c: Command)
    ensures Grantless(CommandOps(w, c))
  {
  }

  lemma SectionIsAllowed(w: World, e: Event)
    requires Enabled(w, e)
    ensures AllAllowed(w.safety, SectionOps(w, e))
  {
    var ops, book := DecidingOps(w, e), [Book(Step(w, e).safety.account)];
    match e {
      case MotionReceive(c) =>
        CommandGrantless(w, c);
        GrantlessIsAllowed(w.safety, ops);
      case MotionFinish => FinishAllowed(w);
      case _ => GrantlessIsAllowed(w.safety, ops);
    }
    GrantlessIsAllowed(After(w.safety, ops), book);
    AllowedBoth(w.safety, ops, book);
  }

  // What they read.

  predicate ReadsClock(ops: seq<Op>, now: Word) {
    forall i | 0 <= i < |ops| :: ops[i].Observe? ==> ops[i].o.now == now
  }

  lemma HomingReadsClock(w: World, now: Word)
    ensures ReadsClock(HomingOps(w, now), Now(w))
  {
    var v := if HomingInterrupt(w.pins) then EvaluatedAndSynced(Published(w)) else w;
    assert v.clock == w.clock;
  }

  lemma CommandReadsClock(w: World, c: Command)
    ensures ReadsClock(CommandOps(w, c), Now(w))
  {
  }

  lemma FinishReadsClock(w: World)
    requires w.cycle.Open?
    ensures ReadsClock(FinishOps(w), Now(w))
  {
    HomingReadsClock(Synced(w), w.cycle.now);
  }

  lemma SectionReadsClock(w: World, e: Event)
    requires Enabled(w, e)
    ensures ReadsClock(SectionOps(w, e), Now(w))
  {
    match e
    case MotionReceive(c) => CommandReadsClock(w, c);
    case MotionFinish => FinishReadsClock(w);
    case _ =>
  }

  /** Evaluations of a latched supervisor see the counter as it stands. */
  lemma LatchedSectionObserves(w: World, e: Event)
    requires Inv(w) && Enabled(w, e) && w.safety.state != Idle
    ensures forall i | 0 <= i < |SectionOps(w, e)| && SectionOps(w, e)[i].Observe? ::
              SectionOps(w, e)[i].o.motion.position == Logical(w.axis.encoder)
  {
    match e
    case MotionReceive(c) => assert !ParkedHome(w);
    case MotionFinish =>
      var v := Synced(w);
      assert v.axis.m.data.state != Homing && !v.safety.homeContact;
      assert w.cycle.sampled ==> ControlOps(v, w.cycle.now) == [];
    case _ =>
  }

  // Runs are histories.

  function Timed(time: nat, ops: seq<Op>): (h: seq<TimedOp>)
    ensures |h| == |ops| && Ops(h) == ops && forall i | 0 <= i < |h| :: h[i].time == time
  {
    seq(|ops|, i requires 0 <= i < |ops| => TimedOp(time, ops[i]))
  }

  /** All the operations of the first n steps of a run, with their true times. */
  ghost function HistoryOf(ws: seq<World>, es: seq<Event>, n: nat): seq<TimedOp>
    requires Run(ws, es) && n <= |es|
  {
    if n == 0 then []
    else HistoryOf(ws, es, n - 1) + Timed(ws[n - 1].clock, SectionOps(ws[n - 1], es[n - 1]))
  }

  lemma StateAtPrefix(s: Safety, a: seq<TimedOp>, b: seq<TimedOp>, i: nat)
    requires i <= |a|
    ensures StateAt(s, a + b, i) == StateAt(s, a, i)
  {
    if i > 0 {
      StateAtPrefix(s, a, b, i - 1);
    }
  }

  predicate AllowedThroughout(s: Safety, h: seq<TimedOp>) {
    forall i: nat | i < |h| :: AllowedIn(s, h, i)
  }

  /** Times never go back, and every observation reads the wrapped time of its operation. */
  predicate Well(h: seq<TimedOp>, latest: nat) {
    Clocked(h) && forall i | 0 <= i < |h| :: h[i].time <= latest
  }

  /** A history that has brought the supervisor from s to t. */
  predicate Leads(s: Safety, h: seq<TimedOp>, t: Safety, latest: nat) {
    StateAt(s, h, |h|) == t && AllowedThroughout(s, h) && Well(h, latest)
  }

  lemma LeadsOn(s: Safety, h: seq<TimedOp>, t: Safety, x: TimedOp)
    requires Leads(s, h, t, x.time) && Allowed(t, x.op) && (x.op.Observe? ==> x.op.o.now == Wrap(x.time))
    ensures Leads(s, h + [x], Apply(t, x.op), x.time)
  {
    LastState(s, h, x);
    LastAllowed(s, h, x);
    LastWell(h, x);
  }

  lemma LastState(s: Safety, h: seq<TimedOp>, x: TimedOp)
    ensures StateAt(s, h + [x], |h| + 1) == Apply(StateAt(s, h, |h|), x.op)
  {
    StateAtPrefix(s, h, [x], |h|);
  }

  lemma AllowedAt(s: Safety, h: seq<TimedOp>, x: TimedOp, i: nat)
    requires i < |h| && AllowedIn(s, h, i)
    ensures AllowedIn(s, h + [x], i)
  {
    StateAtPrefix(s, h, [x], i);
  }

  lemma LastAllowed(s: Safety, h: seq<TimedOp>, x: TimedOp)
    requires AllowedThroughout(s, h) && Allowed(StateAt(s, h, |h|), x.op)
    ensures AllowedThroughout(s, h + [x])
  {
    forall i: nat | i < |h + [x]|
      ensures AllowedIn(s, h + [x], i)
    {
      if i < |h| {
        AllowedAt(s, h, x, i);
      } else {
        StateAtPrefix(s, h, [x], i);
      }
    }
  }

  lemma LastWell(h: seq<TimedOp>, x: TimedOp)
    requires Well(h, x.time) && (x.op.Observe? ==> x.op.o.now == Wrap(x.time))
    ensures Well(h + [x], x.time)
  {
  }

  /** A section of a history: allowed operations at one time. */
  lemma SectionLeads(s: Safety, h: seq<TimedOp>, t: Safety, time: nat, ops: seq<Op>)
    requires Leads(s, h, t, time) && AllAllowed(t, ops) && ReadsClock(ops, Wrap(time))
    ensures Leads(s, h + Timed(time, ops), After(t, ops), time)
  {
    if ops == [] {
      assert h + Timed(time, ops) == h;
    } else {
      var n := |ops| - 1;
      var init, last := ops[..n], TimedOp(time, ops[n]);
      AllowedInit(t, ops);
      SectionLeads(s, h, t, time, init);
      LeadsOn(s, h + Timed(time, init), After(t, init), last);
      TimedSplits(h, time, ops);
    }
  }

  lemma TimedSplits(h: seq<TimedOp>, time: nat, ops: seq<Op>)
    requires ops != []
    ensures var n := |ops| - 1; h + Timed(time, ops) == h + Timed(time, ops[..n]) + [TimedOp(time, ops[n])]
  {
  }

  lemma ClockNeverGoesBack(w: World, e: Event)
    requires Enabled(w, e)
    ensures Step(w, e).clock >= w.clock
  {
    match e
    case MotionReceive(c) => CommandLooks(w, c);
    case MotionFinish => FinishLooks(w);
    case _ =>
  }

  lemma Later(s: Safety, h: seq<TimedOp>, t: Safety, latest: nat, later: nat)
    requires Leads(s, h, t, latest) && latest <= later
    ensures Leads(s, h, t, later)
  {
  }

  /** After n steps the supervisor is where its history has taken it, and that is a history that the
      results on histories are about. */
  lemma RunIsHistory(ws: seq<World>, es: seq<Event>, n: nat)
    requires Run(ws, es) && n <= |es|
    ensures Leads(ws[0].safety, HistoryOf(ws, es, n), ws[n].safety, ws[n].clock)
  {
    if n > 0 {
      var w, e := ws[n - 1], es[n - 1];
      RunIsHistory(ws, es, n - 1);
      NextSection(ws[0].safety, HistoryOf(ws, es, n - 1), w, e);
    }
  }

  lemma NextSection(s: Safety, h: seq<TimedOp>, w: World, e: Event)
    requires Enabled(w, e) && Leads(s, h, w.safety, w.clock)
    ensures Leads(s, h + Timed(w.clock, SectionOps(w, e)), Step(w, e).safety, Step(w, e).clock)
  {
    SectionIsOps(w, e);
    SectionIsAllowed(w, e);
    SectionReadsClock(w, e);
    ClockNeverGoesBack(w, e);
    SectionLeads(s, h, w.safety, w.clock, SectionOps(w, e));
    Later(s, h + Timed(w.clock, SectionOps(w, e)), Step(w, e).safety, w.clock, Step(w, e).clock);
  }

  // What follows for runs.

  predicate NoMotionLatched(before: Faults, after: Faults) {
    before.active.code == NoFault && after.active.code == NoMotion
  }

  /** Operation k ends an unbroken run of qualifying evaluations that spans at least 500 ms of true time. */
  ghost predicate EndsALongRun(s: Safety, h: seq<TimedOp>, k: nat)
    requires k < |h|
  {
    exists j: nat | j <= k :: Unbroken(Marks(s, h), j, k) && h[k].time - h[j].time >= 500
  }

  /** The no-motion fault in the runtime: in every run, whatever it begins with but a suspicion, with
      evaluations less than 2^32 - 500 ms apart, each evaluation latches it if and only if it ends an unbroken
      run of qualifying evaluations that spans at least 500 ms of true time. */
  lemma NoMotionOverRuns(ws: seq<World>, es: seq<Event>, n: nat, k: nat)
    requires Run(ws, es) && n <= |es| && Inv(ws[0]) && !ws[0].safety.stall.candidate
    requires GapsBounded(HistoryOf(ws, es, n)) && k < |HistoryOf(ws, es, n)| && HistoryOf(ws, es, n)[k].op.Observe?
    ensures var s, h := ws[0].safety, HistoryOf(ws, es, n);
            NoMotionLatched(StateAt(s, h, k).faults, StateAt(s, h, k + 1).faults) <==> EndsALongRun(s, h, k)
  {
    RunIsHistory(ws, es, n);
    NoMotionIsExact(ws[0].safety, HistoryOf(ws, es, n), k);
  }

  /** A Safety cycle is one evaluation, the next of the history. */
  lemma SafetyCycleLatchesExactly(ws: seq<World>, es: seq<Event>, n: nat)
    requires Run(ws, es) && n < |es| && Inv(ws[0]) && !ws[0].safety.stall.candidate && es[n] == SafetyCycle
    requires GapsBounded(HistoryOf(ws, es, n + 1))
    ensures var s, h, k := ws[0].safety, HistoryOf(ws, es, n + 1), |HistoryOf(ws, es, n)|;
            && k < |h| && h[k].time == ws[n].clock
            && (NoMotionLatched(ws[n].safety.faults, ws[n + 1].safety.faults) <==> EndsALongRun(s, h, k))
  {
    SafetyCycleSection(ws, es, n);
    NoMotionOverRuns(ws, es, n + 1, |HistoryOf(ws, es, n)|);
    SafetyCycleStates(ws, es, n);
  }

  /** The evaluation of a Safety cycle, in the history: it finds the supervisor of the step before and leaves
      the faults of the step after. */
  lemma SafetyCycleStates(ws: seq<World>, es: seq<Event>, n: nat)
    requires Run(ws, es) && n < |es| && es[n] == SafetyCycle
    ensures var s, h, k := ws[0].safety, HistoryOf(ws, es, n + 1), |HistoryOf(ws, es, n)|;
            && k + 2 == |h| && StateAt(s, h, k) == ws[n].safety
            && StateAt(s, h, k + 1).faults == ws[n + 1].safety.faults
  {
    var s, a, h := ws[0].safety, HistoryOf(ws, es, n), HistoryOf(ws, es, n + 1);
    SafetyCycleSection(ws, es, n);
    RunIsHistory(ws, es, n);
    RunIsHistory(ws, es, n + 1);
    StateAtPrefix(s, a, h[|a|..], |a|);
    BookAtEnd(s, h);
  }

  lemma SafetyCycleSection(ws: seq<World>, es: seq<Event>, n: nat)
    requires Run(ws, es) && n < |es| && es[n] == SafetyCycle
    ensures var h, a := HistoryOf(ws, es, n + 1), HistoryOf(ws, es, n);
            && |h| == |a| + 2 && h == a + h[|a|..] && h[|a|].time == ws[n].clock
            && h[|a|].op.Observe? && h[|a| + 1].op.Book?
  {
    assert SectionOps(ws[n], SafetyCycle)[0].Observe?;
  }

  lemma BookAtEnd(s: Safety, h: seq<TimedOp>)
    requires h != [] && h[|h| - 1].op.Book?
    ensures StateAt(s, h, |h|).faults == StateAt(s, h, |h| - 1).faults
  {
  }

  /** Recovery from a no-motion trip in the runtime: over every run none of whose evaluations has seen trusted
      feedback two counts or more from where the trip happened, the latch stands with the gate closed. */
  lemma RecoveryNeedsSighting(ws: seq<World>, es: seq<Event>, n: nat)
    requires Run(ws, es) && n <= |es| && Inv(ws[0]) && ws[0].safety.stall.recoveryRequired
    requires forall i | 0 <= i < |HistoryOf(ws, es, n)| :: !Displaced(ws[0].safety, HistoryOf(ws, es, n)[i].op)
    ensures ws[n].safety.stall.recoveryRequired && ws[n].safety.state != Idle && !ResetAllowed(ws[n].safety)
    ensures ws[n].axis.gate.inhibited && ws[n].axis.gate.output == 0.0
  {
    var s, h := ws[0].safety, HistoryOf(ws, es, n);
    RunIsHistory(ws, es, n);
    HistoryIsAllowed(s, h);
    StateAtIsAfter(s, h, |h|);
    assert Ops(h)[..|h|] == Ops(h);
    RecoveryNeedsDisplacement(s, Ops(h));
    RunKeepsInv(ws, es, n);
  }

  lemma HistoryIsAllowed(s: Safety, h: seq<TimedOp>)
    requires AllowedThroughout(s, h)
    ensures AllAllowed(s, Ops(h))
  {
    forall i | 0 <= i < |h|
      ensures Allowed(After(s, Ops(h)[..i]), Ops(h)[i])
    {
      assert AllowedIn(s, h, i);
      StateAtIsAfter(s, h, i);
    }
  }

  predicate Near(w: World, position: Count) {
    -2 < Logical(w.axis.encoder) - position < 2
  }

  lemma AwaitingSection(w: World, e: Event)
    requires Inv(w) && Enabled(w, e) && w.safety.stall.recoveryRequired && Near(w, w.safety.stall.faultPosition)
    ensures var v := Step(w, e);
            v.safety.stall.recoveryRequired && v.safety.stall.faultPosition == w.safety.stall.faultPosition
  {
    var ops, position := SectionOps(w, e), w.safety.stall.faultPosition;
    SectionIsOps(w, e);
    SectionIsAllowed(w, e);
    LatchedSectionObserves(w, e);
    AwaitingOps(w.safety, ops, Logical(w.axis.encoder));
  }

  /** Operations that see one position, close to the trip, leave the supervisor waiting. */
  lemma {:induction false} AwaitingOps(s: Safety, ops: seq<Op>, position: Count)
    requires SafetyOk(s) && s.stall.recoveryRequired && AllAllowed(s, ops)
    requires -2 < position - s.stall.faultPosition < 2
    requires forall i | 0 <= i < |ops| && ops[i].Observe? :: ops[i].o.motion.position == position
    ensures AwaitsDisplacement(After(s, ops), s.stall.faultPosition)
  {
    if ops != [] {
      var init := ops[..|ops| - 1];
      AllowedInit(s, ops);
      AwaitingOps(s, init, position);
      AwaitingStep(After(s, init), ops[|ops| - 1]);
    }
  }

  /** So while the counter itself stays within one count of where the trip happened, nothing unlatches, the
      gate stays closed, and every RESET is refused. */
  lemma RecoveryNeedsMotion(ws: seq<World>, es: seq<Event>, n: nat)
    requires Run(ws, es) && n <= |es| && Inv(ws[0]) && ws[0].safety.stall.recoveryRequired
    requires forall k | 0 <= k <= n :: Near(ws[k], ws[0].safety.stall.faultPosition)
    ensures ws[n].safety.stall.recoveryRequired && ws[n].safety.state != Idle
    ensures ws[n].axis.gate.inhibited && ws[n].axis.gate.output == 0.0 && ResetTaken(ws[n]).1 == InvalidState
  {
    for k := 0 to n
      invariant Inv(ws[k]) && ws[k].safety.stall.recoveryRequired
      invariant ws[k].safety.stall.faultPosition == ws[0].safety.stall.faultPosition
    {
      StepKeepsInv(ws[k], es[k]);
      AwaitingSection(ws[k], es[k]);
    }
    ResetTakenIsExact(ws[n]);
  }
}
