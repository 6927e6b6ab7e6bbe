/** The supervisor over whole histories: latches, first-fault retention, recovery, and the no-motion
    fault against true time. */
module SafetyRuns {
  import opened Words
  import opened MotionControl
  import opened SafetyPolicy
  import opened SafetyRules

  /** Everything the rest of the firmware ever does to the supervisor. */
  datatype Op =
    | Observe(o: Observation)
    | StopNow(now: Word)
    | FailNow(now: Word)
    | TimeOutNow(now: Word)
    | Recover
    | GrantContact
    | Book(account: Account)

  /** HOME grants the contact allowance to an unlatched supervisor only. */
  predicate Allowed(s: Safety, op: Op) {
    op.GrantContact? ==> s.state == Idle
  }

  function Apply(s: Safety, op: Op): Safety {
    match op
    case Observe(o) => Evaluated(s, o)
    case StopNow(now) => Stopped(s, now)
    case FailNow(now) => InternalFailed(s, now)
    case TimeOutNow(now) => HomingTimedOut(s, now)
    case Recover => Recovered(s)
    case GrantContact => s.(homeContact := true)
    case Book(account) => s.(account := account)
  }

  function After(s: Safety, ops: seq<Op>): Safety {
    if ops == [] then s else Apply(After(s, ops[..|ops| - 1]), ops[|ops| - 1])
  }

  predicate AllAllowed(s: Safety, ops: seq<Op>) {
    forall i | 0 <= i < |ops| :: Allowed(After(s, ops[..i]), ops[i])
  }

  predicate Recovers(s: Safety, op: Op) {
    op.Recover? && ResetAllowed(s)
  }

  /** The records agree with the latch. */
  predicate SafetyOk(s: Safety) {
    && (s.state == Idle ==> s.faults.active.code == NoFault)
    && (s.state == Fault ==> s.faults.active.code != NoFault)
    && (s.faults.active.code == NoFault ==> !s.faults.active.conditionActive)
    && (s.internalActive || s.stall.recoveryRequired ==> s.state != Idle)
    && (s.homeContact ==> s.state == Idle)
  }

  /** What one operation may do to the latch and to the retained fault. */
  predicate LatchStep(s: Safety, op: Op, t: Safety) {
    && (s.state == Estop ==> t.state == Estop || Recovers(s, op))
    && (s.state == Fault ==> t.state == Fault || t.state == Estop || Recovers(s, op))
    && (Recovers(s, op) ==> t.state == Idle && t.faults.active.code == NoFault)
    && (s.internalActive ==> t.internalActive && !Recovers(s, op))
    && (s.faults.active.code != NoFault && !Recovers(s, op) ==>
          t.faults.active == s.faults.active.(conditionActive := t.faults.active.conditionActive))
    && (s.state == Idle && t.state == Fault ==> t.faults.active.code != NoFault)
    && (t.faults.history != s.faults.history ==> Recovers(s, op) && t.faults.history == s.faults.active)
  }

  lemma StepKeepsLatches(s: Safety, op: Op)
    requires SafetyOk(s) && Allowed(s, op)
    ensures SafetyOk(Apply(s, op)) && LatchStep(s, op, Apply(s, op))
  {
    match op
    case Observe(o) => ObserveKeepsLatches(s, o);
    case _ =>
  }

  lemma ObserveKeepsLatches(s: Safety, o: Observation)
    requires SafetyOk(s)
    ensures SafetyOk(Evaluated(s, o)) && LatchStep(s, Observe(o), Evaluated(s, o))
  {
  }

  lemma AllowedInit(t: Safety, ops: seq<Op>)
    requires ops != [] && AllAllowed(t, ops)
    ensures AllAllowed(t, ops[..|ops| - 1]) && Allowed(After(t, ops[..|ops| - 1]), ops[|ops| - 1])
  {
    var init := ops[..|ops| - 1];
    forall i | 0 <= i < |init|
      ensures Allowed(After(t, init[..i]), init[i])
    {
      assert init[..i] == ops[..i];
    }
  }

  /** No reset succeeds. */
  predicate NeverRecovers(s: Safety, ops: seq<Op>) {
    forall i | 0 <= i < |ops| :: !Recovers(After(s, ops[..i]), ops[i])
  }

  lemma NeverRecoversInit(s: Safety, ops: seq<Op>)
    requires ops != []
    ensures var init := ops[..|ops| - 1];
            NeverRecovers(s, ops) ==> NeverRecovers(s, init) && !Recovers(After(s, init), ops[|ops| - 1])
  {
    var init := ops[..|ops| - 1];
    assert forall i | 0 <= i < |init| :: init[..i] == ops[..i];
  }

  /** Over every history: the records stay consistent with the latch; without a successful reset an
      ESTOP stays an ESTOP, a latch stays a latch and the retained fault keeps its code, time and
      source; and after an internal failure nothing ever unlatches. */
  lemma {:induction false} LatchesAreMonotone(s: Safety, ops: seq<Op>)
    requires SafetyOk(s) && AllAllowed(s, ops)
    ensures SafetyOk(After(s, ops))
    ensures s.internalActive ==> After(s, ops).internalActive && After(s, ops).state != Idle
    ensures NeverRecovers(s, ops) ==> LatchKept(s, After(s, ops))
  {
    if ops != [] {
      var n := |ops| - 1;
      var init := ops[..n];
      AllowedInit(s, ops);
      NeverRecoversInit(s, ops);
      LatchesAreMonotone(s, init);
      StepKeepsLatches(After(s, init), ops[n]);
      KeptOn(s, After(s, init), ops[n], After(s, ops));
    }
  }

  /** A latch and the first fault, kept. */
  predicate LatchKept(s: Safety, t: Safety) {
    && (s.state == Estop ==> t.state == Estop)
    && (s.state != Idle ==> t.state != Idle)
    && (s.faults.active.code != NoFault ==>
          t.faults.active.(conditionActive := true) == s.faults.active.(conditionActive := true))
    && t.faults.history == s.faults.history
  }

  lemma KeptOn(s: Safety, t: Safety, op: Op, u: Safety)
    requires LatchStep(t, op, u)
    ensures s.internalActive && t.internalActive ==> u.internalActive
    ensures LatchKept(s, t) && !Recovers(t, op) ==> LatchKept(s, u)
  {
  }

  /** Reset is exact: right after an evaluation it succeeds if and only if no hazard is present now,
      whichever fault was recorded first, and then nothing is retained but the history. */
  lemma ResetIsExact(s: Safety, o: Observation)
    ensures var t := Evaluated(s, o);
            && (ResetAllowed(t) <==>
                  && o.valid && !o.inputs.estop && !o.inputs.positiveLimit && !o.inputs.negativeLimit && o.mask == 0
                  && !s.internalActive
                  && !Stalled(s, o)
                  && (s.stall.recoveryRequired ==> o.motion.feedbackValid && DistanceFrom(s, o) >= 2))
            && (ResetAllowed(t) ==> Recovered(t).state == Idle && Recovered(t).faults.active == NO_RECORD)
            && (ResetAllowed(t) && t.faults.active.code != NoFault ==> Recovered(t).faults.history == t.faults.active)
            && (!ResetAllowed(t) ==> Recovered(t) == t)
  {
  }

  // Recovery from a no-motion trip.

  /** An observation of trusted feedback at least two counts away from where the trip happened. */
  predicate Displaced(s: Safety, op: Op) {
    op.Observe? && op.o.motion.feedbackValid && DistanceFrom(s, op.o) >= 2
  }

  /** A supervisor that waits for a displacement from where its trip happened. */
  predicate AwaitsDisplacement(s: Safety, position: Count) {
    SafetyOk(s) && s.stall.recoveryRequired && s.stall.faultPosition == position
  }

  lemma AwaitingStep(s: Safety, op: Op)
    requires AwaitsDisplacement(s, s.stall.faultPosition) && Allowed(s, op) && !Displaced(s, op)
    ensures AwaitsDisplacement(Apply(s, op), s.stall.faultPosition)
    ensures !Recovers(s, op)
  {
    StepKeepsLatches(s, op);
  }

  /** After a no-motion trip every reset is refused until a displacement of two counts from the trip
      has been observed. */
  lemma {:induction false} RecoveryNeedsDisplacement(s: Safety, ops: seq<Op>)
    requires SafetyOk(s) && s.stall.recoveryRequired && AllAllowed(s, ops)
    requires forall i | 0 <= i < |ops| :: !Displaced(s, ops[i])
    ensures AwaitsDisplacement(After(s, ops), s.stall.faultPosition)
    ensures After(s, ops).state != Idle && !ResetAllowed(After(s, ops))
  {
    if ops != [] {
      var n := |ops| - 1;
      var init := ops[..n];
      AllowedInit(s, ops);
      RecoveryNeedsDisplacement(s, init);
      var t := After(s, init);
      assert !Displaced(s, ops[n]) && Allowed(After(s, ops[..n]), ops[n]);
      AwaitingStep(t, ops[n]);
    }
  }

  // The no-motion fault against true time.

  /** An operation and the true time, in unbounded milliseconds, at which it happens. */
  datatype TimedOp = TimedOp(time: nat, op: Op)

  function Ops(h: seq<TimedOp>): (ops: seq<Op>)
    ensures |ops| == |h| && forall i | 0 <= i < |h| :: ops[i] == h[i].op
  {
    seq(|h|, i requires 0 <= i < |h| => h[i].op)
  }

  /** Observations read the wrapped timer, and time does not run backwards. */
  predicate Clocked(h: seq<TimedOp>) {
    && (forall i | 0 <= i < |h| :: h[i].op.Observe? ==> h[i].op.o.now == Wrap(h[i].time))
    && (forall i, j | 0 <= i <= j < |h| :: h[i].time <= h[j].time)
  }

  function StateAt(s: Safety, h: seq<TimedOp>, i: nat): Safety
    requires i <= |h|
  {
    if i == 0 then s else Apply(StateAt(s, h, i - 1), h[i - 1].op)
  }

  lemma {:induction false} StateAtIsAfter(s: Safety, h: seq<TimedOp>, i: nat)
    requires i <= |h|
    ensures StateAt(s, h, i) == After(s, Ops(h)[..i])
  {
    if i > 0 {
      StateAtIsAfter(s, h, i - 1);
      assert Ops(h)[..i][..i - 1] == Ops(h)[..i - 1];
    }
  }

  /** What an operation does to a run of qualifying evaluations. */
  datatype Mark = Extends | Breaks | Passes

  function MarkOf(s: Safety, op: Op): Mark {
    if op.Observe? then if NothingElse(s, op.o) && LooksJammed(op.o) then Extends else Breaks
    else if Recovers(s, op) then Breaks
    else Passes
  }

  function Marks(s: Safety, h: seq<TimedOp>): (marks: seq<Mark>)
    ensures |marks| == |h| && forall i | 0 <= i < |h| :: marks[i] == MarkOf(StateAt(s, h, i), h[i].op)
  {
    seq(|h|, i requires 0 <= i < |h| => MarkOf(StateAt(s, h, i), h[i].op))
  }

  /** An unbroken run of qualifying evaluations from operation j to operation k: it begins and ends with
      one, and no evaluation or reset in between breaks it. */
  ghost predicate Unbroken(marks: seq<Mark>, j: nat, k: nat)
    requires j <= k < |marks|
  {
    marks[j] == Extends && marks[k] == Extends && forall i | j <= i <= k :: marks[i] != Breaks
  }

  /** Where the run of the first n operations began, if there is one. */
  function RunStart(marks: seq<Mark>, n: nat): (j: int)
    requires n <= |marks|
    ensures -1 <= j < n
    ensures j >= 0 ==> marks[j] == Extends
  {
    if n == 0 then -1
    else
      match marks[n - 1]
      case Breaks => -1
      case Passes => RunStart(marks, n - 1)
      case Extends => if RunStart(marks, n - 1) >= 0 then RunStart(marks, n - 1) else n - 1
  }

  /** The last operation of the run of the first n operations that extended it. */
  function RunEnd(marks: seq<Mark>, n: nat): (k: int)
    requires n <= |marks|
    ensures -1 <= k < n
    ensures (k >= 0 <==> RunStart(marks, n) >= 0) && RunStart(marks, n) <= k
    ensures k >= 0 ==> marks[k] == Extends
  {
    if n == 0 then -1
    else
      match marks[n - 1]
      case Breaks => -1
      case Passes => RunEnd(marks, n - 1)
      case Extends => n - 1
  }

  /** The run found is unbroken, and no unbroken run reaches further back. */
  lemma {:induction false} RunStartIsEarliest(marks: seq<Mark>, n: nat)
    requires n <= |marks|
    ensures RunStart(marks, n) >= 0 ==> forall i | RunStart(marks, n) <= i < n :: marks[i] != Breaks
    ensures forall j: nat | j < n && marks[j] == Extends && (forall i | j <= i < n :: marks[i] != Breaks) ::
              0 <= RunStart(marks, n) <= j
  {
    if n > 0 {
      RunStartIsEarliest(marks, n - 1);
    }
  }

  lemma EarliestRun(marks: seq<Mark>, k: nat)
    requires k < |marks| && marks[k] == Extends
    ensures RunStart(marks, k + 1) >= 0 && Unbroken(marks, RunStart(marks, k + 1), k)
    ensures forall j: nat | j <= k && Unbroken(marks, j, k) :: RunStart(marks, k + 1) <= j
  {
    RunStartIsEarliest(marks, k + 1);
  }

  /** The last evaluation before operation n. */
  function LastObserved(h: seq<TimedOp>, n: nat): (k: int)
    requires n <= |h|
    ensures -1 <= k < n
  {
    if n == 0 then -1 else if h[n - 1].op.Observe? then n - 1 else LastObserved(h, n - 1)
  }

  /** Consecutive evaluations are less than 2^32 - 500 ms apart. */
  predicate GapsBounded(h: seq<TimedOp>) {
    forall k: nat | k < |h| && h[k].op.Observe? && LastObserved(h, k) >= 0 ::
      h[k].time - h[LastObserved(h, k)].time < WORD - 500
  }

  lemma {:induction false} RunEndIsLastObserved(marks: seq<Mark>, h: seq<TimedOp>, n: nat)
    requires n <= |h| == |marks| && RunStart(marks, n) >= 0
    requires forall i | 0 <= i < |h| ::
             (marks[i] == Extends ==> h[i].op.Observe?) && (marks[i] == Passes ==> !h[i].op.Observe?)
    ensures RunEnd(marks, n) == LastObserved(h, n)
  {
    if marks[n - 1] == Passes {
      RunEndIsLastObserved(marks, h, n - 1);
    }
  }

  /** A history the firmware can produce from a consistent supervisor with no candidate pending. */
  predicate History(s: Safety, h: seq<TimedOp>) {
    && SafetyOk(s) && !s.stall.candidate
    && Clocked(h) && GapsBounded(h)
    && forall i: nat | i < |h| :: AllowedIn(s, h, i)
  }

  predicate AllowedIn(s: Safety, h: seq<TimedOp>, i: nat)
    requires i < |h|
  {
    Allowed(StateAt(s, h, i), h[i].op)
  }

  /** What one operation does to the candidate. */
  predicate CandidateRule(s: Safety, op: Op, t: Safety) {
    match MarkOf(s, op)
    case Breaks => !t.stall.candidate
    case Passes => t.stall.candidate == s.stall.candidate && t.stall.candidateStartMs == s.stall.candidateStartMs
                   && (t.state == Idle ==> s.state == Idle)
    case Extends => t.stall.candidate && t.stall.candidateStartMs == CandidateStart(s, op.o)
                    && s.state == Idle
                    && (t.state == Idle <==> Elapsed(op.o.now, CandidateStart(s, op.o)) < 500)
  }

  lemma CandidateStep(s: Safety, op: Op)
    ensures CandidateRule(s, op, Apply(s, op))
  {
  }

  /** The candidate of a supervisor is the run `j..k`: same presence, same start, and not yet 500 ms old
      while nothing is latched. */
  ghost predicate Tracks(t: Safety, h: seq<TimedOp>, j: int, k: int)
    requires -1 <= j <= k < |h| && (j >= 0 <==> k >= 0)
  {
    && (t.stall.candidate <==> j >= 0)
    && (j >= 0 ==> t.stall.candidateStartMs == Wrap(h[j].time))
    && (j >= 0 && t.state == Idle ==> h[k].time - h[j].time < 500)
  }

  /** At a qualifying evaluation the unsigned age of the candidate is the true age of the run. */
  lemma RunAge(t: Safety, h: seq<TimedOp>, j: int, k: int, n: nat)
    requires -1 <= j <= k < n < |h| && (j >= 0 <==> k >= 0)
    requires Clocked(h) && h[n].op.Observe? && t.state == Idle && LooksJammed(h[n].op.o) && Tracks(t, h, j, k)
    requires NothingElse(t, h[n].op.o)
    requires k >= 0 ==> h[n].time - h[k].time < WORD - 500
    ensures var start := if j >= 0 then j else n;
            && CandidateStart(t, h[n].op.o) == Wrap(h[start].time)
            && Elapsed(h[n].op.o.now, CandidateStart(t, h[n].op.o)) == h[n].time - h[start].time
  {
    var start := if j >= 0 then j else n;
    ElapsedIsTrueTime(h[start].time, h[n].time);
  }

  lemma TrackStep(marks: seq<Mark>, h: seq<TimedOp>, n: nat, t: Safety, u: Safety)
    requires n < |h| == |marks| && Clocked(h)
    requires marks[n] == MarkOf(t, h[n].op) && CandidateRule(t, h[n].op, u)
    requires Tracks(t, h, RunStart(marks, n), RunEnd(marks, n))
    requires marks[n] == Extends ==>
               var start := RunStart(marks, n + 1);
               CandidateStart(t, h[n].op.o) == Wrap(h[start].time) &&
               Elapsed(h[n].op.o.now, CandidateStart(t, h[n].op.o)) == h[n].time - h[start].time
    ensures Tracks(u, h, RunStart(marks, n + 1), RunEnd(marks, n + 1))
  {
  }

  /** After n operations the supervisor is consistent and its candidate is the run found so far. */
  ghost predicate OnTrack(s: Safety, h: seq<TimedOp>, n: nat)
    requires n <= |h|
  {
    SafetyOk(StateAt(s, h, n)) && Tracks(StateAt(s, h, n), h, RunStart(Marks(s, h), n), RunEnd(Marks(s, h), n))
  }

  lemma TrackHistory(s: Safety, h: seq<TimedOp>, n: nat)
    requires n < |h| && History(s, h) && OnTrack(s, h, n)
    ensures OnTrack(s, h, n + 1)
  {
    var marks, t := Marks(s, h), StateAt(s, h, n);
    assert AllowedIn(s, h, n);
    StepKeepsLatches(t, h[n].op);
    CandidateStep(t, h[n].op);
    if marks[n] == Extends {
      AgeInHistory(s, h, n);
    }
    TrackStep(marks, h, n, t, Apply(t, h[n].op));
  }

  lemma TrackStart(s: Safety, h: seq<TimedOp>)
    requires History(s, h)
    ensures OnTrack(s, h, 0)
  {
  }

  lemma CandidateIsTheRun(s: Safety, h: seq<TimedOp>, n: nat)
    requires n <= |h| && History(s, h)
    ensures OnTrack(s, h, n)
  {
    TrackStart(s, h);
    for i := 0 to n
      invariant OnTrack(s, h, i)
    {
      TrackHistory(s, h, i);
    }
  }

  lemma AgeInHistory(s: Safety, h: seq<TimedOp>, n: nat)
    requires n < |h| && History(s, h) && Marks(s, h)[n] == Extends
    requires Tracks(StateAt(s, h, n), h, RunStart(Marks(s, h), n), RunEnd(Marks(s, h), n))
    ensures var start, t, o := RunStart(Marks(s, h), n + 1), StateAt(s, h, n), h[n].op.o;
            && start >= 0
            && CandidateStart(t, o) == Wrap(h[start].time)
            && Elapsed(o.now, CandidateStart(t, o)) == h[n].time - h[start].time
  {
    var marks := Marks(s, h);
    if RunStart(marks, n) >= 0 {
      RunEndIsLastObserved(marks, h, n);
    }
    RunAge(StateAt(s, h, n), h, RunStart(marks, n), RunEnd(marks, n), n);
  }

  /** What an evaluation retains, by whether it stalls. */
  lemma StallLatches(t: Safety, o: Observation)
    requires SafetyOk(t)
    ensures var u := Evaluated(t, o);
            && (t.faults.active.code == NoFault && u.faults.active.code == NoMotion <==> Stalled(t, o))
            && (Stalled(t, o) ==>
                  && t.state == Idle && u.state == Fault
                  && u.faults.active == FaultRecord(NoMotion, o.now, 0, true)
                  && u.stall.recoveryRequired && u.stall.faultPosition == o.motion.position)
  {
  }

  /** The no-motion fault is exact over whole histories: an evaluation latches it if and only if it ends
      an unbroken run of qualifying evaluations that spans at least 500 ms of true time, across any
      number of timer wraps. */
  lemma NoMotionIsExact(s: Safety, h: seq<TimedOp>, k: nat)
    requires k < |h| && History(s, h) && h[k].op.Observe?
    ensures var before, after := StateAt(s, h, k), StateAt(s, h, k + 1);
            var latched := before.faults.active.code == NoFault && after.faults.active.code == NoMotion;
            && (latched <==> exists j: nat | j <= k ::
                  Unbroken(Marks(s, h), j, k) && h[k].time - h[j].time >= 500)
            && (latched ==>
                  && before.state == Idle && after.state == Fault
                  && after.faults.active == FaultRecord(NoMotion, Wrap(h[k].time), 0, true)
                  && after.stall.recoveryRequired && after.stall.faultPosition == h[k].op.o.motion.position)
  {
    CandidateIsTheRun(s, h, k);
    StallLatches(StateAt(s, h, k), h[k].op.o);
    StallIsALongRun(s, h, k);
  }

  lemma StallIsAge(t: Safety, o: Observation)
    ensures Stalled(t, o) <==>
            NothingElse(t, o) && LooksJammed(o) && Elapsed(o.now, CandidateStart(t, o)) >= 500
  {
  }

  /** An evaluation stalls if and only if it ends a run of 500 ms. */
  lemma StallIsALongRun(s: Safety, h: seq<TimedOp>, k: nat)
    requires k < |h| && History(s, h) && h[k].op.Observe? && OnTrack(s, h, k)
    ensures Stalled(StateAt(s, h, k), h[k].op.o) <==>
              exists j: nat | j <= k :: Unbroken(Marks(s, h), j, k) && h[k].time - h[j].time >= 500
  {
    var marks := Marks(s, h);
    StallIsAge(StateAt(s, h, k), h[k].op.o);
    if marks[k] == Extends {
      AgeInHistory(s, h, k);
      EarliestRun(marks, k);
      EarliestIsLongest(marks, h, k, RunStart(marks, k + 1));
    }
  }

  lemma EarliestIsLongest(marks: seq<Mark>, h: seq<TimedOp>, k: nat, j: nat)
    requires j <= k < |h| == |marks| && Clocked(h) && Unbroken(marks, j, k)
    requires forall i: nat | i <= k && Unbroken(marks, i, k) :: j <= i
    ensures h[k].time - h[j].time >= 500 <==>
              exists i: nat | i <= k :: Unbroken(marks, i, k) && h[k].time - h[i].time >= 500
  {
  }
}
