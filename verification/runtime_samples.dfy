/** What moves and updates go by: the count that the encoder showed at the sample, and the time since the last one. */
module RuntimeSamples {
  import opened Words
  import opened CommandTypes
  import opened Encoders
  import opened MotionControl
  import opened RuntimeModel
  import opened RuntimeRuns
  import opened RuntimeMoves
  import opened RuntimeHoming
  import opened RuntimeCompletion
  import opened RuntimeCommands

  // The time of a cycle.

  /** The cycle that began at time t, until the next one begins. */
  predicate Cycling(w: World, t: nat) {
    HomeClock(w) && w.aux.capturedAt == t && (w.cycle.Resting? ==> !w.first)
  }

  lemma CyclingStep(w: World, e: Event, t: nat)
    requires Cycling(w, t) && Enabled(w, e) && !e.MotionBegin?
    ensures Cycling(Step(w, e), t)
  {
    StepKeepsClock(w, e);
    match e
    case SafetyCycle => EvaluateKeeps(w);
    case MotionSync => SyncSectionKeepsAttempt(w);
    case MotionReceive(c) => ReceiveKeepsCapture(w, c);
    case MotionFinish => FinishKeepsAttempt(w);
    case _ =>
  }

  lemma ReceiveKeepsCapture(w: World, c: Command)
    requires w.cycle.Open?
    ensures MotionReceived(w, c).aux.capturedAt == w.aux.capturedAt && MotionReceived(w, c).cycle.Open?
  {
    if c.kind == Home {
      HomeStartsYoung(w);
    } else {
      CommandKeepsHome(w, c);
    }
  }

  lemma BeginCycles(w: World, e: Event, v: World)
    requires HomeClock(w) && e.MotionBegin? && Enabled(w, e) && v == Step(w, e)
    ensures Cycling(v, w.clock)
  {
    BeginKeepsClock(w);
  }

  /** The gap that a cycle beginning now would go by is the true time since t, modulo 2^32 ms. */
  predicate GapSince(w: World, t: nat) {
    Gap(w) == Wrap(w.clock - t)
  }

  lemma GapIsTrue(w: World, t: nat)
    requires Cycling(w, t) && w.cycle.Resting?
    ensures GapSince(w, t)
  {
    WrapDifference(w.clock, t);
  }

  lemma CyclingLasts(ws: seq<World>, es: seq<Event>, i: nat, j: nat, t: nat)
    requires Run(ws, es) && NoBegin(es, i, j) && Cycling(ws[i], t)
    ensures ws[j].cycle.Resting? ==> GapSince(ws[j], t)
  {
    for k := i to j
      invariant Cycling(ws[k], t)
    {
      CyclingStep(ws[k], es[k], t);
    }
    if ws[j].cycle.Resting? {
      GapIsTrue(ws[j], t);
    }
  }

  lemma CycleBegins(ws: seq<World>, es: seq<Event>, b: nat)
    requires Run(ws, es) && Reachable(ws[0]) && b < |es| && es[b] == MotionBegin
    ensures Cycling(ws[b + 1], ws[b].clock)
  {
    GroundedRun(ws, es, b);
    BeginCycles(ws[b], es[b], ws[b + 1]);
  }

  /** A cycle starts at b and the next one at c. The gap that the second one goes by is the true time between them,
      modulo 2^32 ms. */
  lemma CycleTimeIsTrue(ws: seq<World>, es: seq<Event>, b: nat, c: nat)
    requires Run(ws, es) && Reachable(ws[0]) && b < c <= |es| && es[b] == MotionBegin && NoBegin(es, b + 1, c)
    ensures ws[c].cycle.Resting? ==> GapSince(ws[c], ws[b].clock)
  {
    CycleBegins(ws, es, b);
    CyclingLasts(ws, es, b + 1, c, ws[b].clock);
  }

  // The band.

  /** Samples at b and at c, one after the other and both good, with the estimator kept between them; and an
      update at n that goes by the second. */
  ghost predicate Judges(ws: seq<World>, es: seq<Event>, b: nat, c: nat, n: nat) {
    && Run(ws, es) && Reachable(ws[0]) && b < c < n < |es|
    && es[b] == MotionBegin && ws[b + 1].cycle.sampled && NoBegin(es, b + 1, c)
    && es[c] == MotionBegin && ws[c + 1].cycle.sampled && ws[c].axis.m.sampled
    && NoBegin(es, c + 1, n) && es[n] == MotionFinish && forall k | c < k < n :: !es[k].MotionFinish?
  }

  /** An update is in the band if and only if the encoder, when the cycle sampled it, showed a count within the
      tolerance of the target on either side, and had moved since the sample before by no more than the completion
      velocity times the true time between the two, in either direction. */
  lemma BandIsTheEncoder(ws: seq<World>, es: seq<Event>, b: nat, c: nat, n: nat)
    requires Judges(ws, es, b, c, n)
    ensures var config, target := ws[n].axis.m.config, ws[n].axis.m.data.target;
            var count, before := Logical(ws[c].axis.encoder), Logical(ws[b].axis.encoder);
            var seconds := Wrap(ws[c].clock - ws[b].clock) as real / 1000.0;
            && seconds > 0.0
            && (InBandNow(ws[n]) <==>
                  && -config.tolerance <= (target - count) as real <= config.tolerance
                  && -config.completionVelocity <= SignedDelta(count, before) as real / seconds
                     <= config.completionVelocity)
  {
    UpdateJudgesTheEncoder(ws, es, b, c, n);
    CycleTimeIsTrue(ws, es, b, c);
    assert ws[c].cycle.Resting?;
    BandOfASample(ws[n], ws[c], ws[b].clock, Logical(ws[c].axis.encoder), Logical(ws[b].axis.encoder));
  }

  lemma BandOfASample(v: World, w: World, t: nat, count: Count, before: Count)
    requires GapSince(w, t) && v.axis.m.data.position == count && Gap(w) as real / 1000.0 > 0.0
    requires v.axis.m.data.velocity == SignedDelta(count, before) as real / (Gap(w) as real / 1000.0)
    ensures var config, target := v.axis.m.config, v.axis.m.data.target;
            var seconds := Wrap(w.clock - t) as real / 1000.0;
            && seconds > 0.0
            && (InBandNow(v) <==>
                  && -config.tolerance <= (target - count) as real <= config.tolerance
                  && -config.completionVelocity <= SignedDelta(count, before) as real / seconds
                     <= config.completionVelocity)
  {
  }

  // Completion, update by update.

  /** The number of updates among the events from i to j - 1. */
  function Updates(es: seq<Event>, i: nat, j: nat): nat
    requires i <= j <= |es|
  {
    if i == j then 0 else Updates(es, i, j - 1) + One(es[j - 1].MotionFinish?)
  }

  /** The last d updates before n are there, none of them event 0, and in each of them the position was within the
      tolerance of the target on either side, at no more than the completion velocity in either direction. */
  ghost predicate DweltInBand(ws: seq<World>, es: seq<Event>, n: nat, d: nat)
    requires 1 <= n <= |es| < |ws|
  {
    && d <= Updates(es, 1, n)
    && forall u | 1 <= u < n && es[u].MotionFinish? && Updates(es, u, n) <= d ::
         var c, m := ws[u].axis.m.config, ws[u].axis.m.data;
         && -c.tolerance <= (m.target - m.position) as real <= c.tolerance
         && -c.completionVelocity <= m.velocity <= c.completionVelocity
  }

  lemma DweltStep(ws: seq<World>, es: seq<Event>, n: nat, d: nat)
    requires 1 <= n < |es| < |ws|
    ensures !es[n].MotionFinish? ==> (DweltInBand(ws, es, n + 1, d) <==> DweltInBand(ws, es, n, d))
    ensures es[n].MotionFinish? && d > 0 ==>
              (DweltInBand(ws, es, n + 1, d) <==> InBandNow(ws[n]) && DweltInBand(ws, es, n, d - 1))
  {
    assert Updates(es, n, n + 1) == One(es[n].MotionFinish?);
    assert forall u | 1 <= u <= n :: Updates(es, u, n + 1) == Updates(es, u, n) + One(es[n].MotionFinish?);
    if es[n].MotionFinish? && d > 0 {
      assert forall u | 1 <= u < n :: Updates(es, u, n + 1) <= d <==> Updates(es, u, n) <= d - 1;
    }
  }

  lemma {:induction false} FlagsInWords(ws: seq<World>, es: seq<Event>, n: nat, d: nat)
    requires 1 <= n <= |es| < |ws|
    ensures Dwelt(Bands(ws, es, n), d) <==> DweltInBand(ws, es, n, d)
  {
    if n > 1 {
      SuffixIsMaximal(Bands(ws, es, n));
      SuffixIsMaximal(Bands(ws, es, n - 1));
      DweltStep(ws, es, n - 1, d);
      if es[n - 1].MotionFinish? {
        SuffixGrows(Bands(ws, es, n - 1), InBandNow(ws[n - 1]));
        if d > 0 {
          FlagsInWords(ws, es, n - 1, d - 1);
        }
      } else {
        assert Bands(ws, es, n) == Bands(ws, es, n - 1);
        FlagsInWords(ws, es, n - 1, d);
      }
    }
  }

  /** A step completes a move exactly if it is a tested update that ends a dwell. */
  predicate CompletesIff(w: World, e: Event, v: World, dwelt: bool) {
    MoveCompleted(w, v) <==> e.MotionFinish? && Tested(w) && dwelt
  }

  lemma VerdictInWords(ws: seq<World>, es: seq<Event>, n: nat, d: Word)
    requires 1 <= n < |es| < |ws| && Verdict(ws[n], es[n], ws[n + 1], Bands(ws, es, n + 1), d)
    ensures CompletesIff(ws[n], es[n], ws[n + 1], DweltInBand(ws, es, n + 1, d))
  {
    FlagsInWords(ws, es, n + 1, d);
  }

  /** Completion, update by update: over every run from the acceptance of a move on, a step completes it if and
      only if it is an update that gets as far as the dwell test, and it and the updates before it, the dwell
      number of them in all and none from before the acceptance, were in the band. */
  lemma CompletionInWords(ws: seq<World>, es: seq<Event>, n: nat)
    requires MoveRun(ws, es, n) && n < |es|
    ensures CompletesIff(ws[n], es[n], ws[n + 1], DweltInBand(ws, es, n + 1, ws[0].axis.m.config.dwellCycles))
  {
    CompletionIsExact(ws, es, n);
    VerdictInWords(ws, es, n, ws[0].axis.m.config.dwellCycles);
  }

  // The first sample after HOME.

  /** A completed HOME restarts the velocity estimate: the jump of the reference is no motion. The first good
      sample after it reports a velocity of zero. */
  lemma FirstSampleAfterHome(ws: seq<World>, es: seq<Event>, h: nat, c: nat)
    requires Run(ws, es) && Reachable(ws[0]) && h < c < |es|
    requires ws[h + 1].axis.m.data.homing.completed != ws[h].axis.m.data.homing.completed
    requires es[c] == MotionBegin && NoBegin(es, h + 1, c) && ws[c + 1].cycle.sampled
    ensures ws[c + 1].axis.m.data.velocity == 0.0
    ensures ws[c + 1].axis.m.data.position == Logical(ws[c].axis.encoder)
  {
    GroundedRun(ws, es, h);
    OnlyCompletionReferences(ws[h], es[h]);
    SampleLasts(ws, es, h + 1, c);
    FirstSample(ws[c]);
  }

  lemma FirstSample(w: World)
    requires w.cycle.Resting? && MotionBegun(w).cycle.sampled && !w.axis.m.sampled
    ensures MotionBegun(w).axis.m.data.velocity == 0.0
    ensures MotionBegun(w).axis.m.data.position == Logical(w.axis.encoder)
  {
  }

  // Where moves go.

  lemma AcceptedMoveGoes(w: World, e: Event, v: World)
    requires Grounded(w) && Enabled(w, e) && v == Step(w, e) && MoveAccepted(w, e) && UnderWay(v)
    ensures Grounded(v) && v.axis.m.data.target == Goal(e.command, w.axis.m.data.position)
  {
    GroundedStep(w, e);
    MoveIsAcceptedExactly(w, e.command);
    MoveCarries(w, e.command);
  }

  lemma TargetLasts(ws: seq<World>, es: seq<Event>, n: nat, m: nat)
    requires Run(ws, es) && n <= m <= |es| && Grounded(ws[n]) && forall k | n <= k <= m :: UnderWay(ws[k])
    ensures ws[m].axis.m.data.target == ws[n].axis.m.data.target
  {
    for k := n to m
      invariant Grounded(ws[k]) && ws[k].axis.m.data.target == ws[n].axis.m.data.target
    {
      GroundedStep(ws[k], es[k]);
      BoundedStep(ws[k], es[k]);
    }
  }

  lemma CommandSeesTheSample(ws: seq<World>, es: seq<Event>, c: nat, n: nat)
    requires Run(ws, es) && c < n < |es| && es[c] == MotionBegin && ws[c + 1].cycle.sampled
    requires NoBegin(es, c + 1, n) && forall k | c < k < n :: !es[k].MotionFinish?
    ensures ws[n].axis.m.data.position == Logical(ws[c].axis.encoder)
  {
    RecordLasts(ws, es, c + 1, n);
    BeginSamples(ws[c]);
  }

  /** A move that is accepted goes to the target it names; a relative one to the count that the encoder showed at
      the sample of the cycle, plus the distance it names. It keeps this target as long as it is under way. */
  lemma MovesGoWhereTheySay(ws: seq<World>, es: seq<Event>, c: nat, n: nat, m: nat)
    requires Run(ws, es) && Reachable(ws[0]) && c < n < m <= |es|
    requires es[c] == MotionBegin && ws[c + 1].cycle.sampled
    requires NoBegin(es, c + 1, n) && forall k | c < k < n :: !es[k].MotionFinish?
    requires MoveAccepted(ws[n], es[n]) && forall k | n < k <= m :: UnderWay(ws[k])
    ensures ws[m].axis.m.data.target == if es[n].command.kind == MoveRel
                                        then Logical(ws[c].axis.encoder) + es[n].command.value
                                        else es[n].command.value
  {
    GroundedRun(ws, es, n);
    CommandSeesTheSample(ws, es, c, n);
    AcceptedMoveGoes(ws[n], es[n], ws[n + 1]);
    TargetLasts(ws, es, n + 1, m);
  }
}
