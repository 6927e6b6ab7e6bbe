/** That nothing of an earlier move reaches a later one. */
module MotionRuns {
  import opened Words
  import opened Floats
  import opened CommandTypes
  import opened MotionControl

  /** Everything of the controller that later drive, dwell and completion can depend on. */
  function Essence(m: Motion): Motion {
    m.(data := m.data.(completedMoves := 0, homing := BLANK.homing))
  }

  predicate Alike(a: Axis, b: Axis) {
    a.gate == b.gate && a.encoder == b.encoder && Essence(a.m) == Essence(b.m)
  }

  /** Two controllers, whatever happened to them before, that agree on what a new move is told. */
  predicate AgreeAtAcceptance(a: Axis, b: Axis) {
    && a.gate == b.gate && a.encoder == b.encoder
    && a.m.config == b.m.config && a.m.pid.config == b.m.pid.config
    && a.m.previousCount == b.m.previousCount && a.m.sampled == b.m.sampled
    && a.m.data.position == b.m.data.position && a.m.data.velocity == b.m.data.velocity
    && a.m.data.feedbackValid && b.m.data.feedbackValid
    && a.m.data.state == Idle && b.m.data.state == Idle
  }

  datatype Op = DoSample(raw: Word, dt: Float) | DoCommand(c: Command) | DoUpdate(dt: Float)

  function Perform(a: Axis, op: Op): Axis {
    match op
    case DoSample(raw, dt) => Sampled(a.(encoder := a.encoder.(raw := raw)), dt)
    case DoCommand(c) => Commanded(a, c)
    case DoUpdate(dt) => MotionUpdated(a, dt).0
  }

  function Performed(a: Axis, ops: seq<Op>): Axis {
    if ops == [] then a else Perform(Performed(a, ops[..|ops| - 1]), ops[|ops| - 1])
  }

  /** Moves completed between two records, modulo 2^32. */
  function Completions(a: Axis, z: Axis): Word {
    Elapsed(z.m.data.completedMoves, a.m.data.completedMoves)
  }

  lemma AlikeStep(a: Axis, b: Axis, op: Op)
    requires Alike(a, b)
    ensures Alike(Perform(a, op), Perform(b, op))
    ensures Completions(a, Perform(a, op)) == Completions(b, Perform(b, op))
  {
    match op
    case DoSample(raw, dt) => AlikeSample(a, b, raw, dt);
    case DoCommand(c) => AlikeCommand(a, b, c);
    case DoUpdate(dt) => AlikeUpdate(a, b, dt);
  }

  lemma AlikeSample(a: Axis, b: Axis, raw: Word, dt: Float)
    requires Alike(a, b)
    ensures Alike(Perform(a, DoSample(raw, dt)), Perform(b, DoSample(raw, dt)))
    ensures Perform(a, DoSample(raw, dt)).m.data.completedMoves == a.m.data.completedMoves
    ensures Perform(b, DoSample(raw, dt)).m.data.completedMoves == b.m.data.completedMoves
  {
  }

  lemma AlikeCommand(a: Axis, b: Axis, c: Command)
    requires Alike(a, b)
    ensures Alike(Commanded(a, c), Commanded(b, c))
    ensures Commanded(a, c).m.data.completedMoves == a.m.data.completedMoves
    ensures Commanded(b, c).m.data.completedMoves == b.m.data.completedMoves
  {
    assert CommandResult(a.m, c) == CommandResult(b.m, c);
  }

  lemma AlikeUpdate(a: Axis, b: Axis, dt: Float)
    requires Alike(a, b)
    ensures Alike(MotionUpdated(a, dt).0, MotionUpdated(b, dt).0)
    ensures Completions(a, MotionUpdated(a, dt).0) == Completions(b, MotionUpdated(b, dt).0)
  {
    if a.m.data.feedbackValid && UsableStep(dt) {
      var p, q := Dwelled(a.m), Dwelled(b.m);
      AlikeDwell(a.m, b.m);
      if p.data.state == Moving {
        AlikeDrive(a.(m := p), b.(m := q), dt.value);
      }
    }
  }

  lemma AlikeDwell(a: Motion, b: Motion)
    requires Essence(a) == Essence(b)
    ensures Essence(Dwelled(a)) == Essence(Dwelled(b))
    ensures Elapsed(Dwelled(a).data.completedMoves, a.data.completedMoves) ==
            Elapsed(Dwelled(b).data.completedMoves, b.data.completedMoves)
  {
    WrapSum(a.data.completedMoves + 1, 0 - a.data.completedMoves);
    WrapSum(b.data.completedMoves + 1, 0 - b.data.completedMoves);
  }

  lemma AlikeDrive(a: Axis, b: Axis, dt: real)
    requires Alike(a, b) && dt > 0.0
    ensures Alike(Driven(a, dt).0, Driven(b, dt).0)
    ensures Driven(a, dt).0.m.data.completedMoves == a.m.data.completedMoves
    ensures Driven(b, dt).0.m.data.completedMoves == b.m.data.completedMoves
  {
  }

  lemma {:induction false} AlikeRun(a: Axis, b: Axis, ops: seq<Op>)
    requires Alike(a, b)
    ensures Alike(Performed(a, ops), Performed(b, ops))
    ensures Completions(a, Performed(a, ops)) == Completions(b, Performed(b, ops))
  {
    if ops != [] {
      var n := |ops| - 1;
      AlikeRun(a, b, ops[..n]);
      var y, z := Performed(a, ops[..n]), Performed(b, ops[..n]);
      AlikeStep(y, z, ops[n]);
      AlikeOn(a, b, y, z, Perform(y, ops[n]), Perform(z, ops[n]));
    }
  }

  lemma AlikeOn(a: Axis, b: Axis, y: Axis, z: Axis, y': Axis, z': Axis)
    requires Completions(a, y) == Completions(b, z) && Completions(y, y') == Completions(z, z')
    ensures Completions(a, y') == Completions(b, z')
  {
    CompletionsAdd(a, y, y');
    CompletionsAdd(b, z, z');
  }

  lemma CompletionsAdd(a: Axis, y: Axis, z: Axis)
    ensures Completions(a, z) == Wrap(Completions(y, z) + Completions(a, y))
  {
    ElapsedAdds(z.m.data.completedMoves, y.m.data.completedMoves, a.m.data.completedMoves);
  }

  lemma ElapsedAdds(z: Word, y: Word, x: Word)
    ensures Elapsed(z, x) == Wrap(Elapsed(z, y) + Elapsed(y, x))
  {
    WrapSum(z - y, Elapsed(y, x));
    WrapSum(y - x, z - y);
  }

  /** No leakage between moves: two controllers with any different histories of aborted, stopped or
      completed moves, that agree at the acceptance of a move, give the same drive, dwell, state and
      completions for every later sequence of samples, commands and updates. */
  lemma NoLeakageBetweenMoves(a: Axis, b: Axis, c: Command, ops: seq<Op>)
    requires AgreeAtAcceptance(a, b)
    requires c.kind == MoveAbs || c.kind == MoveRel
    requires CommandResult(a.m, c) == Accepted
    ensures CommandResult(b.m, c) == Accepted
    ensures var y, z := Performed(Commanded(a, c), ops), Performed(Commanded(b, c), ops);
            Alike(y, z) && Completions(a, y) == Completions(b, z)
  {
    assert Alike(Commanded(a, c), Commanded(b, c)) by {
      assert Essence(Commanded(a, c).m) == Essence(Commanded(b, c).m);
    }
    AlikeRun(Commanded(a, c), Commanded(b, c), ops);
  }
}
