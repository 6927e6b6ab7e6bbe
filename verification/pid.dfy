/** The position loop: derivative on measurement, integral contribution clamped. */
module PidControl {
  import opened Floats

  datatype PidConfig = PidConfig(
    kp: real, ki: real, kd: real,
    outputMin: real, outputMax: real,
    integralMin: real, integralMax: real)

  /** What pid_init demands of a configuration. */
  predicate ValidPid(c: PidConfig) {
    && c.kp >= 0.0 && c.ki >= 0.0 && c.kd >= 0.0
    && c.outputMin < c.outputMax
    && c.integralMin <= 0.0 <= c.integralMax
  }

  datatype Pid = Pid(config: PidConfig, integral: real, previousMeasurement: real, sampled: bool)

  function Cleared(p: Pid): Pid {
    p.(integral := 0.0, previousMeasurement := 0.0, sampled := false)
  }

  /** Bounds that every update keeps. */
  predicate PidOk(p: Pid) {
    ValidPid(p.config) && p.config.integralMin <= p.integral <= p.config.integralMax
  }

  predicate Usable(target: Float, measurement: Float, dt: Float) {
    target.Finite? && measurement.Finite? && dt.Finite? && dt.value > 0.0
  }

  /** The sum of up to three terms, clamped. */
  function ClampedSum(x: real, y: real, z: real, low: real, high: real): real {
    Clamp(x + y + z, low, high)
  }

  function Integral(p: Pid, error: real, dt: real): real {
    ClampedSum(p.integral, Times(Times(p.config.ki, error), dt), 0.0, p.config.integralMin, p.config.integralMax)
  }

  function Derivative(p: Pid, measurement: real, dt: real): real
    requires dt > 0.0
  {
    if p.sampled then -(measurement - p.previousMeasurement) / dt else 0.0
  }

  function Combined(c: PidConfig, error: real, integral: real, derivative: real): real {
    ClampedSum(Times(c.kp, error), integral, Times(c.kd, derivative), c.outputMin, c.outputMax)
  }

  function Output(p: Pid, target: real, measurement: real, dt: real): real
    requires dt > 0.0
  {
    Combined(p.config, target - measurement, Integral(p, target - measurement, dt), Derivative(p, measurement, dt))
  }

  function Updated(p: Pid, target: real, measurement: real, dt: real): Pid {
    p.(integral := Integral(p, target - measurement, dt), previousMeasurement := measurement, sampled := true)
  }

  class PidController {
    const config: PidConfig
    var integral: real
    var previousMeasurement: real
    var sampled: bool

    ghost function View(): Pid
      reads this
    {
      Pid(config, integral, previousMeasurement, sampled)
    }

    constructor (c: PidConfig)
      ensures View() == Pid(c, 0.0, 0.0, false)
    {
      config := c;
      integral, previousMeasurement, sampled := 0.0, 0.0, false;
    }

    method Reset()
      modifies this
      ensures View() == Cleared(old(View()))
    {
      integral := 0.0;
      previousMeasurement := 0.0;
      sampled := false;
    }

    /** Starting a move seeds the measurement, so that a new target gives no derivative kick. */
    method Seed(measurement: real)
      modifies this
      ensures View() == old(View()).(previousMeasurement := measurement, sampled := true)
    {
      previousMeasurement := measurement;
      sampled := true;
    }

    /** The integral contribution of one update, clamped: the one protection against windup. */
    method Accumulate(error: real, dt: real) returns (contribution: real)
      ensures contribution == Integral(View(), error, dt)
    {
      var change := Times(Times(config.ki, error), dt);
      contribution := ClampedSum(integral, change, 0.0, config.integralMin, config.integralMax);
    }

    method Combine(error: real, contribution: real, derivative: real) returns (output: real)
      ensures output == Combined(config, error, contribution, derivative)
    {
      var proportional, damping := Times(config.kp, error), Times(config.kd, derivative);
      output := ClampedSum(proportional, contribution, damping, config.outputMin, config.outputMax);
    }

    /** One update; `was` is the output that the caller holds, and keeps if the input is unusable. */
    method Update(target: Float, measurement: Float, dt: Float, was: real) returns (ok: bool, output: real)
      modifies this
      ensures ok == Usable(target, measurement, dt)
      ensures !ok ==> View() == old(View()) && output == was
      ensures ok ==> View() == Updated(old(View()), target.value, measurement.value, dt.value)
      ensures ok ==> output == Output(old(View()), target.value, measurement.value, dt.value)
    {
      ok, output := false, was;
      if target.NotFinite? || measurement.NotFinite? || dt.NotFinite? || dt.value <= 0.0 {
        return;
      }
      ghost var before := View();
      var error := target.value - measurement.value;
      var derivative := if sampled then -(measurement.value - previousMeasurement) / dt.value else 0.0;
      assert derivative == Derivative(before, measurement.value, dt.value);
      var contribution := Accumulate(error, dt.value);
      output := Combine(error, contribution, derivative);
      integral := contribution;
      previousMeasurement := measurement.value;
      sampled := true;
      ok := true;
    }
  }

  // Runs of updates.

  datatype Sample = Sample(target: real, measurement: real, dt: real)

  predicate ValidRun(xs: seq<Sample>) {
    forall i | 0 <= i < |xs| :: xs[i].dt > 0.0
  }

  function PidRun(p: Pid, xs: seq<Sample>): Pid {
    if xs == [] then p
    else
      var last := xs[|xs| - 1];
      Updated(PidRun(p, xs[..|xs| - 1]), last.target, last.measurement, last.dt)
  }

  /** The output of the last update of a run. */
  function LastOutput(p: Pid, xs: seq<Sample>): real
    requires xs != [] && ValidRun(xs)
  {
    var last := xs[|xs| - 1];
    Output(PidRun(p, xs[..|xs| - 1]), last.target, last.measurement, last.dt)
  }

  lemma SumInRange(x: real, y: real, z: real, low: real, high: real)
    requires low <= high
    ensures low <= ClampedSum(x, y, z, low, high) <= high
  {
  }

  lemma UpdateIsBounded(p: Pid, target: real, measurement: real, dt: real)
    requires PidOk(p) && dt > 0.0
    ensures PidOk(Updated(p, target, measurement, dt))
    ensures p.config.outputMin <= Output(p, target, measurement, dt) <= p.config.outputMax
  {
    var c, error := p.config, target - measurement;
    SumInRange(p.integral, Times(Times(c.ki, error), dt), 0.0, c.integralMin, c.integralMax);
    SumInRange(Times(c.kp, error), Integral(p, error, dt), Times(c.kd, Derivative(p, measurement, dt)),
               c.outputMin, c.outputMax);
  }

  /** Over every run the integral stays within its clamp and every output within its range. */
  lemma {:induction false} RunStaysBounded(p: Pid, xs: seq<Sample>)
    requires PidOk(p) && ValidRun(xs)
    ensures PidOk(PidRun(p, xs)) && PidRun(p, xs).config == p.config
    ensures xs != [] ==> p.config.outputMin <= LastOutput(p, xs) <= p.config.outputMax
  {
    if xs != [] {
      var last := xs[|xs| - 1];
      RunStaysBounded(p, xs[..|xs| - 1]);
      UpdateIsBounded(PidRun(p, xs[..|xs| - 1]), last.target, last.measurement, last.dt);
    }
  }

  /** `ys` asks for the same or a larger target wherever `xs` does, from the same measurements. */
  predicate AsksMore(xs: seq<Sample>, ys: seq<Sample>) {
    && |xs| == |ys|
    && forall i | 0 <= i < |xs| ::
         && xs[i].target <= ys[i].target
         && xs[i].measurement == ys[i].measurement
         && xs[i].dt == ys[i].dt
  }

  lemma SumOrder(x: real, y: real, x': real, y': real, z: real, low: real, high: real)
    requires x <= x' && y <= y' && low <= high
    ensures ClampedSum(x, y, z, low, high) <= ClampedSum(x', y', z, low, high)
  {
  }

  lemma CombinedOrder(c: PidConfig, a: real, b: real, i: real, j: real, derivative: real)
    requires ValidPid(c) && a <= b && i <= j
    ensures Combined(c, a, i, derivative) <= Combined(c, b, j, derivative)
  {
    var x, y, z := Times(c.kp, a), Times(c.kp, b), Times(c.kd, derivative);
    NamedOrder(c.kp, a, b, x, y);
    SumOrder(x, i, y, j, z, c.outputMin, c.outputMax);
  }

  lemma IntegralOrder(p: Pid, q: Pid, a: real, b: real, dt: real)
    requires ValidPid(p.config) && q.config == p.config && p.integral <= q.integral && a <= b && dt > 0.0
    ensures Integral(p, a, dt) <= Integral(q, b, dt)
  {
    var c := p.config;
    var x, y := Times(c.ki, a), Times(c.ki, b);
    NamedOrder(c.ki, a, b, x, y);
    var xt, yt := Times(x, dt), Times(y, dt);
    NamedOrder(dt, x, y, xt, yt);
    SumOrder(p.integral, xt, q.integral, yt, 0.0, c.integralMin, c.integralMax);
  }

  /** One update from ordered integrals with ordered targets. */
  lemma UpdateOrder(p: Pid, q: Pid, s: Sample, t: Sample)
    requires ValidPid(p.config) && q == p.(integral := q.integral) && p.integral <= q.integral
    requires t == s.(target := t.target) && s.target <= t.target && s.dt > 0.0
    ensures Integral(p, s.target - s.measurement, s.dt) <= Integral(q, t.target - t.measurement, t.dt)
    ensures Output(p, s.target, s.measurement, s.dt) <= Output(q, t.target, t.measurement, t.dt)
  {
    var c, a, b := p.config, s.target - s.measurement, t.target - t.measurement;
    IntegralOrder(p, q, a, b, s.dt);
    CombinedOrder(c, a, b, Integral(p, a, s.dt), Integral(q, b, s.dt), Derivative(p, s.measurement, s.dt));
  }

  lemma RunOrder(q: Pid, r: Pid, s: Sample, t: Sample)
    requires PidOk(q) && PidOk(r) && q.config == r.config && q.integral <= r.integral
    requires q.previousMeasurement == r.previousMeasurement && q.sampled == r.sampled
    requires t == s.(target := t.target) && s.target <= t.target && s.dt > 0.0
    ensures var q', r' := Updated(q, s.target, s.measurement, s.dt), Updated(r, t.target, t.measurement, t.dt);
            && q'.integral <= r'.integral && q'.previousMeasurement == r'.previousMeasurement
            && q'.sampled == r'.sampled
    ensures Output(q, s.target, s.measurement, s.dt) <= Output(r, t.target, t.measurement, t.dt)
  {
    assert r == q.(integral := r.integral);
    UpdateOrder(q, r, s, t);
  }

  /** The loop is order preserving: pointwise larger targets never give a smaller integral or output. */
  lemma {:induction false} LargerTargetsGiveLargerOutputs(p: Pid, xs: seq<Sample>, ys: seq<Sample>)
    requires PidOk(p) && ValidRun(xs) && AsksMore(xs, ys)
    ensures PidRun(p, xs).integral <= PidRun(p, ys).integral
    ensures PidRun(p, xs).previousMeasurement == PidRun(p, ys).previousMeasurement
    ensures PidRun(p, xs).sampled == PidRun(p, ys).sampled
    ensures xs != [] ==> LastOutput(p, xs) <= LastOutput(p, ys)
  {
    if xs != [] {
      var n := |xs| - 1;
      LargerTargetsGiveLargerOutputs(p, xs[..n], ys[..n]);
      RunStaysBounded(p, xs[..n]);
      RunStaysBounded(p, ys[..n]);
      RunOrder(PidRun(p, xs[..n]), PidRun(p, ys[..n]), xs[n], ys[n]);
    }
  }

  /** Every sample's error is at most -e and its step at least d. */
  predicate Overshooting(xs: seq<Sample>, e: real, d: real) {
    forall i | 0 <= i < |xs| :: xs[i].target - xs[i].measurement <= -e && xs[i].dt >= d
  }

  /** What one overshooting update takes off the integral at least. */
  predicate UnwindsBy(c: PidConfig, e: real, d: real, step: real) {
    step == Times(Times(c.ki, e), d)
  }

  /** It does, or it reaches the lower bound. */
  lemma UnwindStep(p: Pid, s: Sample, e: real, d: real, step: real)
    requires PidOk(p) && e > 0.0 && d > 0.0 && s.target - s.measurement <= -e && s.dt >= d
    requires UnwindsBy(p.config, e, d, step)
    ensures var i := Updated(p, s.target, s.measurement, s.dt).integral;
            i == p.config.integralMin || i <= p.integral - step
  {
    var k, error := p.config.ki, s.target - s.measurement;
    var change := Times(Times(k, error), s.dt);
    UnwindProduct(k, error, s.dt, e, d, change, step);
    assert Integral(p, error, s.dt) == ClampedSum(p.integral, change, 0.0, p.config.integralMin, p.config.integralMax);
  }

  lemma UnwindProduct(k: real, error: real, dt: real, e: real, d: real, change: real, step: real)
    requires k >= 0.0 && e > 0.0 && d > 0.0 && error <= -e && dt >= d
    requires change == k * error * dt && step == k * e * d
    ensures change <= -step
  {
    var x, y := k * e, k * -error;
    NamedOrder(k, e, -error, x, y);
    NamedOrder(x, d, dt, step, x * dt);
    NamedOrder(dt, x, y, x * dt, y * dt);
    assert y * dt == -change;
  }

  lemma RunStep(p: Pid, xs: seq<Sample>, i: nat)
    requires i < |xs|
    ensures PidRun(p, xs[..i + 1]) == Updated(PidRun(p, xs[..i]), xs[i].target, xs[i].measurement, xs[i].dt)
  {
    assert xs[..i + 1][..i] == xs[..i];
  }

  /** Values that each fall by `step`, unless they reach `low`. */
  lemma {:induction false} Descent(vals: seq<real>, low: real, step: real)
    requires vals != [] && step >= 0.0
    requires forall i | 0 <= i < |vals| :: vals[i] >= low
    requires forall i | 0 <= i < |vals| - 1 :: vals[i + 1] == low || vals[i + 1] <= vals[i] - step
    ensures vals[|vals| - 1] == low || vals[|vals| - 1] <= vals[0] - Scaled(|vals| - 1, step)
  {
    if |vals| > 1 {
      Descent(vals[..|vals| - 1], low, step);
    }
  }

  function Integrals(p: Pid, xs: seq<Sample>): (vals: seq<real>)
    ensures |vals| == |xs| + 1
    ensures forall i | 0 <= i <= |xs| :: vals[i] == PidRun(p, xs[..i]).integral
  {
    seq(|xs| + 1, i requires 0 <= i <= |xs| => PidRun(p, xs[..i]).integral)
  }

  function Scaled(n: nat, step: real): real {
    if n == 0 then 0.0 else Scaled(n - 1, step) + step
  }

  lemma {:induction false} ScaledIsProduct(n: nat, step: real)
    ensures Scaled(n, step) == n as real * step
  {
    if n > 0 {
      ScaledIsProduct(n - 1, step);
      assert n as real * step == (n - 1) as real * step + step;
    }
  }

  lemma UnwindAt(p: Pid, xs: seq<Sample>, i: nat, e: real, d: real, step: real)
    requires i < |xs| && PidOk(p) && ValidRun(xs) && e > 0.0 && d > 0.0 && Overshooting(xs, e, d)
    requires UnwindsBy(p.config, e, d, step)
    ensures var before, after := PidRun(p, xs[..i]).integral, PidRun(p, xs[..i + 1]).integral;
            after == p.config.integralMin || after <= before - step
  {
    RunStaysBounded(p, xs[..i]);
    RunStep(p, xs, i);
    UnwindStep(PidRun(p, xs[..i]), xs[i], e, d, step);
  }

  lemma UnwindBound(p: Pid, xs: seq<Sample>, e: real, d: real, step: real)
    requires PidOk(p) && ValidRun(xs) && e > 0.0 && d > 0.0 && Overshooting(xs, e, d)
    requires UnwindsBy(p.config, e, d, step) && step >= 0.0
    ensures var i := PidRun(p, xs).integral;
            i == p.config.integralMin || i <= p.integral - Scaled(|xs|, step)
  {
    var vals := Integrals(p, xs);
    forall i: nat | i <= |xs|
      ensures vals[i] >= p.config.integralMin
    {
      RunStaysBounded(p, xs[..i]);
    }
    forall i: nat | i < |xs|
      ensures vals[i + 1] == p.config.integralMin || vals[i + 1] <= vals[i] - step
    {
      UnwindAt(p, xs, i, e, d, step);
    }
    Descent(vals, p.config.integralMin, step);
    assert xs[..|xs|] == xs;
  }

  lemma UnwoundAfter(p: Pid, xs: seq<Sample>, e: real, d: real, step: real)
    requires PidOk(p) && ValidRun(xs) && e > 0.0 && d > 0.0 && Overshooting(xs, e, d)
    requires UnwindsBy(p.config, e, d, step) && step >= 0.0
    requires Scaled(|xs|, step) >= p.config.integralMax - p.config.integralMin
    ensures PidRun(p, xs).integral == p.config.integralMin
  {
    UnwindBound(p, xs, e, d, step);
    RunStaysBounded(p, xs);
  }

  /** Anti-windup has a deadline: from anywhere in its range the integral is at its lower bound after
      (integralMax - integralMin) / (ki * e * d) overshooting updates, rounded up. */
  lemma UnwindsInTime(p: Pid, xs: seq<Sample>, e: real, d: real)
    requires PidOk(p) && p.config.ki > 0.0 && ValidRun(xs) && e > 0.0 && d > 0.0 && Overshooting(xs, e, d)
    requires |xs| as real * (p.config.ki * e * d) >= p.config.integralMax - p.config.integralMin
    ensures PidRun(p, xs).integral == p.config.integralMin
  {
    var step := p.config.ki * e * d;
    PositiveProduct(p.config.ki, e);
    PositiveProduct(p.config.ki * e, d);
    ScaledIsProduct(|xs|, step);
    UnwoundAfter(p, xs, e, d, step);
  }

  // The loop against its textbook form.

  /** The errors of a run, each weighted by its step of time. */
  function ErrorArea(xs: seq<Sample>): real {
    if xs == [] then 0.0
    else
      var last := xs[|xs| - 1];
      ErrorArea(xs[..|xs| - 1]) + (last.target - last.measurement) * last.dt
  }

  /** What the integral would be without its clamp. */
  function FreeIntegral(p: Pid, xs: seq<Sample>): real {
    p.integral + Times(p.config.ki, ErrorArea(xs))
  }

  /** The integral never meets its clamp. */
  predicate Unclamped(p: Pid, xs: seq<Sample>) {
    forall n | 0 <= n <= |xs| :: p.config.integralMin <= FreeIntegral(p, xs[..n]) <= p.config.integralMax
  }

  lemma AreaStep(k: real, area: real, error: real, dt: real)
    ensures Times(k, area + error * dt) == Times(k, area) + Times(Times(k, error), dt)
  {
    assert k * (error * dt) == k * error * dt;
  }

  lemma FreeStep(p: Pid, xs: seq<Sample>)
    requires xs != []
    ensures var init, last := xs[..|xs| - 1], xs[|xs| - 1];
            FreeIntegral(p, xs) ==
            FreeIntegral(p, init) + Times(Times(p.config.ki, last.target - last.measurement), last.dt)
  {
    var init, last := xs[..|xs| - 1], xs[|xs| - 1];
    AreaStep(p.config.ki, ErrorArea(init), last.target - last.measurement, last.dt);
  }

  lemma UnclampedInit(p: Pid, xs: seq<Sample>)
    requires Unclamped(p, xs) && xs != []
    ensures Unclamped(p, xs[..|xs| - 1])
    ensures p.config.integralMin <= FreeIntegral(p, xs) <= p.config.integralMax
  {
    var init := xs[..|xs| - 1];
    assert forall n | 0 <= n <= |init| :: init[..n] == xs[..n];
    assert xs[..|xs|] == xs;
  }

  /** A loop that does not meet its clamp integrates. */
  lemma {:induction false} IntegralIsTheArea(p: Pid, xs: seq<Sample>)
    requires Unclamped(p, xs)
    ensures PidRun(p, xs).integral == FreeIntegral(p, xs) && PidRun(p, xs).config == p.config
  {
    if xs != [] {
      UnclampedInit(p, xs);
      IntegralIsTheArea(p, xs[..|xs| - 1]);
      FreeStep(p, xs);
    }
  }

  /** The textbook sum: error, accumulated error, and speed counted against the motion. */
  function Textbook(c: PidConfig, error: real, area: real, speed: real): real {
    Times(c.kp, error) + area - Times(c.kd, speed)
  }

  lemma OutputIsTextbook(q: Pid, target: real, measurement: real, dt: real)
    requires dt > 0.0 && q.sampled
    ensures var c, error := q.config, target - measurement;
            var sum := Textbook(c, error, Integral(q, error, dt), (measurement - q.previousMeasurement) / dt);
            Output(q, target, measurement, dt) ==
            if sum < c.outputMin then c.outputMin else if sum > c.outputMax then c.outputMax else sum
  {
    SpeedOpposes(q.config.kd, measurement - q.previousMeasurement, dt);
  }

  /** The first update of a run has no speed to go by, and takes none: there is no kick. */
  lemma FirstOutputHasNoKick(q: Pid, target: real, measurement: real, dt: real)
    requires dt > 0.0 && !q.sampled
    ensures var c, error := q.config, target - measurement;
            var sum := Textbook(c, error, Integral(q, error, dt), 0.0);
            Output(q, target, measurement, dt) ==
            if sum < c.outputMin then c.outputMin else if sum > c.outputMax then c.outputMax else sum
  {
    assert Derivative(q, measurement, dt) == 0.0;
  }

  lemma SpeedOpposes(k: real, moved: real, dt: real)
    requires dt > 0.0
    ensures Times(k, -moved / dt) == -Times(k, moved / dt)
  {
    assert -moved / dt == -(moved / dt);
  }

  /** The loop is the textbook one. Over every run that does not meet the clamp of the integral, the output is the
      weighted sum of the last error, of all errors over time, and of the last speed of the measurement, counted
      against the motion, and saturated. */
  lemma LoopIsTextbook(p: Pid, xs: seq<Sample>)
    requires ValidRun(xs) && |xs| >= 2 && Unclamped(p, xs)
    ensures var c, y, z := p.config, xs[|xs| - 2], xs[|xs| - 1];
            var speed := (z.measurement - y.measurement) / z.dt;
            var sum := Textbook(c, z.target - z.measurement, FreeIntegral(p, xs), speed);
            LastOutput(p, xs) ==
            if sum < c.outputMin then c.outputMin else if sum > c.outputMax then c.outputMax else sum
  {
    var n := |xs| - 1;
    var q, z := PidRun(p, xs[..n]), xs[n];
    UnclampedInit(p, xs);
    IntegralIsTheArea(p, xs[..n]);
    IntegralIsTheArea(p, xs);
    assert xs[..n][n - 1] == xs[n - 1];
    OutputIsTextbook(q, z.target, z.measurement, z.dt);
  }
}
