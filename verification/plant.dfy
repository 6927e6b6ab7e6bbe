/** The simulated axis: a damped cart between two stops, stepped by semi-implicit Euler. */
module PlantModel {
  import opened Words
  import opened Floats
  import opened MotorGate
  import opened Encoders
  import opened MotionControl

  datatype PlantConfig = PlantConfig(
    motorGain: real, damping: real, maxVelocity: real, minPosition: real, maxPosition: real,
    countsPerUnit: real, stepMs: Word)

  datatype PlantState = PlantState(
    position: real, velocity: real, acceleration: real, appliedPwm: real,
    count: Count, negativeLimit: bool, positiveLimit: bool, steps: nat)

  const DEFAULT_PLANT := PlantConfig(2000.0, 4.0, 600.0, 0.0, 5000.0, 1.0, 1)

  const STEPS_MAXIMUM := 0xffff_ffff_ffff_ffff

  function StepTime(c: PlantConfig): real {
    c.stepMs as real / 1000.0
  }

  /** What plant_init demands of a configuration of finite numbers. */
  predicate ValidPlant(c: PlantConfig) {
    && c.motorGain > 0.0 && c.damping >= 0.0 && c.maxVelocity > 0.0 && c.minPosition < c.maxPosition
    && c.countsPerUnit > 0.0 && 0 < c.stepMs <= 1000
    && c.damping * StepTime(c) <= 1.0
    && -2147483648.0 <= c.minPosition * c.countsPerUnit && c.maxPosition * c.countsPerUnit <= 2147483647.0
  }

  /** The nearest integer, halfway values away from zero. */
  function Round(x: real): int {
    if x >= 0.0 then (x + 0.5).Floor else -(0.5 - x).Floor
  }

  predicate InTravel(c: PlantConfig, position: real) {
    c.minPosition <= position <= c.maxPosition
  }

  lemma RoundOrder(x: real, y: real)
    requires x <= y
    ensures Round(x) <= Round(y)
  {
  }

  lemma CountInRange(c: PlantConfig, position: real)
    requires ValidPlant(c) && InTravel(c, position)
    ensures -0x8000_0000 <= Round(position * c.countsPerUnit) < 0x8000_0000
  {
    var k := c.countsPerUnit;
    var low, x, high := c.minPosition * k, position * k, c.maxPosition * k;
    NamedOrder(k, c.minPosition, position, low, x);
    NamedOrder(k, position, c.maxPosition, x, high);
    RoundOrder(-2147483648.0, x);
    RoundOrder(x, 2147483647.0);
  }

  function Derived(c: PlantConfig, s: PlantState): PlantState
    requires ValidPlant(c) && InTravel(c, s.position)
  {
    CountInRange(c, s.position);
    s.(count := Round(s.position * c.countsPerUnit),
       negativeLimit := s.position <= c.minPosition, positiveLimit := s.position >= c.maxPosition)
  }

  function Placed(c: PlantConfig, position: real): (s: PlantState)
    requires ValidPlant(c) && InTravel(c, position)
    ensures PlantOk(c, s) && s.position == position && s.velocity == 0.0
  {
    Derived(c, PlantState(position, 0.0, 0.0, 0.0, 0, false, false, 0))
  }

  function Acceleration(c: PlantConfig, s: PlantState, pwm: real): real {
    c.motorGain * pwm - c.damping * s.velocity
  }

  function FreeVelocity(c: PlantConfig, s: PlantState, pwm: real): real {
    Clamp(s.velocity + Acceleration(c, s, pwm) * StepTime(c), -c.maxVelocity, c.maxVelocity)
  }

  /** The stops: no position beyond them, no velocity into them. */
  function Bounded(c: PlantConfig, s: PlantState): PlantState {
    if s.position <= c.minPosition then
      s.(position := c.minPosition, velocity := if s.velocity < 0.0 then 0.0 else s.velocity)
    else if s.position >= c.maxPosition then
      s.(position := c.maxPosition, velocity := if s.velocity > 0.0 then 0.0 else s.velocity)
    else s
  }

  /** The step before the stops: velocity first, and the position with the new velocity. */
  function Integrated(c: PlantConfig, s: PlantState, pwm: real): PlantState {
    var v := FreeVelocity(c, s, pwm);
    s.(appliedPwm := pwm, acceleration := Acceleration(c, s, pwm), velocity := v,
       position := s.position + v * StepTime(c))
  }

  function PlantStepped(c: PlantConfig, s: PlantState, pwm: real, stalled: bool): PlantState
    requires ValidPlant(c)
  {
    var moved := Integrated(c, s, pwm);
    var held := if stalled then moved.(position := s.position, velocity := 0.0, acceleration := 0.0) else moved;
    Derived(c, Bounded(c, held.(steps := s.steps + 1)))
  }

  /** The input port that the plant's switches drive. */
  class GpioHost {
    var initialized: bool
    var inputs: Inputs

    constructor ()
      ensures initialized && inputs == NO_INPUTS
    {
      initialized, inputs := true, NO_INPUTS;
    }
  }

  class Plant {
    const motor: Motor
    const encoder: EncoderDriver
    const gpio: GpioHost
    var config: PlantConfig
    var state: PlantState
    var initialized: bool
    var stalled: bool
    var encoderFrozen: bool

    ghost predicate Valid()
      reads this
    {
      initialized ==> ValidPlant(config)
    }

    constructor (motor: Motor, encoder: EncoderDriver, gpio: GpioHost)
      ensures Valid() && !initialized && !stalled && !encoderFrozen
      ensures this.motor == motor && this.encoder == encoder && this.gpio == gpio
    {
      this.motor, this.encoder, this.gpio := motor, encoder, gpio;
      config, initialized, stalled, encoderFrozen := DEFAULT_PLANT, false, false, false;
      state := PlantState(0.0, 0.0, 0.0, 0.0, 0, false, false, 0);
    }

    /** Count and limits reach the peripherals together, or not at all. */
    method Publish(s: PlantState, frozen: bool) returns (ok: bool)
      modifies encoder, gpio
      ensures ok == (old(encoder.initialized) && old(gpio.initialized))
      ensures gpio.initialized == old(gpio.initialized)
      ensures encoder.View() == if ok && !frozen then RawSet(old(encoder.View()), s.count) else old(encoder.View())
      ensures gpio.inputs == if ok
                             then old(gpio.inputs).(negativeLimit := s.negativeLimit, positiveLimit := s.positiveLimit)
                             else old(gpio.inputs)
    {
      ok := encoder.initialized && gpio.initialized;
      if ok {
        if !frozen {
          ok := encoder.HostSetCount(s.count);
        }
        gpio.inputs := gpio.inputs.(negativeLimit := s.negativeLimit);
        gpio.inputs := gpio.inputs.(positiveLimit := s.positiveLimit);
      }
    }

    method Init(c: PlantConfig, position: Float) returns (ok: bool)
      requires Valid()
      modifies this, motor, encoder, gpio
      ensures Valid()
      ensures ok == (ValidPlant(c) && position.Finite? && InTravel(c, position.value) &&
                     old(encoder.initialized) && old(gpio.initialized))
      ensures ok ==> initialized && !stalled && !encoderFrozen && config == c && state == Placed(c, position.value)
      ensures ok ==> motor.View() == Disabled(old(motor.View()))
      ensures ok ==> encoder.View() == RawSet(old(encoder.View()), state.count)
      ensures ok ==> gpio.inputs == old(gpio.inputs).(negativeLimit := state.negativeLimit,
                                                      positiveLimit := state.positiveLimit)
      ensures !ok ==> config == old(config) && state == old(state) && initialized == old(initialized)
      ensures !ok ==> stalled == old(stalled) && encoderFrozen == old(encoderFrozen)
      ensures !ok ==> motor.View() == old(motor.View()) && encoder.View() == old(encoder.View())
      ensures gpio.initialized == old(gpio.initialized) && (!ok ==> gpio.inputs == old(gpio.inputs))
    {
      if !ValidPlant(c) || position.NotFinite? || !InTravel(c, position.value) {
        return false;
      }
      var placed := Placed(c, position.value);
      ok := Publish(placed, false);
      if !ok {
        return;
      }
      motor.Disable();
      config, state, initialized, stalled, encoderFrozen := c, placed, true, false, false;
    }

    static method Integrate(c: PlantConfig, s: PlantState, pwm: real) returns (next: PlantState)
      requires c.maxVelocity > 0.0
      ensures next == Integrated(c, s, pwm)
    {
      var dt := c.stepMs as real / 1000.0;
      next := s.(appliedPwm := pwm);
      next := next.(acceleration := c.motorGain * next.appliedPwm - c.damping * next.velocity);
      assert next.acceleration == Acceleration(c, s, pwm) && dt == StepTime(c);
      next := next.(velocity := next.velocity + next.acceleration * dt);
      assert next.velocity == s.velocity + Acceleration(c, s, pwm) * StepTime(c);
      if next.velocity > c.maxVelocity {
        next := next.(velocity := c.maxVelocity);
      }
      if next.velocity < -c.maxVelocity {
        next := next.(velocity := -c.maxVelocity);
      }
      assert next.velocity == FreeVelocity(c, s, pwm);
      next := next.(position := next.position + next.velocity * dt);
    }

    static method Stop(c: PlantConfig, s: PlantState) returns (next: PlantState)
      requires c.minPosition < c.maxPosition
      ensures next == Bounded(c, s)
    {
      next := s;
      if next.position <= c.minPosition {
        next := next.(position := c.minPosition);
        if next.velocity < 0.0 {
          next := next.(velocity := 0.0);
        }
      }
      if next.position >= c.maxPosition {
        next := next.(position := c.maxPosition);
        if next.velocity > 0.0 {
          next := next.(velocity := 0.0);
        }
      }
    }

    method Step() returns (ok: bool)
      requires Valid()
      modifies this`state, encoder, gpio
      ensures Valid()
      ensures ok == (initialized && old(state).steps < STEPS_MAXIMUM
                     && old(encoder.initialized) && old(gpio.initialized))
      ensures state == if ok then PlantStepped(config, old(state), motor.output, stalled) else old(state)
      ensures encoder.View() == if ok && !encoderFrozen then RawSet(old(encoder.View()), state.count)
                                else old(encoder.View())
      ensures gpio.inputs == if ok
                             then old(gpio.inputs).(negativeLimit := state.negativeLimit,
                                                    positiveLimit := state.positiveLimit)
                             else old(gpio.inputs)
    {
      if !initialized || state.steps >= STEPS_MAXIMUM {
        return false;
      }
      var next := Integrate(config, state, motor.output);
      if stalled {
        next := next.(position := state.position, velocity := 0.0, acceleration := 0.0);
      }
      next := Stop(config, next);
      next := next.(steps := next.steps + 1);
      next := Derived(config, next);
      ok := Publish(next, encoderFrozen);
      if ok {
        state := next;
      }
    }
  }

  // Whatever the drive does.

  /** The bounds the plant never leaves, and a published count and limits that agree with its position. */
  predicate PlantOk(c: PlantConfig, s: PlantState)
    requires ValidPlant(c)
  {
    && InTravel(c, s.position) && -c.maxVelocity <= s.velocity <= c.maxVelocity
    && s == Derived(c, s)
  }

  lemma StepStaysInBounds(c: PlantConfig, s: PlantState, pwm: real, stalled: bool)
    requires ValidPlant(c)
    ensures var t := PlantStepped(c, s, pwm, stalled);
            PlantOk(c, t) && !(t.negativeLimit && t.positiveLimit)
  {
    var moved := Integrated(c, s, pwm);
    var held := if stalled then moved.(position := s.position, velocity := 0.0, acceleration := 0.0) else moved;
    BoundedStays(c, held.(steps := s.steps + 1));
  }

  /** A plant at rest in travel is left alone by the stops, and shows what it showed. */
  lemma RestIsShown(c: PlantConfig, s: PlantState, t: PlantState)
    requires ValidPlant(c) && PlantOk(c, s) && t.position == s.position && t.velocity == 0.0
    ensures var u := Derived(c, Bounded(c, t));
            && u.position == s.position && u.velocity == 0.0 && u.count == s.count && u.appliedPwm == t.appliedPwm
            && u.negativeLimit == s.negativeLimit && u.positiveLimit == s.positiveLimit
  {
    assert Bounded(c, t) == t;
  }

  /** A stalled plant stays where it is, at rest, whatever the drive, and shows what it showed. */
  lemma StalledStays(c: PlantConfig, s: PlantState, pwm: real)
    requires ValidPlant(c) && PlantOk(c, s)
    ensures var t := PlantStepped(c, s, pwm, true);
            && t.position == s.position && t.velocity == 0.0 && t.count == s.count && t.appliedPwm == pwm
            && t.negativeLimit == s.negativeLimit && t.positiveLimit == s.positiveLimit
  {
    var moved := Integrated(c, s, pwm);
    RestIsShown(c, s, moved.(position := s.position, velocity := 0.0, acceleration := 0.0, steps := s.steps + 1));
  }

  lemma BoundedStays(c: PlantConfig, s: PlantState)
    requires ValidPlant(c) && -c.maxVelocity <= s.velocity <= c.maxVelocity
    ensures var t := Derived(c, Bounded(c, s)); PlantOk(c, t) && !(t.negativeLimit && t.positiveLimit)
  {
    DerivedIsOk(c, Bounded(c, s));
  }

  lemma DerivedIsOk(c: PlantConfig, s: PlantState)
    requires ValidPlant(c) && InTravel(c, s.position) && -c.maxVelocity <= s.velocity <= c.maxVelocity
    ensures PlantOk(c, Derived(c, s)) && !(Derived(c, s).negativeLimit && Derived(c, s).positiveLimit)
  {
    var t := Derived(c, s);
    assert t.position == s.position;
    assert Derived(c, t) == t;
  }

  /** The drive of one step, and whether the cart is held fast. */
  datatype Drive = Drive(pwm: real, stalled: bool)

  ghost predicate PlantRun(c: PlantConfig, ss: seq<PlantState>, ds: seq<Drive>)
    requires ValidPlant(c)
  {
    && |ss| == |ds| + 1
    && forall i | 0 <= i < |ds| :: ss[i + 1] == PlantStepped(c, ss[i], ds[i].pwm, ds[i].stalled)
  }

  /** For every sequence of duties, held fast or not, the plant stays inside its travel and its speed, never
      touches both stops, and its counts agree with its position and fit 32 bits. */
  lemma RunStaysInBounds(c: PlantConfig, ss: seq<PlantState>, ds: seq<Drive>, n: nat)
    requires ValidPlant(c) && PlantRun(c, ss, ds) && n <= |ds| && PlantOk(c, ss[0])
    ensures PlantOk(c, ss[n]) && !(ss[n].negativeLimit && ss[n].positiveLimit)
  {
    if n > 0 {
      StepStaysInBounds(c, ss[n - 1], ds[n - 1].pwm, ds[n - 1].stalled);
    }
  }

  // Without drive.

  /** What is left of a velocity after one step without drive. */
  function Decay(c: PlantConfig): real {
    1.0 - c.damping * StepTime(c)
  }

  /** How far a velocity carries the plant from where it is now, if nothing stops it. */
  function Reach(c: PlantConfig, v: real): real
    requires c.damping > 0.0
  {
    v * (Decay(c) / c.damping)
  }

  lemma ReachIsTight(v: real, d: real, dt: real, r: real)
    requires d > 0.0 && r == 1.0 - d * dt
    ensures v * r * dt + v * r * (r / d) == v * (r / d)
  {
    var k := r / d;
    assert k * d == r;
    assert d * (r * dt + r * k) == r * (d * dt) + r * (k * d);
    assert d * (r * dt + r * k) == r == d * k;
    assert r * dt + r * k == k;
    assert v * (r * dt + r * k) == v * r * dt + v * r * k;
  }

  lemma ProductSign(x: real, y: real)
    requires x >= 0.0 && y >= 0.0
    ensures x * y >= 0.0
  {
  }

  lemma DecayKeepsSign(v: real, r: real, m: real)
    requires 0.0 <= r <= 1.0 && -m <= v <= m
    ensures if v >= 0.0 then 0.0 <= v * r <= v else v <= v * r <= 0.0
  {
    assert v * r == v - v * (1.0 - r);
  }

  lemma FreeDecay(c: PlantConfig, s: PlantState)
    requires ValidPlant(c) && -c.maxVelocity <= s.velocity <= c.maxVelocity
    ensures 0.0 <= Decay(c) <= 1.0
    ensures FreeVelocity(c, s, 0.0) == s.velocity * Decay(c)
  {
    var d, dt, v := c.damping, StepTime(c), s.velocity;
    ProductSign(d, dt);
    assert Acceleration(c, s, 0.0) == -(d * v);
    assert -(d * v) * dt == -(v * (d * dt));
    assert v * Decay(c) == v - v * (d * dt);
    DecayKeepsSign(v, Decay(c), c.maxVelocity);
  }

  predicate CoastsUp(s: PlantState, t: PlantState, before: real, after: real) {
    t.velocity >= 0.0 && s.position <= t.position && t.position + after <= s.position + before
  }

  predicate CoastsDown(s: PlantState, t: PlantState, before: real, after: real) {
    t.velocity <= 0.0 && t.position <= s.position && s.position + before <= t.position + after
  }

  /** Without drive: the velocity keeps its sign, the position goes its way, and the place that could still
      be reached comes no further out. */
  predicate Coasts(c: PlantConfig, s: PlantState, t: PlantState)
    requires c.damping > 0.0
  {
    && (s.velocity >= 0.0 ==> CoastsUp(s, t, Reach(c, s.velocity), Reach(c, t.velocity)))
    && (s.velocity <= 0.0 ==> CoastsDown(s, t, Reach(c, s.velocity), Reach(c, t.velocity)))
  }

  lemma ReachSign(c: PlantConfig, v: real)
    requires ValidPlant(c) && c.damping > 0.0
    ensures v >= 0.0 ==> Reach(c, v) >= 0.0
    ensures v <= 0.0 ==> Reach(c, v) <= 0.0
  {
    assert Decay(c) / c.damping >= 0.0;
  }

  /** One coasting step in scalars: v is the new velocity, dx the way it makes, k what Reach multiplies by. */
  lemma CoastScalars(c: PlantConfig, s: PlantState)
    requires ValidPlant(c) && PlantOk(c, s) && c.damping > 0.0
    ensures var v := FreeVelocity(c, s, 0.0);
            && v * StepTime(c) + Reach(c, v) == Reach(c, s.velocity)
            && (s.velocity >= 0.0 ==> v >= 0.0 && v * StepTime(c) >= 0.0)
            && (s.velocity <= 0.0 ==> v <= 0.0 && v * StepTime(c) <= 0.0)
  {
    FreeDecay(c, s);
    var v, r, dt := s.velocity, Decay(c), StepTime(c);
    DecayKeepsSign(v, r, c.maxVelocity);
    ReachIsTight(v, c.damping, dt, r);
    if v * r >= 0.0 {
      ProductSign(v * r, dt);
    } else {
      ProductSign(-(v * r), dt);
    }
  }

  lemma CoastStep(c: PlantConfig, s: PlantState, stalled: bool)
    requires ValidPlant(c) && PlantOk(c, s) && c.damping > 0.0
    ensures Coasts(c, s, PlantStepped(c, s, 0.0, stalled))
  {
    CoastScalars(c, s);
    var v := FreeVelocity(c, s, 0.0);
    ReachSign(c, s.velocity);
    ReachSign(c, v);
    ReachSign(c, 0.0);
    StepCases(c, s, stalled);
  }

  /** The outcomes of a step without drive: it goes through, or a stop or the hold takes the velocity away. */
  lemma StepCases(c: PlantConfig, s: PlantState, stalled: bool)
    requires ValidPlant(c) && PlantOk(c, s)
    ensures var t, v := PlantStepped(c, s, 0.0, stalled), FreeVelocity(c, s, 0.0);
            var dx := v * StepTime(c);
            || (t.velocity == v && t.position == s.position + dx)
            || (t.velocity == 0.0 && t.position == s.position)
            || (v < 0.0 && t.velocity == 0.0 && t.position == c.minPosition >= s.position + dx)
            || (v > 0.0 && t.velocity == 0.0 && t.position == c.maxPosition <= s.position + dx)
            || (v >= 0.0 && t.velocity == v && t.position == c.minPosition >= s.position + dx)
            || (v <= 0.0 && t.velocity == v && t.position == c.maxPosition <= s.position + dx)
  {
    var v := FreeVelocity(c, s, 0.0);
    var dx := v * StepTime(c);
    var moved := Integrated(c, s, 0.0);
    assert moved.velocity == v && moved.position == s.position + dx;
    StopCases(c, s, moved, v, dx);
  }

  lemma StopCases(c: PlantConfig, s: PlantState, moved: PlantState, v: real, dx: real)
    requires c.minPosition < c.maxPosition && InTravel(c, s.position)
    requires moved.velocity == v && moved.position == s.position + dx
    ensures var t := Bounded(c, moved);
            || (t.velocity == v && t.position == s.position + dx)
            || (v < 0.0 && t.velocity == 0.0 && t.position == c.minPosition >= s.position + dx)
            || (v > 0.0 && t.velocity == 0.0 && t.position == c.maxPosition <= s.position + dx)
            || (v >= 0.0 && t.velocity == v && t.position == c.minPosition >= s.position + dx)
            || (v <= 0.0 && t.velocity == v && t.position == c.maxPosition <= s.position + dx)
  {
  }

  lemma CoastsOn(c: PlantConfig, s: PlantState, t: PlantState, u: PlantState)
    requires c.damping > 0.0 && Coasts(c, s, t) && Coasts(c, t, u)
    ensures Coasts(c, s, u)
  {
  }

  ghost predicate Undriven(ds: seq<Drive>) {
    forall i | 0 <= i < |ds| :: ds[i].pwm == 0.0
  }

  /** Without drive the velocity never changes its sign, and however long the plant coasts, it travels
      less than its velocity over the damping. */
  lemma CoastIsBounded(c: PlantConfig, ss: seq<PlantState>, ds: seq<Drive>, n: nat)
    requires ValidPlant(c) && c.damping > 0.0
    requires PlantRun(c, ss, ds) && Undriven(ds) && n <= |ds| && PlantOk(c, ss[0])
    ensures ss[0].velocity >= 0.0 ==> ss[n].velocity >= 0.0
    ensures ss[0].velocity <= 0.0 ==> ss[n].velocity <= 0.0
    ensures ss[0].velocity != 0.0 ==> Abs(ss[n].position - ss[0].position) < Abs(ss[0].velocity) / c.damping
    ensures ss[0].velocity == 0.0 ==> ss[n].position == ss[0].position
  {
    var v := ss[0].velocity;
    for i := 0 to n
      invariant PlantOk(c, ss[i]) && Coasts(c, ss[0], ss[i])
    {
      CoastStep(c, ss[i], ds[i].stalled);
      CoastsOn(c, ss[0], ss[i], ss[i + 1]);
      StepStaysInBounds(c, ss[i], 0.0, ds[i].stalled);
    }
    ReachSign(c, ss[n].velocity);
    ReachIsShort(c, v);
    QuotientSign(v, c.damping);
  }

  lemma QuotientSign(v: real, d: real)
    requires d > 0.0
    ensures Abs(v) / d == if v < 0.0 then -(v / d) else v / d
  {
    QuotientIsProduct(v, d, 1.0 / d);
    QuotientIsProduct(-v, d, 1.0 / d);
  }

  lemma ReachIsShort(c: PlantConfig, v: real)
    requires ValidPlant(c) && c.damping > 0.0
    ensures v > 0.0 ==> Reach(c, v) < v / c.damping
    ensures v < 0.0 ==> Reach(c, v) > v / c.damping
    ensures v == 0.0 ==> Reach(c, v) == 0.0
  {
    var d, r := c.damping, Decay(c);
    var k, whole := r / d, 1.0 / d;
    DecayIsBelowOne(d, StepTime(c), r, k, whole);
    SmallerFactor(v, k, whole);
    QuotientIsProduct(v, d, whole);
  }

  lemma DecayIsBelowOne(d: real, dt: real, r: real, k: real, whole: real)
    requires d > 0.0 && dt > 0.0 && r == 1.0 - d * dt && k == r / d && whole == 1.0 / d
    ensures k < whole
  {
    PositiveProduct(d, dt);
    QuotientIsProduct(r, d, whole);
    PositiveProduct(whole, 1.0 - r);
  }

  lemma QuotientIsProduct(x: real, d: real, whole: real)
    requires d > 0.0 && whole == 1.0 / d
    ensures whole > 0.0 && x / d == x * whole
  {
  }

  lemma SmallerFactor(v: real, k: real, m: real)
    requires k < m
    ensures v > 0.0 ==> v * k < v * m
    ensures v < 0.0 ==> v * k > v * m
    ensures v == 0.0 ==> v * k == 0.0
  {
    if v > 0.0 {
      PositiveProduct(v, m - k);
    } else if v < 0.0 {
      PositiveProduct(-v, m - k);
    }
  }
}
