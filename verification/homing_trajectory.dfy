/** The default plant under the homing drive, step by step and in closed form. */
module HomingTrajectory {
  import opened Floats
  import opened MotionControl
  import opened PlantModel

  /** The velocity after n steps under the homing drive, nothing in the way. */
  function Speed(v: real, n: nat): real {
    if n == 0 then v else 0.996 * Speed(v, n - 1) - 0.6
  }

  /** The position after n steps under the homing drive, nothing in the way. */
  function Place(x: real, v: real, n: nat): real {
    if n == 0 then x else Place(x, v, n - 1) + 0.001 * Speed(v, n)
  }

  /** One step of the plant under the homing drive. */
  lemma HomingStep(s: PlantState)
    requires ValidPlant(DEFAULT_PLANT) && PlantOk(DEFAULT_PLANT, s)
    ensures var t := PlantStepped(DEFAULT_PLANT, s, HOMING_PWM, false);
            var v := 0.996 * s.velocity - 0.6;
            var x := s.position + 0.001 * v;
            && (0.0 < x < 5000.0 ==> t.velocity == v && t.position == x)
            && (x <= 0.0 ==> t.velocity == 0.0 && t.position == 0.0)
            && (x >= 5000.0 ==> t.position == 5000.0)
  {
    assert StepTime(DEFAULT_PLANT) == 0.001;
    assert FreeVelocity(DEFAULT_PLANT, s, HOMING_PWM) == 0.996 * s.velocity - 0.6;
  }

  /** Pressed against the switch, or left there without drive, the plant stays. */
  lemma RestsOnSwitch(s: PlantState, pwm: real)
    requires ValidPlant(DEFAULT_PLANT) && s.position == 0.0 && s.velocity == 0.0 && (pwm == 0.0 || pwm == HOMING_PWM)
    ensures var t := PlantStepped(DEFAULT_PLANT, s, pwm, false);
            t.position == 0.0 && t.velocity == 0.0 && t.negativeLimit && !t.positiveLimit && t.count == 0
  {
    assert StepTime(DEFAULT_PLANT) == 0.001;
    assert FreeVelocity(DEFAULT_PLANT, s, pwm) == 2.0 * pwm;
  }

  lemma {:induction false} SpeedBounds(v: real, n: nat)
    requires -600.0 <= v <= 600.0
    ensures -600.0 <= Speed(v, n) <= 600.0
  {
    if n > 0 {
      SpeedBounds(v, n - 1);
    }
  }

  /** Where the plant would come to if its excess over the final speed of -150 were spent. */
  function Potential(x: real, v: real): real {
    x + 0.249 * (v + 150.0)
  }

  /** The potential falls by the same amount at every step. */
  lemma {:induction false} PotentialFalls(x: real, v: real, n: nat)
    ensures Potential(Place(x, v, n), Speed(v, n)) == Potential(x, v) - 0.15 * n as real
  {
    if n > 0 {
      PotentialFalls(x, v, n - 1);
    }
  }

  /** No start in travel is farther from the switch than this many steps. */
  const LATEST_CONTACT := 35326

  lemma ContactIsInevitable(x: real, v: real, n: nat)
    requires x <= 5000.0 && -600.0 <= v <= 600.0 && n >= LATEST_CONTACT
    ensures Place(x, v, n) <= 0.0
  {
    PotentialFalls(x, v, n);
    SpeedBounds(v, n);
  }

  // The outward excursion of a plant that was moving away from the switch.

  /** The farthest position of the trajectory. */
  function Peak(x: real, v: real): (p: real)
    ensures p >= x
    decreases (v * 2.0).Floor
  {
    var w := 0.996 * v - 0.6;
    if w <= 0.0 then x else Peak(x + 0.001 * w, w)
  }

  lemma {:induction false} TrajectoryRestarts(x: real, v: real, n: nat)
    ensures Speed(v, n + 1) == Speed(0.996 * v - 0.6, n)
    ensures Place(x, v, n + 1) == Place(x + 0.001 * (0.996 * v - 0.6), 0.996 * v - 0.6, n)
  {
    if n > 0 {
      TrajectoryRestarts(x, v, n - 1);
    } else {
      assert Speed(v, 0) == v && Place(x, v, 0) == x && Speed(v, 1) == 0.996 * v - 0.6;
    }
  }

  lemma {:induction false} InwardsStaysInwards(x: real, v: real, n: nat)
    requires 0.996 * v - 0.6 <= 0.0
    ensures n > 0 ==> Speed(v, n) <= 0.0
    ensures Place(x, v, n) <= x
  {
    if n > 0 {
      InwardsStaysInwards(x, v, n - 1);
    }
  }

  /** The trajectory never passes its peak. */
  lemma {:induction false} NeverPassesPeak(x: real, v: real, n: nat)
    ensures Place(x, v, n) <= Peak(x, v)
    decreases n
  {
    var w := 0.996 * v - 0.6;
    if w <= 0.0 {
      InwardsStaysInwards(x, v, n);
    } else if n > 0 {
      TrajectoryRestarts(x, v, n - 1);
      NeverPassesPeak(x + 0.001 * w, w, n - 1);
    }
  }

  /** The trajectory reaches its peak, on the way out. */
  lemma {:induction false} ReachesPeak(x: real, v: real) returns (n: nat)
    ensures Place(x, v, n) == Peak(x, v)
    ensures forall m: nat | m <= n :: Place(x, v, m) >= x
    decreases (v * 2.0).Floor
  {
    var w := 0.996 * v - 0.6;
    n := 0;
    if w > 0.0 {
      n := ReachesPeak(x + 0.001 * w, w);
      forall m: nat | 0 < m <= n + 1
        ensures Place(x, v, m) >= x
      {
        TrajectoryRestarts(x, v, m - 1);
      }
      TrajectoryRestarts(x, v, n);
      n := n + 1;
    }
  }

  /** A bound on the excursion that needs no iteration. */
  lemma {:induction false} PeakBound(x: real, v: real)
    ensures Peak(x, v) <= x + 0.249 * (if v > 0.0 then v else 0.0)
    decreases (v * 2.0).Floor
  {
    var w := 0.996 * v - 0.6;
    if w > 0.0 {
      PeakBound(x + 0.001 * w, w);
    }
  }

  // How long the plant can be slow.

  /** Slower than one count in ten steps. */
  predicate Slow(v: real, n: nat) {
    -100.0 < Speed(v, n) < 100.0
  }

  /** A quantity that loses four parts in a thousand at every step. */
  function Fading(u: real, n: nat): real {
    if n == 0 then u else 0.996 * Fading(u, n - 1)
  }

  ghost predicate FadesTo(n: nat, f: real) {
    forall u: real | u >= 0.0 :: 0.0 <= Fading(u, n) <= f * u
  }

  lemma {:induction false} FadingSplits(u: real, j: nat, k: nat)
    ensures Fading(u, j + k) == Fading(Fading(u, j), k)
  {
    if k > 0 {
      FadingSplits(u, j, k - 1);
    }
  }

  lemma FadesTogether(j: nat, f: real, k: nat, g: real, h: real)
    requires FadesTo(j, f) && FadesTo(k, g) && f >= 0.0 && g >= 0.0 && f * g <= h
    ensures FadesTo(j + k, h)
  {
    var n := j + k;
    forall u: real | u >= 0.0
      ensures 0.0 <= Fading(u, n) <= h * u
    {
      FadingSplits(u, j, k);
      var m := Fading(u, j);
      ProductOrder(g, m, f * u);
      ProductOrder(u, f * g, h);
      assert g * (f * u) == u * (f * g);
    }
  }

  /** By doubling. */
  lemma FadingLadder()
    ensures FadesTo(4, 0.98411) && FadesTo(8, 0.96848) && FadesTo(32, 0.87977) && FadesTo(128, 0.59908)
    ensures FadesTo(256, 0.35890)
  {
    assert FadesTo(1, 0.996);
    FadesTogether(1, 0.996, 1, 0.996, 0.99202);
    FadesTogether(2, 0.99202, 2, 0.99202, 0.98411);
    FadesTogether(4, 0.98411, 4, 0.98411, 0.96848);
    FadesTogether(8, 0.96848, 8, 0.96848, 0.93796);
    FadesTogether(16, 0.93796, 16, 0.93796, 0.87977);
    FadesTogether(32, 0.87977, 32, 0.87977, 0.77400);
    FadesTogether(64, 0.77400, 64, 0.77400, 0.59908);
    FadesTogether(128, 0.59908, 128, 0.59908, 0.35890);
  }

  /** In 416 steps less than a fifth is left. */
  lemma FadesToAFifth()
    ensures FadesTo(416, 0.19)
  {
    FadingLadder();
    FadesTogether(256, 0.35890, 128, 0.59908, 0.21502);
    FadesTogether(384, 0.21502, 32, 0.87977, 0.19);
  }

  lemma {:induction false} ExcessFades(v: real, a: nat, k: nat)
    ensures Speed(v, a + k) + 150.0 == Fading(Speed(v, a) + 150.0, k)
  {
    if k > 0 {
      ExcessFades(v, a, k - 1);
    }
  }

  /** On its way from one direction to the other the plant is slow for less than 416 steps. */
  lemma SlowIsShort(v: real, a: nat, b: nat)
    requires Slow(v, a) && Slow(v, b)
    ensures b - a < 416
  {
    if b - a >= 416 {
      FadesToAFifth();
      var k := b - a - 416;
      var excess := Speed(v, a) + 150.0;
      ExcessFades(v, a, b - a);
      FadingSplits(excess, 416, k);
      NeverGrows(Fading(excess, 416), k);
    }
  }

  lemma {:induction false} NeverGrows(u: real, n: nat)
    requires u >= 0.0
    ensures 0.0 <= Fading(u, n) <= u
  {
    if n > 0 {
      NeverGrows(u, n - 1);
    }
  }

  lemma {:induction false} FastStaysFast(v: real, m: nat, n: nat)
    requires m <= n && -600.0 <= v <= 600.0 && (forall a: nat | m <= a <= n :: !Slow(v, a))
    ensures Speed(v, m) >= 100.0 ==> Speed(v, n) >= 100.0
    ensures Speed(v, m) <= -100.0 ==> Speed(v, n) <= -100.0
    decreases n
  {
    if m < n {
      FastStaysFast(v, m, n - 1);
      SpeedBounds(v, n - 1);
      assert !Slow(v, n);
    }
  }

  /** Ten fast steps go a whole unit. */
  lemma FastGoesFar(x: real, v: real, m: nat)
    requires -600.0 <= v <= 600.0 && forall a: nat | m < a <= m + 10 :: !Slow(v, a)
    ensures Place(x, v, m + 10) >= Place(x, v, m) + 1.0 || Place(x, v, m + 10) <= Place(x, v, m) - 1.0
  {
    assert !Slow(v, m + 1);
    var up := Speed(v, m + 1) >= 100.0;
    for i := 0 to 10
      invariant up ==> Place(x, v, m + i) >= Place(x, v, m) + 0.1 * i as real
      invariant !up ==> Place(x, v, m + i) <= Place(x, v, m) - 0.1 * i as real
    {
      FastStaysFast(v, m + 1, m + i + 1);
    }
  }

  /** If the count has not changed over ten steps, the plant was slow at one of them. */
  lemma UnchangedCountIsSlow(x: real, v: real, m: nat)
    requires -600.0 <= v <= 600.0 && Place(x, v, m) >= 0.0 && Place(x, v, m + 10) >= 0.0
    requires Round(Place(x, v, m + 10)) == Round(Place(x, v, m))
    ensures exists a: nat :: m < a <= m + 10 && Slow(v, a)
  {
    if forall a: nat | m < a <= m + 10 :: !Slow(v, a) {
      FastGoesFar(x, v, m);
    }
  }
}
