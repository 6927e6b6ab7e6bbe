/** The motor driver: the one place where a requested duty becomes an applied one. */
module MotorGate {
  import opened Floats

  datatype MotorResult = MotorOk | MotorClamped | MotorInvalid | MotorNotInitialized | MotorInhibited

  datatype Gate = Gate(
    initialized: bool,
    output: real,
    requested: real,
    inhibited: bool,
    negativeBlocked: bool)

  /** The gate as motor_init leaves it. */
  const READY := Gate(true, 0.0, 0.0, false, false)

  predicate Blocks(g: Gate, duty: real) {
    g.inhibited || (g.negativeBlocked && duty < 0.0)
  }

  function OutputSet(g: Gate, duty: Float): (Gate, MotorResult) {
    if !g.initialized then (g, MotorNotInitialized)
    else if duty.NotFinite? then (g.(requested := 0.0, output := 0.0), MotorInvalid)
    else
      var d := Clamp(duty.value, -1.0, 1.0);
      (g.(requested := d, output := if Blocks(g, d) then 0.0 else d),
       if Blocks(g, d) then MotorInhibited else if d != duty.value then MotorClamped else MotorOk)
  }

  function Disabled(g: Gate): Gate {
    g.(output := 0.0, requested := 0.0)
  }

  /** Asserting or releasing the latch zeroes the output: a release never replays a request. */
  function Inhibited(g: Gate, on: bool): Gate {
    g.(inhibited := on, output := 0.0)
  }

  function NegativeBlocked(g: Gate, on: bool): Gate {
    g.(negativeBlocked := on, output := if on && g.output < 0.0 then 0.0 else g.output)
  }

  /** What every call keeps: a closed gate is at zero, a blocked one never negative. */
  predicate GateOk(g: Gate) {
    && g.initialized
    && (g.inhibited ==> g.output == 0.0)
    && (g.negativeBlocked ==> g.output >= 0.0)
    && -1.0 <= g.output <= 1.0
    && (g.output != 0.0 ==> g.output == g.requested)
  }

  class Motor {
    var initialized: bool
    var output: real
    var requested: real
    var inhibited: bool
    var negativeBlocked: bool

    ghost function View(): Gate
      reads this
    {
      Gate(initialized, output, requested, inhibited, negativeBlocked)
    }

    constructor ()
      ensures View() == READY
    {
      output, requested := 0.0, 0.0;
      inhibited, negativeBlocked := false, false;
      initialized := true;
    }

    method SetOutput(dutyCycle: Float) returns (result: MotorResult)
      modifies this
      ensures (View(), result) == OutputSet(old(View()), dutyCycle)
    {
      result := MotorOk;
      if !initialized {
        result := MotorNotInitialized;
      } else if dutyCycle.NotFinite? {
        requested, output := 0.0, 0.0;
        result := MotorInvalid;
      } else {
        var duty := dutyCycle.value;
        if duty > 1.0 {
          duty, result := 1.0, MotorClamped;
        } else if duty < -1.0 {
          duty, result := -1.0, MotorClamped;
        }
        requested := duty;
        var blocked := inhibited || (negativeBlocked && duty < 0.0);
        output := if blocked then 0.0 else duty;
        if blocked {
          result := MotorInhibited;
        }
      }
    }

    method Disable()
      modifies this
      ensures View() == Disabled(old(View()))
    {
      output := 0.0;
      requested := 0.0;
    }

    method Inhibit(on: bool)
      modifies this
      ensures View() == Inhibited(old(View()), on)
    {
      inhibited := on;
      output := 0.0;
    }

    method BlockNegative(on: bool)
      modifies this
      ensures View() == NegativeBlocked(old(View()), on)
    {
      negativeBlocked := on;
      if on && output < 0.0 {
        output := 0.0;
      }
    }
  }

  // Runs of the driver: any callers, in any order.

  datatype Call = Set(duty: Float) | Off | Latch(on: bool) | Guard(on: bool)

  function Apply(g: Gate, c: Call): Gate {
    match c
    case Set(duty) => OutputSet(g, duty).0
    case Off => Disabled(g)
    case Latch(on) => Inhibited(g, on)
    case Guard(on) => NegativeBlocked(g, on)
  }

  function After(calls: seq<Call>): Gate {
    if calls == [] then READY else Apply(After(calls[..|calls| - 1]), calls[|calls| - 1])
  }

  /** The last latch request of the history, if any, asserted the inhibit. */
  predicate LatchedBy(calls: seq<Call>) {
    calls != [] &&
    var last := calls[|calls| - 1];
    if last.Latch? then last.on else LatchedBy(calls[..|calls| - 1])
  }

  predicate GuardedBy(calls: seq<Call>) {
    calls != [] &&
    var last := calls[|calls| - 1];
    if last.Guard? then last.on else GuardedBy(calls[..|calls| - 1])
  }

  /** Call `k` is a nonzero request that nothing has withdrawn, latched or blocked since. */
  ghost predicate Live(calls: seq<Call>, k: nat)
    requires k < |calls|
  {
    && calls[k].Set? && calls[k].duty.Finite? && calls[k].duty.value != 0.0
    && (forall j | k < j < |calls| :: calls[j].Guard?)
    && !LatchedBy(calls[..k])
    && (calls[k].duty.value < 0.0 ==> !GuardedBy(calls[..k]) && forall j | k < j < |calls| :: calls[j] == Guard(false))
  }

  /** The latch and the guard of the gate are the last ones asked for, and the gate stays sound. */
  lemma {:induction false} LatchesFollowHistory(calls: seq<Call>)
    ensures GateOk(After(calls))
    ensures After(calls).inhibited <==> LatchedBy(calls)
    ensures After(calls).negativeBlocked <==> GuardedBy(calls)
  {
    if calls != [] {
      LatchesFollowHistory(calls[..|calls| - 1]);
    }
  }

  /** Over every call history the applied output is nonzero exactly when the history holds a live
      request, and is then that request saturated to [-1, 1]. */
  lemma {:induction false} OutputIsTheLiveRequest(calls: seq<Call>)
    ensures After(calls).output != 0.0 <==> exists k: nat | k < |calls| :: Live(calls, k)
    ensures forall k: nat | k < |calls| && Live(calls, k) ::
              After(calls).output == Clamp(calls[k].duty.value, -1.0, 1.0)
  {
    if calls != [] {
      var n := |calls| - 1;
      var init, last := calls[..n], calls[n];
      OutputIsTheLiveRequest(init);
      LatchesFollowHistory(init);
      forall k: nat | k < n
        ensures Live(calls, k) <==> Live(init, k) && last.Guard? && (last.on ==> calls[k].duty.value > 0.0)
      {
        LivePrefix(calls, k);
      }
      if last.Set? {
        assert Live(calls, n) <==> last.duty.Finite? && last.duty.value != 0.0 && !Blocks(After(init), last.duty.value);
        assert After(calls).output != 0.0 <==> Live(calls, n);
      } else if last.Guard? && After(calls).output != 0.0 {
        var k: nat :| k < n && Live(init, k);
        assert Live(calls, k);
      }
    }
  }

  lemma LivePrefix(calls: seq<Call>, k: nat)
    requires k < |calls| - 1
    ensures Live(calls, k) <==>
            Live(calls[..|calls| - 1], k) && calls[|calls| - 1].Guard? &&
            (calls[|calls| - 1].on ==> calls[k].duty.value > 0.0)
  {
    var n := |calls| - 1;
    var init := calls[..n];
    assert init[..k] == calls[..k];
    assert forall j | k < j < n :: init[j] == calls[j];
    if Live(calls, k) {
      assert calls[n].Guard?;
    }
  }
}
