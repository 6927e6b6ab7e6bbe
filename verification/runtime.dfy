/** The RTOS adapter: the safety policy, the motor gate, the controller and the published record bound
    together, one atomic section at a time. */
module RuntimeModel {
  import opened Words
  import opened Floats
  import opened CommandTypes
  import opened MotorGate
  import opened Encoders
  import opened PidControl
  import opened MotionControl
  import opened SafetyPolicy

  const HEALTH_MAXIMUM_AGE_MS := 150
  const MOTION_PERIOD_MS := 10
  const SAFETY_PERIOD_MS := 20

  datatype Health = Health(count: Word, lastMs: Word, seen: bool)

  /** Records of the three critical tasks: Motion, Safety, Communications. */
  type HealthTable = h: seq<Health> | |h| == 3 witness seq(3, _ => Health(0, 0, false))

  function Beaten(h: Health, now: Word): Health {
    Health(Wrap(h.count + 1), now, true)
  }

  predicate Fresh(h: Health, now: Word) {
    h.seen && Elapsed(now, h.lastMs) <= HEALTH_MAXIMUM_AGE_MS
  }

  /** One bit for each of the first n tasks that is stale. */
  function StaleMask(h: HealthTable, now: Word, n: nat): (mask: Word)
    requires n <= 3
    ensures mask < [1, 2, 4, 8][n]
    ensures mask == 0 <==> forall i | 0 <= i < n :: Fresh(h[i], now)
  {
    if n == 0 then 0
    else StaleMask(h, now, n - 1) + if Fresh(h[n - 1], now) then 0 else [1, 2, 4][n - 1]
  }

  /** The GPIO port: its logical inputs, or not initialised. */
  datatype Pins = Pins(ready: bool, inputs: Inputs)

  /** A failed read delivers no inputs at all. */
  function ReadPins(p: Pins): Inputs {
    if p.ready then p.inputs else NO_INPUTS
  }

  /** Where the Motion task is in its cycle, with the values the cycle carries along. */
  datatype Cycle =
    | Resting
    | Begun(now: Word, dt: real, sampled: bool, before: AppState)
    | Open(now: Word, dt: real, sampled: bool, taken: nat)

  type Times = t: seq<nat> | |t| == 3 witness seq(3, _ => 0)

  /** History variables: true times and counts that no code reads, for stating properties. */
  datatype Aux = Aux(
    startedAt: nat,      // when the supervisor was initialised
    evaluatedAt: nat,    // the last safety evaluation
    beatAt: Times,       // the last beat of each critical task
    capturedAt: nat,     // the clock as the present Motion cycle captured it
    homeAt: nat,         // the last accepted HOME
    pinsSeen: bool,      // an evaluation has happened since the inputs were last written
    contactRaw: Word)    // the raw counter at the last completed HOME

  datatype World = World(
    axis: Axis,
    safety: Safety,
    published: Snapshot,
    health: HealthTable,
    pins: Pins,
    clock: nat,
    app: AppState,
    first: bool,
    previousMs: Word,
    cycle: Cycle,
    aux: Aux)

  function Now(w: World): Word {
    Wrap(w.clock)
  }

  // The gate follows the policy.

  predicate Contact(s: Safety) {
    s.sensed.valid && s.sensed.inputs.negativeLimit
  }

  /** The gate must be closed: a latch, bad health, or contact that nothing may drive into. */
  predicate Unsafe(s: Safety, state: AppState) {
    || s.state != Idle || !s.sensed.healthy
    || (Contact(s) && (state == Homing || (s.homeContact && state != Moving)))
  }

  /** The guard and the latch, set as the policy says. */
  function Followed(g: Gate, unsafe: bool, guard: bool): Gate {
    var h := NegativeBlocked(g, guard);
    if unsafe != h.inhibited then Inhibited(h, unsafe) else h
  }

  /** The diagnostics of one enforcement. */
  function Noted(s: Safety, before: Gate, after: Gate, now: Word): Account {
    Account(if s.state != Idle && s.account.zeroMs != s.detectionMs then now else s.account.zeroMs,
            s.account.watchdogRefreshes, s.account.abortedMoves,
            before.requested, after.output,
            if after.inhibited && !before.inhibited then before.requested else s.account.requestedAtTrip)
  }

  function Enforced(w: World): World {
    var s := w.safety;
    var gate := Followed(w.axis.gate, Unsafe(s, w.published.state), s.homeContact && Contact(s));
    w.(axis := w.axis.(gate := gate), safety := s.(account := Noted(s, w.axis.gate, gate, Now(w))))
  }

  function Observed(w: World): Observation {
    Observation(
      Now(w), ReadPins(w.pins), w.pins.ready,
      w.published.(feedbackValid := w.axis.encoder.initialized,
                   position := if w.axis.encoder.initialized then Logical(w.axis.encoder) else w.published.position),
      w.axis.gate.output,
      StaleMask(w.health, Now(w), 3))
  }

  function EvaluatedWorld(w: World): World {
    Enforced(w.(safety := Evaluated(w.safety, Observed(w)),
                aux := w.aux.(evaluatedAt := w.clock, pinsSeen := true)))
  }

  // The controller follows the policy.

  predicate Active(state: AppState) {
    state == Moving || state == Stopping || state == Homing
  }

  function MoreAborted(s: Safety): Safety {
    s.(account := s.account.(abortedMoves := Wrap(s.account.abortedMoves + 1)))
  }

  function Halted(a: Axis, state: AppState): Axis {
    a.(m := a.m.(data := a.m.data.(state := state, target := a.m.data.position, pwm := 0.0, pidOutput := 0.0,
                                   stableCycles := 0),
                 pid := Cleared(a.m.pid)))
  }

  /** HOME interrupted at `now`: its duration is noted, its result recorded, the drive cleared. */
  function HomeInterrupted(a: Axis, result: HomingResult, now: Word): Axis {
    var h := a.m.data.homing;
    HomingAborted(a.(m := a.m.(data := a.m.data.(homing := h.(elapsedMs := Elapsed(now, h.startedMs))))), result)
  }

  function Synced(w: World): World {
    var state := w.safety.state;
    if state == Idle then w
    else
      var s := if Active(w.axis.m.data.state) then MoreAborted(w.safety) else w.safety;
      var a := if w.axis.m.data.state == Homing
               then HomeInterrupted(w.axis, if state == Estop then HomeEstopped else HomeFaulted, Now(w))
               else w.axis;
      w.(safety := s, axis := Halted(a, state))
  }

  function Published(w: World): World {
    w.(published := w.axis.m.data)
  }

  function EvaluatedAndSynced(w: World): World {
    Synced(EvaluatedWorld(w))
  }

  // Commands.

  function StopLatched(w: World): World {
    Synced(Enforced(w.(safety := Stopped(w.safety, Now(w)))))
  }

  function ResetTaken(w: World): (World, MotionResult) {
    if w.safety.state == Idle && w.axis.m.data.state != Idle then (w, InvalidState)
    else
      var v := EvaluatedWorld(w);
      if !ResetAllowed(v.safety) then (v, InvalidState)
      else
        (v.(safety := Recovered(v.safety),
            axis := Halted(v.axis.(gate := Inhibited(Disabled(v.axis.gate), false)), Idle)),
         Accepted)
  }

  function HomeCancelled(w: World): World {
    var a := HomeInterrupted(w.axis, HomeStopped, Now(w));
    Published(w.(axis := a.(m := a.m.(data := a.m.data.(state := Stopping))), safety := MoreAborted(w.safety)))
  }

  /** Parked on the switch right after HOME: the gate is closed, and yet a departure may start. */
  predicate ParkedHome(w: World) {
    w.safety.state == Idle && w.safety.sensed.healthy && w.safety.homeContact && w.axis.m.data.state == Idle
  }

  function HomeTaken(w: World): (World, MotionResult) {
    var result := HomingStartResult(w.axis.m);
    var v := Published(w.(axis := HomingStarted(w.axis, Now(w))));
    if result == Accepted
    then (EvaluatedAndSynced(v.(aux := v.aux.(homeAt := w.clock))), result)
    else (v, result)
  }

  function DepartureTaken(w: World, c: Command): (World, MotionResult) {
    if Destination(w.axis.m, c) <= w.axis.m.data.position then (w, InvalidState)
    else
      (EvaluatedAndSynced(Published(w.(axis := Commanded(w.axis, c)))), CommandResult(w.axis.m, c))
  }

  function CommandTaken(w: World, c: Command): (World, MotionResult) {
    if c.kind == EmergencyStop then (StopLatched(w), Accepted)
    else if c.kind == Reset then ResetTaken(w)
    else if w.safety.state == Idle && w.axis.m.data.state == Homing && c.kind == Stop then (HomeCancelled(w), Accepted)
    else if (w.safety.state != Idle || w.axis.gate.inhibited) && !ParkedHome(w) then
      (w, if c.kind == Stop then Accepted else InvalidState)
    else if c.kind == Home then HomeTaken(w)
    else if w.axis.m.data.state == Homing then (w, InvalidState)
    else if w.safety.homeContact && (c.kind == MoveAbs || c.kind == MoveRel) then DepartureTaken(w, c)
    else (w.(axis := Commanded(w.axis, c)), CommandResult(w.axis.m, c))
  }

  // The control update.

  predicate HomingInterrupt(p: Pins) {
    !p.ready || p.inputs.estop || p.inputs.positiveLimit || p.inputs.negativeLimit
  }

  /** What follows a homing update that went through. */
  function HomingSettled(w: World, now: Word): World {
    match w.axis.m.data.homing.result
    case HomeTimeout => Synced(Enforced(w.(safety := HomingTimedOut(w.safety, now))))
    case HomeComplete =>
      EvaluatedWorld(Published(w.(safety := w.safety.(homeContact := true),
                                  aux := w.aux.(contactRaw := w.axis.encoder.raw))))
    case _ => w
  }

  function HomingControl(w: World, now: Word): (World, bool) {
    var v := if HomingInterrupt(w.pins) then EvaluatedAndSynced(Published(w)) else w;
    if HomingInterrupt(w.pins) && v.safety.state != Idle then (v, true)
    else
      var (a, ok) := HomingUpdated(v.axis, ReadPins(w.pins), now);
      if ok then (HomingSettled(v.(axis := a), now), true) else (v.(axis := a), false)
  }

  function ControlUpdated(w: World, dt: real, now: Word): (World, bool) {
    if w.axis.m.data.state == Homing then HomingControl(w, now)
    else
      var v := if w.safety.homeContact then EvaluatedAndSynced(Published(w)) else w;
      var (a, ok) := MotionUpdated(v.axis, Finite(dt));
      (v.(axis := a), ok)
  }

  /** An integrity failure: latched for good, the gate closed. */
  function IntegrityLost(w: World, now: Word): World {
    Enforced(w.(safety := InternalFailed(w.safety, now)))
  }

  // The atomic sections and the environment, as steps of one transition system.

  datatype Event =
    | SafetyCycle
    | MotionBegin
    | MotionSync
    | MotionReceive(command: Command)
    | MotionFinish
    | Beat(task: nat)
    | Tick(ms: nat)
    | SetPins(pins: Pins)
    | SetRaw(raw: Word)
    | StaleSet(duty: Float)
    | StaleDisable

  predicate Enabled(w: World, e: Event) {
    match e
    case MotionBegin => w.cycle.Resting?
    case MotionSync => w.cycle.Begun?
    case MotionReceive(_) => w.cycle.Open? && w.cycle.taken < 2
    case MotionFinish => w.cycle.Open?
    case Beat(task) => task < 3
    case _ => true
  }

  /** Safety evaluates, and refreshes the watchdog only while every critical task is fresh. */
  function SafetyCycled(w: World): World {
    var v := EvaluatedWorld(w);
    var count := v.safety.account.watchdogRefreshes;
    if v.safety.sensed.healthy
    then v.(safety := v.safety.(account := v.safety.account.(watchdogRefreshes := Wrap(count + 1))))
    else v
  }

  function AppStepped(w: World): World {
    if w.app == Boot then w.(app := Initializing, axis := w.axis.(gate := Disabled(w.axis.gate)))
    else if w.app == Initializing then w.(app := Idle, axis := w.axis.(gate := Disabled(w.axis.gate)))
    else w
  }

  function Gap(w: World): Word {
    if w.first then MOTION_PERIOD_MS else Elapsed(Now(w), w.previousMs)
  }

  function MotionBegun(w: World): World {
    var v := AppStepped(w);
    var dt := Gap(w) as real / 1000.0;
    v.(axis := Sampled(v.axis, Finite(dt)),
       cycle := Begun(Now(w), dt, SampleOk(v.axis, Finite(dt)), w.axis.m.data.state),
       aux := v.aux.(capturedAt := w.clock))
  }

  function SampleLost(w: World, before: AppState, now: Word): World {
    var s := if Active(before) then MoreAborted(w.safety) else w.safety;
    var a := if before == Homing then HomingAborted(w.axis, HomeFaulted) else w.axis;
    IntegrityLost(w.(safety := s, axis := a), now)
  }

  function MotionSynced(w: World): World
    requires w.cycle.Begun?
  {
    var c := w.cycle;
    var v := if c.sampled then w else SampleLost(w, c.before, c.now);
    Synced(v).(cycle := Open(c.now, c.dt, c.sampled, 0))
  }

  function MotionReceived(w: World, command: Command): World
    requires w.cycle.Open?
  {
    ReceivedResult(w, command).0.(cycle := w.cycle.(taken := w.cycle.taken + 1))
  }

  /** STATUS and HELP are answered elsewhere; nothing is accepted before startup has finished. */
  function ReceivedResult(w: World, command: Command): (World, MotionResult) {
    if command.kind == Status || command.kind == Help then (w, NotImplemented)
    else if w.app != Idle then (w, InvalidState)
    else CommandTaken(w, command)
  }

  /** The update of a cycle, and the latch if there is none or it fails. */
  function Settle(w: World, c: Cycle): World
    requires c.Open?
  {
    var (u, ok) := if c.sampled then ControlUpdated(w, c.dt, c.now) else (w, false);
    if ok then u else UpdateLost(u, Active(w.axis.m.data.state), c.now)
  }

  function MotionFinished(w: World): World
    requires w.cycle.Open?
  {
    Published(Settle(Synced(w), w.cycle)).(cycle := Resting, first := false, previousMs := w.cycle.now)
  }

  function UpdateLost(w: World, active: bool, now: Word): World {
    Synced(IntegrityLost(w.(safety := if active then MoreAborted(w.safety) else w.safety), now))
  }

  function Step(w: World, e: Event): World
    requires Enabled(w, e)
  {
    match e
    case SafetyCycle => SafetyCycled(w)
    case MotionBegin => MotionBegun(w)
    case MotionSync => MotionSynced(w)
    case MotionReceive(command) => MotionReceived(w, command)
    case MotionFinish => MotionFinished(w)
    case Beat(task) =>
      w.(health := w.health[task := Beaten(w.health[task], Now(w))],
         aux := w.aux.(beatAt := w.aux.beatAt[task := w.clock]))
    case Tick(ms) => w.(clock := w.clock + ms)
    case SetPins(pins) => w.(pins := pins, aux := w.aux.(pinsSeen := false))
    case SetRaw(raw) => w.(axis := w.axis.(encoder := w.axis.encoder.(raw := raw)))
    case StaleSet(duty) => w.(axis := w.axis.(gate := OutputSet(w.axis.gate, duty).0))
    case StaleDisable => w.(axis := w.axis.(gate := Disabled(w.axis.gate)))
  }

  /** The state runtime_init leaves: the gate inhibited, nothing healthy, nothing evaluated. */
  predicate Start(w: World) {
    && ValidConfig(w.axis.m.config)
    && w.axis.m == Initial(w.axis.m.config)
    && w.axis.gate == Inhibited(READY, true)
    && w.axis.encoder.initialized
    && w.safety == Started(Now(w))
    && w.published == BLANK
    && (forall i | 0 <= i < 3 :: w.health[i] == Health(0, 0, false))
    && w.app == Boot && w.first && w.cycle.Resting?
    && w.aux.startedAt == w.clock && w.aux.capturedAt <= w.clock && w.aux.evaluatedAt == w.clock && !w.aux.pinsSeen
  }

  /** A run: each state follows from the one before by an enabled event. */
  ghost predicate Run(ws: seq<World>, es: seq<Event>) {
    && |ws| == |es| + 1
    && forall i | 0 <= i < |es| :: Enabled(ws[i], es[i]) && ws[i + 1] == Step(ws[i], es[i])
  }

  ghost predicate Reachable(w: World) {
    exists ws: seq<World>, es: seq<Event> :: Run(ws, es) && Start(ws[0]) && ws[|es|] == w
  }
}
