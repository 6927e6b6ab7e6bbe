/** From received bytes to the commands that Motion takes: the receive queue, the parser and the bus. */
module CommandPipeline {
  import opened Words
  import opened CommandTypes
  import opened UartFraming
  import opened CommandLine

  const COMMAND_QUEUE_CAPACITY := 8
  const LINES_PER_WAKE := 4

  // The bus.

  datatype Bus = Bus(queue: seq<Command>, sent: Word, received: Word, rejected: Word, highWater: Word)

  const EMPTY_BUS := Bus([], 0, 0, 0, 0)

  predicate HasRoom(b: Bus) {
    |b.queue| < COMMAND_QUEUE_CAPACITY
  }

  predicate BusOk(b: Bus) {
    |b.queue| <= COMMAND_QUEUE_CAPACITY
  }

  function Sent(b: Bus, c: Command): Bus
    requires BusOk(b)
  {
    if !HasRoom(b) then b.(rejected := Wrap(b.rejected + 1))
    else
      b.(queue := b.queue + [c], sent := Wrap(b.sent + 1),
         highWater := if |b.queue| + 1 > b.highWater then |b.queue| + 1 else b.highWater)
  }

  function Drained(b: Bus): Bus {
    if b.queue == [] then b else b.(queue := b.queue[1..], received := Wrap(b.received + 1))
  }

  /** command_bus_t: a bounded first-in first-out queue with its statistics. */
  class CommandBus {
    var queue: seq<Command>
    var sent: Word
    var received: Word
    var rejected: Word
    var highWater: Word

    ghost function View(): Bus
      reads this
    {
      Bus(queue, sent, received, rejected, highWater)
    }

    ghost predicate Valid()
      reads this
    {
      BusOk(View())
    }

    constructor ()
      ensures Valid() && View() == EMPTY_BUS
    {
      queue := [];
      sent, received, rejected, highWater := 0, 0, 0, 0;
    }

    method Send(c: Command) returns (accepted: bool)
      requires Valid()
      modifies this
      ensures Valid() && View() == Sent(old(View()), c) && accepted == HasRoom(old(View()))
    {
      accepted := |queue| < COMMAND_QUEUE_CAPACITY;
      if accepted {
        queue := queue + [c];
        sent := Wrap(sent + 1);
        var used: Word := |queue|;
        if used > highWater {
          highWater := used;
        }
      } else {
        rejected := Wrap(rejected + 1);
      }
    }

    method Receive() returns (ok: bool, c: Command)
      requires Valid()
      modifies this
      ensures Valid() && View() == Drained(old(View())) && ok == (old(queue) != [])
      ensures ok ==> c == old(queue)[0]
    {
      ok, c := queue != [], Command(Status, 0);
      if ok {
        c := queue[0];
        queue := queue[1..];
        received := Wrap(received + 1);
      }
    }
  }

  // The whole path, with what has passed along it.

  datatype Option<T> = None | Some(value: T)

  /** History that no code reads: the bytes received; the frames offered to the receive queue; of those, by
      number, the frames it had room for, how many of them have been read, and what they meant; of those,
      by their place, the ones that became accepted commands; and the commands, and the lines that did not
      become one. */
  datatype Trace = Trace(
    stream: seq<Symbol>, offered: seq<seq<char>>,
    kept: seq<nat>, read: nat, meanings: seq<Meaning>,
    places: seq<nat>, accepted: seq<Command>, consumed: seq<Command>,
    refused: nat, rejected: nat, peak: nat)

  /** `line` is the line the Communications task has taken from the queue and not yet dealt with. */
  datatype Pipe = Pipe(rx: Receiver, line: Option<seq<char>>, bus: Bus, parseErrors: Word, trace: Trace)

  const START := Pipe(IDLE_LINE, None, EMPTY_BUS, 0, Trace([], [], [], 0, [], [], [], [], 0, 0, 0))

  datatype Event = Arrive(symbol: Symbol) | ReadLine | Dispatch | MotionTakes

  /** The frame that one interrupt offers to the queue, if any. */
  function Offering(r: Receiver, a: Arrival): seq<seq<char>> {
    Received(r.(queue := []), a).queue
  }

  /** A frame is offered to the queue, which keeps it while it has room. */
  function Recorded(t: Trace, x: Symbol, offering: seq<seq<char>>, room: bool): Trace {
    t.(stream := t.stream + [x], offered := t.offered + offering,
       kept := if offering != [] && room then t.kept + [|t.offered|] else t.kept)
  }

  function Arrived(p: Pipe, x: Symbol): Pipe {
    var a := AsArrival(x);
    p.(rx := Received(p.rx, a), trace := Recorded(p.trace, x, Offering(p.rx, a), |p.rx.queue| < RX_FRAMES))
  }

  function LineRead(p: Pipe): Pipe {
    if p.rx.queue == [] then p
    else p.(rx := p.rx.(queue := p.rx.queue[1..]), line := Some(p.rx.queue[0]),
            trace := p.trace.(read := p.trace.read + 1))
  }

  /** A line that is not a command is counted; a command goes to the bus, if there is room. */
  function DispatchedAs(p: Pipe, m: Meaning): Pipe
    requires BusOk(p.bus)
  {
    var t := p.trace.(meanings := p.trace.meanings + [m]);
    if m.Refuses? then
      p.(line := None, parseErrors := Wrap(p.parseErrors + 1), trace := t.(refused := t.refused + 1))
    else if !HasRoom(p.bus) then
      p.(line := None, bus := Sent(p.bus, m.command), trace := t.(rejected := t.rejected + 1))
    else
      var bus := Sent(p.bus, m.command);
      p.(line := None, bus := bus,
         trace := t.(places := t.places + [|p.trace.meanings|], accepted := t.accepted + [m.command],
                     peak := if |bus.queue| > t.peak then |bus.queue| else t.peak))
  }

  function Dispatched(p: Pipe): Pipe
    requires p.line.Some? && BusOk(p.bus)
  {
    DispatchedAs(p, ParseLine(p.line.value))
  }

  function Taken(p: Pipe): Pipe {
    p.(bus := Drained(p.bus),
       trace := p.trace.(consumed := p.trace.consumed + if p.bus.queue == [] then [] else [p.bus.queue[0]]))
  }

  predicate Enabled(p: Pipe, e: Event) {
    match e
    case ReadLine => p.line.None?
    case Dispatch => p.line.Some? && BusOk(p.bus)
    case _ => true
  }

  function Step(p: Pipe, e: Event): Pipe
    requires Enabled(p, e)
  {
    match e
    case Arrive(x) => Arrived(p, x)
    case ReadLine => LineRead(p)
    case Dispatch => Dispatched(p)
    case MotionTakes => Taken(p)
  }

  ghost predicate Run(ps: seq<Pipe>, es: seq<Event>) {
    && |ps| == |es| + 1 && ps[0] == START
    && forall i | 0 <= i < |es| :: Enabled(ps[i], es[i]) && ps[i + 1] == Step(ps[i], es[i])
  }

  // What holds all along.

  predicate Increasing(s: seq<nat>, bound: nat) {
    && (forall i | 0 <= i < |s| :: s[i] < bound)
    && forall i, j | 0 <= i < j < |s| :: s[i] < s[j]
  }

  /** The lines that have been read and dealt with. */
  function Handled(p: Pipe): int {
    p.trace.read - if p.line.Some? then 1 else 0
  }

  /** A queue of the frames kept and not read yet, in order. */
  predicate Queued(queue: seq<seq<char>>, offered: seq<seq<char>>, kept: seq<nat>, read: nat) {
    && Increasing(kept, |offered|) && read + |queue| == |kept|
    && forall i | 0 <= i < |queue| :: queue[i] == offered[kept[read + i]]
  }

  /** The receive queue holds the kept frames that have not been read, in order. */
  predicate QueueHolds(p: Pipe) {
    var t := p.trace;
    && Queued(p.rx.queue, t.offered, t.kept, t.read) && |p.rx.queue| <= RX_FRAMES && 0 <= Handled(p)
    && (p.line.Some? ==> p.line.value == t.offered[t.kept[t.read - 1]])
  }

  predicate MeaningsAreHandled(p: Pipe) {
    |p.trace.meanings| == Handled(p)
  }

  /** Every line dealt with has meant what the parser makes of it. */
  predicate MeaningsHold(p: Pipe)
    requires QueueHolds(p)
  {
    var t := p.trace;
    && MeaningsAreHandled(p)
    && forall k | 0 <= k < |t.meanings| :: t.meanings[k] == ParseLine(t.offered[t.kept[k]])
  }

  /** Accepted commands are the meanings of lines, in order, each line used at most once. */
  predicate CommandsHold(p: Pipe) {
    var t := p.trace;
    && Increasing(t.places, |t.meanings|) && |t.places| == |t.accepted|
    && (forall k | 0 <= k < |t.places| :: t.meanings[t.places[k]] == Accepts(t.accepted[k]))
    && t.consumed + p.bus.queue == t.accepted && BusOk(p.bus)
  }

  /** Nothing is lost without being counted. */
  predicate CountsHold(p: Pipe) {
    var t := p.trace;
    && |t.offered| == |t.kept| + p.rx.drops
    && |t.meanings| == |t.accepted| + t.refused + t.rejected
    && p.bus.sent == Wrap(|t.accepted|) && p.bus.received == Wrap(|t.consumed|)
    && p.bus.rejected == Wrap(t.rejected) && p.parseErrors == Wrap(t.refused)
    && p.bus.highWater == t.peak <= COMMAND_QUEUE_CAPACITY && |p.bus.queue| <= t.peak
  }

  /** The bounded receiver is in the middle of the same line as one that never drops a frame. */
  predicate SameLine(r: Receiver, u: Receiver) {
    r.partial == u.partial && r.skipLf == u.skipLf && r.discard == u.discard
  }

  predicate StreamHolds(p: Pipe) {
    var u := Fed(IDLE_LINE, p.trace.stream);
    SameLine(p.rx, u) && u.queue == p.trace.offered
  }

  predicate PipeOk(p: Pipe) {
    StreamHolds(p) && QueueHolds(p) && MeaningsHold(p) && CommandsHold(p) && CountsHold(p)
  }

  /** What a receiver does with a frame that it is offered. */
  predicate Takes(r: Receiver, offering: seq<seq<char>>, s: Receiver) {
    && |offering| <= 1
    && if offering == [] then s.queue == r.queue && s.drops == r.drops
       else if |r.queue| < RX_FRAMES then s.queue == r.queue + offering && s.drops == r.drops
       else s.queue == r.queue && s.drops == r.drops + 1
  }

  /** How a bounded receiver takes the frame it is offered. */
  lemma BoundedReceive(r: Receiver, u: Receiver, a: Arrival)
    requires SameLine(r, u)
    ensures SameLine(Received(r, a), Offered(u, a))
    ensures Offered(u, a).queue == u.queue + Offering(r, a)
    ensures Takes(r, Offering(r, a), Received(r, a))
  {
  }

  lemma FedOne(s: seq<Symbol>, x: Symbol)
    ensures Fed(IDLE_LINE, s + [x]) == Offered(Fed(IDLE_LINE, s), AsArrival(x))
  {
    FedAppends(IDLE_LINE, s, [x]);
    assert [x][1..] == [];
  }

  lemma ArrivalKeepsStream(p: Pipe, x: Symbol)
    requires StreamHolds(p)
    ensures StreamHolds(Arrived(p, x))
  {
    FedOne(p.trace.stream, x);
    BoundedReceive(p.rx, Fed(IDLE_LINE, p.trace.stream), AsArrival(x));
  }

  lemma QueueGrows(queue: seq<seq<char>>, offered: seq<seq<char>>, kept: seq<nat>, read: nat, frame: seq<char>)
    requires Queued(queue, offered, kept, read)
    ensures Queued(queue + [frame], offered + [frame], kept + [|offered|], read)
    ensures Queued(queue, offered + [frame], kept, read)
  {
  }

  lemma OfferKeepsQueue(p: Pipe, x: Symbol, offering: seq<seq<char>>, s: Receiver)
    requires QueueHolds(p) && MeaningsAreHandled(p) && |p.trace.offered| == |p.trace.kept| + p.rx.drops
    requires Takes(p.rx, offering, s)
    ensures var q := p.(rx := s, trace := Recorded(p.trace, x, offering, |p.rx.queue| < RX_FRAMES));
            && QueueHolds(q) && |q.trace.offered| == |q.trace.kept| + q.rx.drops
            && forall k | 0 <= k < |q.trace.meanings| ::
               q.trace.offered[q.trace.kept[k]] == p.trace.offered[p.trace.kept[k]]
  {
    var t := p.trace;
    if offering == [] {
      assert t.offered + offering == t.offered;
    } else {
      var frame := offering[0];
      assert offering == [frame];
      QueueGrows(p.rx.queue, t.offered, t.kept, t.read, frame);
    }
  }

  lemma ArrivalKeepsQueue(p: Pipe, x: Symbol)
    requires QueueHolds(p) && MeaningsHold(p) && |p.trace.offered| == |p.trace.kept| + p.rx.drops
    ensures var q := Arrived(p, x);
            && QueueHolds(q) && MeaningsHold(q) && |q.trace.offered| == |q.trace.kept| + q.rx.drops
  {
    BoundedReceive(p.rx, p.rx, AsArrival(x));
    OfferKeepsQueue(p, x, Offering(p.rx, AsArrival(x)), Received(p.rx, AsArrival(x)));
  }

  lemma ArrivalKeeps(p: Pipe, x: Symbol)
    requires PipeOk(p)
    ensures PipeOk(Arrived(p, x))
  {
    ArrivalKeepsStream(p, x);
    ArrivalKeepsQueue(p, x);
  }

  lemma ReadKeepsQueue(p: Pipe)
    requires QueueHolds(p) && p.line.None?
    ensures QueueHolds(LineRead(p)) && Handled(LineRead(p)) == Handled(p)
  {
  }

  lemma ReadKeeps(p: Pipe)
    requires PipeOk(p) && p.line.None?
    ensures PipeOk(LineRead(p))
  {
    ReadKeepsQueue(p);
    var q := LineRead(p);
    assert q.trace == p.trace.(read := q.trace.read) && q.bus == p.bus;
    assert MeaningsHold(q);
  }

  lemma DispatchKeepsQueue(p: Pipe, m: Meaning)
    requires QueueHolds(p) && MeaningsAreHandled(p) && BusOk(p.bus) && p.line.Some?
    ensures var q := DispatchedAs(p, m);
            && QueueHolds(q) && MeaningsAreHandled(q) && q.trace.meanings == p.trace.meanings + [m]
            && q.trace.offered == p.trace.offered && q.trace.kept == p.trace.kept && q.trace.stream == p.trace.stream
            && q.rx == p.rx
  {
  }

  lemma DispatchKeepsMeanings(p: Pipe, q: Pipe, m: Meaning)
    requires QueueHolds(p) && MeaningsHold(p) && p.line.Some? && m == ParseLine(p.line.value)
    requires QueueHolds(q) && MeaningsAreHandled(q) && q.trace.meanings == p.trace.meanings + [m]
    requires q.trace.offered == p.trace.offered && q.trace.kept == p.trace.kept
    ensures MeaningsHold(q)
  {
    ExtendMeanings(p.trace.meanings, p.trace.offered, p.trace.kept, m);
  }

  lemma ExtendMeanings(meanings: seq<Meaning>, offered: seq<seq<char>>, kept: seq<nat>, m: Meaning)
    requires Increasing(kept, |offered|) && |meanings| < |kept| && m == ParseLine(offered[kept[|meanings|]])
    requires forall k | 0 <= k < |meanings| :: meanings[k] == ParseLine(offered[kept[k]])
    ensures forall k | 0 <= k < |meanings + [m]| :: (meanings + [m])[k] == ParseLine(offered[kept[k]])
  {
  }

  lemma DispatchKeepsCommands(p: Pipe, m: Meaning)
    requires CommandsHold(p)
    ensures CommandsHold(DispatchedAs(p, m))
  {
    if m.Accepts? && HasRoom(p.bus) {
      assert p.trace.consumed + (p.bus.queue + [m.command]) == p.trace.consumed + p.bus.queue + [m.command];
    }
  }

  lemma DispatchKeepsCounts(p: Pipe, m: Meaning)
    requires CountsHold(p) && BusOk(p.bus)
    ensures CountsHold(DispatchedAs(p, m))
  {
    WrapSum(|p.trace.accepted|, 1);
    WrapSum(p.trace.refused, 1);
    WrapSum(p.trace.rejected, 1);
  }

  lemma DispatchKeeps(p: Pipe)
    requires PipeOk(p) && p.line.Some?
    ensures PipeOk(Dispatched(p))
  {
    var m := ParseLine(p.line.value);
    DispatchKeepsQueue(p, m);
    DispatchKeepsMeanings(p, DispatchedAs(p, m), m);
    DispatchKeepsCommands(p, m);
    DispatchKeepsCounts(p, m);
  }

  lemma TakeKeepsCommands(p: Pipe)
    requires CommandsHold(p)
    ensures CommandsHold(Taken(p))
  {
    if p.bus.queue != [] {
      assert p.bus.queue == [p.bus.queue[0]] + p.bus.queue[1..];
    }
  }

  lemma TakeKeeps(p: Pipe)
    requires PipeOk(p)
    ensures PipeOk(Taken(p))
  {
    TakeKeepsCommands(p);
    WrapSum(|p.trace.consumed|, 1);
  }

  lemma StepKeepsPipe(p: Pipe, e: Event)
    requires PipeOk(p) && Enabled(p, e)
    ensures PipeOk(Step(p, e))
  {
    match e
    case Arrive(x) => ArrivalKeeps(p, x);
    case ReadLine => ReadKeeps(p);
    case Dispatch => DispatchKeeps(p);
    case MotionTakes => TakeKeeps(p);
  }

  lemma RunKeepsPipe(ps: seq<Pipe>, es: seq<Event>, n: nat)
    requires Run(ps, es) && n <= |es|
    ensures PipeOk(ps[n])
  {
    for i := 0 to n
      invariant PipeOk(ps[i])
    {
      StepKeepsPipe(ps[i], es[i]);
    }
  }

  // What the commands are.

  /** The bytes that arrived during a run. */
  function Bytes(es: seq<Event>): seq<Symbol> {
    if es == [] then []
    else Bytes(es[..|es| - 1]) + if es[|es| - 1].Arrive? then [es[|es| - 1].symbol] else []
  }

  lemma StreamIsBytes(ps: seq<Pipe>, es: seq<Event>, n: nat)
    requires Run(ps, es) && n <= |es|
    ensures ps[n].trace.stream == Bytes(es[..n])
  {
    for i := 0 to n
      invariant ps[i].trace.stream == Bytes(es[..i])
    {
      assert es[..i + 1][..i] == es[..i];
    }
  }

  /** Commands that are the meanings of frames, in order, each frame used at most once. */
  ghost predicate OneByOne(idx: seq<nat>, frames: seq<seq<char>>, commands: seq<Command>) {
    && |idx| == |commands| && Increasing(idx, |frames|)
    && forall k | 0 <= k < |idx| :: ParseLine(frames[idx[k]]) == Accepts(commands[k])
  }

  lemma PlacesInFrames(p: Pipe) returns (idx: seq<nat>)
    requires QueueHolds(p) && MeaningsHold(p) && CommandsHold(p)
    ensures OneByOne(idx, p.trace.offered, p.trace.accepted)
  {
    var t := p.trace;
    idx := seq(|t.places|, k requires 0 <= k < |t.places| => t.kept[t.places[k]]);
    forall k | 0 <= k < |idx|
      ensures ParseLine(t.offered[idx[k]]) == Accepts(t.accepted[k])
    {
      assert t.meanings[t.places[k]] == ParseLine(t.offered[t.kept[t.places[k]]]);
    }
  }

  /** Over any interleaving of arriving bytes, the Communications task and the Motion task: the accepted
      commands are meanings of frames of the stream of bytes, in the order of the stream, no frame used
      twice; and Motion has taken a prefix of them. */
  lemma CommandsFollowTheStream(ps: seq<Pipe>, es: seq<Event>, n: nat)
    requires Run(ps, es) && n <= |es|
    ensures ps[n].trace.consumed <= ps[n].trace.accepted
    ensures exists idx :: OneByOne(idx, Frames(Bytes(es[..n])), ps[n].trace.accepted)
  {
    RunKeepsPipe(ps, es, n);
    StreamIsBytes(ps, es, n);
    InterruptComputesFrames(ps[n].trace.stream);
    var idx := PlacesInFrames(ps[n]);
  }

  /** A whole line of the stream that is short enough, and what it says. */
  predicate LineSays(s: seq<Symbol>, i: nat, j: nat, c: Command)
    requires i <= j < |s|
  {
    IsLine(s, i, j) && j - i < 64 && Clean(s[i..j]) && ParseLine(Chars(s[i..j])) == Accepts(c)
  }

  lemma AcceptedIsShort(text: string, c: Command)
    requires ParseLine(text) == Accepts(c)
    ensures |text| < 64
  {
  }

  lemma FrameSays(s: seq<Symbol>, n: nat, c: Command)
    requires n < |Frames(s)| && ParseLine(Frames(s)[n]) == Accepts(c)
    ensures exists i: nat, j: nat :: i <= j < |s| && LineSays(s, i, j, c)
  {
    FramesAreLines(s, n);
    var frame := Frames(s)[n];
    AcceptedIsShort(frame, c);
    var i: nat, j: nat :| i <= j < |s| && LineMakes(s, i, j, frame);
    assert frame == Chars(s[i..j]);
    assert LineSays(s, i, j, c);
  }

  /** Every accepted command was sent whole: it is what a whole line of the stream says, from a line start
      to its terminator, error-free and at most 63 bytes long. */
  lemma EveryCommandIsALine(ps: seq<Pipe>, es: seq<Event>, n: nat, k: nat)
    requires Run(ps, es) && n <= |es| && k < |ps[n].trace.accepted|
    ensures var s, c := Bytes(es[..n]), ps[n].trace.accepted[k];
            exists i: nat, j: nat :: i <= j < |s| && LineSays(s, i, j, c)
  {
    CommandsFollowTheStream(ps, es, n);
    var s := Bytes(es[..n]);
    var idx :| OneByOne(idx, Frames(s), ps[n].trace.accepted);
    FrameSays(s, idx[k], ps[n].trace.accepted[k]);
  }

  /** Where `offered` frames have gone, and what the 32-bit statistics say of them. */
  predicate Accounted(p: Pipe, offered: nat) {
    && offered == p.rx.drops + |p.rx.queue| + (if p.line.Some? then 1 else 0)
                  + p.trace.refused + p.trace.rejected + |p.trace.consumed| + |p.bus.queue|
    && p.bus.sent == Wrap(|p.trace.consumed| + |p.bus.queue|) && p.bus.received == Wrap(|p.trace.consumed|)
    && p.bus.rejected == Wrap(p.trace.rejected) && p.parseErrors == Wrap(p.trace.refused)
  }

  lemma FramesOfStream(s: seq<Symbol>)
    ensures |Frames(s)| == |Fed(IDLE_LINE, s).queue|
  {
    InterruptComputesFrames(s);
  }

  lemma PipeCounts(p: Pipe)
    requires PipeOk(p)
    ensures Accounted(p, |Fed(IDLE_LINE, p.trace.stream).queue|)
  {
  }

  /** Every frame of the stream is accounted for: it was dropped at the receive queue, waits there, is
      being dealt with, was refused by the parser, was rejected at the bus, or became a command; and every
      command was taken by Motion or waits on the bus. The 32-bit statistics say so modulo 2^32. */
  lemma EveryFrameIsAccountedFor(ps: seq<Pipe>, es: seq<Event>, n: nat)
    requires Run(ps, es) && n <= |es|
    ensures Accounted(ps[n], |Frames(Bytes(es[..n]))|)
  {
    RunKeepsPipe(ps, es, n);
    StreamIsBytes(ps, es, n);
    FramesOfStream(ps[n].trace.stream);
    PipeCounts(ps[n]);
  }

  // Nothing is lost in time.

  /** What these meanings amount to. */
  function Commands(meanings: seq<Meaning>): seq<Command> {
    if meanings == [] then []
    else
      var last := meanings[|meanings| - 1];
      Commands(meanings[..|meanings| - 1]) + if last.Accepts? then [last.command] else []
  }

  /** The meanings of frames, one by one. */
  function Parsed(frames: seq<seq<char>>): seq<Meaning> {
    seq(|frames|, i requires 0 <= i < |frames| => ParseLine(frames[i]))
  }

  /** Bytes arrive while fewer than 16 frames wait, and lines are dealt with while fewer than 8 commands do. */
  predicate Prompt(p: Pipe, e: Event) {
    (e.Arrive? ==> |p.rx.queue| < 16) && (e.Dispatch? ==> |p.bus.queue| < 8)
  }

  /** Every frame has been kept, and every command accepted. */
  predicate NothingLost(p: Pipe) {
    var t := p.trace;
    && |t.kept| == |t.offered| && (forall i | 0 <= i < |t.kept| :: t.kept[i] == i)
    && t.rejected == 0 && t.accepted == Commands(t.meanings)
  }

  lemma CommandsGrow(meanings: seq<Meaning>, m: Meaning)
    ensures Commands(meanings + [m]) == Commands(meanings) + if m.Accepts? then [m.command] else []
  {
    assert (meanings + [m])[..|meanings|] == meanings;
  }

  lemma PromptArrival(p: Pipe, x: Symbol)
    requires NothingLost(p) && |p.rx.queue| < 16
    ensures NothingLost(Arrived(p, x))
  {
    BoundedReceive(p.rx, p.rx, AsArrival(x));
  }

  lemma PromptStep(p: Pipe, e: Event)
    requires NothingLost(p) && Enabled(p, e) && Prompt(p, e)
    ensures NothingLost(Step(p, e))
  {
    match e
    case Arrive(x) => PromptArrival(p, x);
    case Dispatch => CommandsGrow(p.trace.meanings, ParseLine(p.line.value));
    case _ =>
  }

  lemma MeaningsOfFrames(p: Pipe)
    requires PipeOk(p) && NothingLost(p)
    ensures 0 <= Handled(p) <= |p.trace.offered| && p.trace.meanings == Parsed(p.trace.offered[..Handled(p)])
  {
    var t := p.trace;
    assert |t.meanings| == Handled(p);
    forall k | 0 <= k < |t.meanings|
      ensures t.meanings[k] == Parsed(t.offered[..Handled(p)])[k]
    {
      assert t.kept[k] == k;
    }
  }

  lemma PromptRun(ps: seq<Pipe>, es: seq<Event>, n: nat)
    requires Run(ps, es) && n <= |es| && forall i | 0 <= i < n :: Prompt(ps[i], es[i])
    ensures NothingLost(ps[n])
  {
    for i := 0 to n
      invariant NothingLost(ps[i])
    {
      PromptStep(ps[i], es[i]);
    }
  }

  /** What has got through, of these frames. */
  ghost predicate AllThrough(p: Pipe, frames: seq<seq<char>>) {
    var handled := |frames| - |p.rx.queue| - if p.line.Some? then 1 else 0;
    && 0 <= handled && p.trace.consumed + p.bus.queue == Commands(Parsed(frames[..handled]))
    && p.rx.drops == 0 && p.trace.rejected == 0
  }

  lemma OfferedGetThrough(p: Pipe)
    requires PipeOk(p) && NothingLost(p)
    ensures AllThrough(p, p.trace.offered)
  {
    MeaningsOfFrames(p);
    assert Handled(p) == |p.trace.offered| - |p.rx.queue| - if p.line.Some? then 1 else 0;
  }

  /** A system that keeps up loses nothing. Over every run in which the receive queue is never full when a byte
      arrives, nor the bus when a line is dealt with: the commands accepted are exactly those that the frames of
      the stream say, in order, up to the frames that are still waiting; and Motion gets them all, in order. */
  lemma EveryCommandGetsThrough(ps: seq<Pipe>, es: seq<Event>, n: nat)
    requires Run(ps, es) && n <= |es| && forall i | 0 <= i < n :: Prompt(ps[i], es[i])
    ensures AllThrough(ps[n], Frames(Bytes(es[..n])))
  {
    PromptRun(ps, es, n);
    RunKeepsPipe(ps, es, n);
    StreamIsBytes(ps, es, n);
    InterruptComputesFrames(ps[n].trace.stream);
    OfferedGetThrough(ps[n]);
  }

  // The Communications task.

  /** Lines that mean this, read and dealt with one after the other. */
  function Polled(p: Pipe, meanings: seq<Meaning>): (q: Pipe)
    requires p.line.None? && BusOk(p.bus)
    ensures q.line.None? && BusOk(q.bus)
  {
    if meanings == [] then p
    else DispatchedAs(LineRead(Polled(p, meanings[..|meanings| - 1])), meanings[|meanings| - 1])
  }

  lemma PolledOn(p: Pipe, meanings: seq<Meaning>, m: Meaning)
    requires p.line.None? && BusOk(p.bus)
    ensures Polled(p, meanings + [m]) == DispatchedAs(LineRead(Polled(p, meanings)), m)
  {
    assert (meanings + [m])[..|meanings|] == meanings;
  }

  class CommsTask {
    const uart: UartReceiver
    const bus: CommandBus
    const slot: Slot
    var parseErrors: Word
    ghost var trace: Trace

    ghost predicate Valid()
      reads this, uart, bus
    {
      uart.Valid() && bus.Valid()
    }

    ghost function View(): Pipe
      reads this, uart, uart.text, bus
      requires Valid()
    {
      Pipe(uart.View(), None, bus.View(), parseErrors, trace)
    }

    constructor ()
      ensures Valid() && View() == START
      ensures fresh(uart) && fresh(uart.text) && fresh(bus) && fresh(slot)
    {
      uart := new UartReceiver();
      bus := new CommandBus();
      slot := new Slot(Command(Status, 0));
      parseErrors := 0;
      trace := START.trace;
    }

    /** One line from the queue to the bus. */
    method HandleLine() returns (ok: bool, ghost m: Meaning)
      requires Valid()
      modifies this, uart`queue, bus, slot
      ensures Valid() && ok == (old(uart.queue) != [])
      ensures ok ==> m == ParseLine(old(uart.queue)[0]) && View() == DispatchedAs(LineRead(old(View())), m)
      ensures ok ==> [old(uart.queue)[0]] + uart.queue == old(uart.queue)
      ensures !ok ==> View() == old(View())
    {
      ghost var before := View();
      m := Refuses(ParseEmpty);
      var line;
      ok, line := uart.TryReadLine();
      if !ok {
        return;
      }
      ghost var read := LineRead(before);
      assert read.line == Some(line) && read.rx == uart.View();
      slot.command := Command(Status, 0);
      var result := Parse(line, slot);
      m := ParseLine(line);
      trace := DispatchedAs(read, m).trace;
      if result != ParseOk {
        parseErrors := Wrap(parseErrors + 1);
      } else {
        var accepted := bus.Send(slot.command);
      }
    }

    /** The lines that one wake-up deals with: the oldest ones, four at most, and each as it parses. */
    method Poll() returns (ghost meanings: seq<Meaning>)
      requires Valid()
      modifies this, uart`queue, bus, slot
      ensures Valid() && View() == Polled(old(View()), meanings)
      ensures |meanings| <= 4 && |meanings| <= |old(uart.queue)|
      ensures |meanings| < 4 ==> uart.queue == []
      ensures forall k | 0 <= k < |meanings| :: meanings[k] == ParseLine(old(uart.queue)[k])
    {
      ghost var before, lines := View(), uart.queue;
      meanings := [];
      for i := 0 to LINES_PER_WAKE
        invariant Valid() && |meanings| == i <= |lines| && uart.queue == lines[i..]
        invariant before.line.None? && BusOk(before.bus) && View() == Polled(before, meanings)
        invariant forall k | 0 <= k < i :: meanings[k] == ParseLine(lines[k])
      {
        var ok;
        ghost var m;
        ok, m := HandleLine();
        if !ok {
          break;
        }
        PolledOn(before, meanings, m);
        meanings := meanings + [m];
      }
    }
  }
}
