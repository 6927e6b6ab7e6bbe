/** The receive interrupt: bytes to frames, one at a time. */
module UartFraming {
  const LINE_CAPACITY := 64
  const RX_FRAMES := 16

  /** One interrupt: what the status register shows, and the byte. */
  datatype Arrival = Arrival(ready: bool, error: bool, byte: char)

  datatype Receiver = Receiver(
    partial: seq<char>, skipLf: bool, discard: bool,
    queue: seq<seq<char>>, drops: nat, errors: nat)

  const IDLE_LINE := Receiver([], false, false, [], 0, 0)

  /** A line as the frame buffer keeps it: at most 64 bytes of it. */
  function Cut(line: seq<char>): seq<char> {
    if |line| <= 64 then line else line[..64]
  }

  predicate IsEnd(c: char) {
    c == '\r' || c == '\n'
  }

  /** A complete frame goes to the queue, or is dropped if the queue is full. */
  function Deliver(r: Receiver): Receiver {
    if |r.queue| < RX_FRAMES then r.(queue := r.queue + [r.partial]) else r.(drops := r.drops + 1)
  }

  function Received(r: Receiver, a: Arrival): Receiver {
    if !a.ready && !a.error then r
    else if a.error then r.(errors := r.errors + 1, partial := [], discard := true)
    else if a.byte == '\n' && r.skipLf then r.(skipLf := false)
    else
      var s := r.(skipLf := a.byte == '\r');
      if IsEnd(a.byte) then (if r.discard then s else Deliver(s)).(partial := [], discard := false)
      else if r.discard || |r.partial| >= LINE_CAPACITY then s
      else s.(partial := r.partial + [a.byte])
  }

  class UartReceiver {
    const text: array<char>
    var length: nat
    var skipLf: bool
    var discard: bool
    var queue: seq<seq<char>>
    var drops: nat
    var errors: nat

    ghost predicate Valid()
      reads this
    {
      text.Length == LINE_CAPACITY && length <= LINE_CAPACITY && |queue| <= RX_FRAMES
    }

    ghost function View(): Receiver
      reads this, text
      requires Valid()
    {
      Receiver(text[..length], skipLf, discard, queue, drops, errors)
    }

    constructor ()
      ensures Valid() && fresh(text) && View() == IDLE_LINE
    {
      text := new char[LINE_CAPACITY];
      length, skipLf, discard := 0, false, false;
      queue, drops, errors := [], 0, 0;
    }

    method Interrupt(a: Arrival)
      requires Valid()
      modifies this, text
      ensures Valid() && View() == Received(old(View()), a)
    {
      if !a.ready && !a.error {
        return;
      }
      if a.error {
        errors := errors + 1;
        length := 0;
        discard := true;
        return;
      }
      if a.byte == '\n' && skipLf {
        skipLf := false;
        return;
      }
      skipLf := a.byte == '\r';
      if a.byte == '\r' || a.byte == '\n' {
        if !discard {
          if |queue| < RX_FRAMES {
            queue := queue + [text[..length]];
          } else {
            drops := drops + 1;
          }
        }
        length := 0;
        discard := false;
      } else if !discard && length < LINE_CAPACITY {
        text[length] := a.byte;
        length := length + 1;
      }
    }

    /** The oldest frame, if there is one. */
    method TryReadLine() returns (ok: bool, line: seq<char>)
      requires Valid()
      modifies this`queue
      ensures Valid()
      ensures ok == (old(queue) != [])
      ensures ok ==> [line] + queue == old(queue)
      ensures !ok ==> queue == old(queue)
    {
      ok, line := queue != [], [];
      if ok {
        line := queue[0];
        queue := queue[1..];
      }
    }
  }

  // What the stream means.

  /** A byte, or a byte received with a line error. */
  datatype Symbol = Data(c: char) | Noise

  function AsArrival(s: Symbol): Arrival {
    match s
    case Data(c) => Arrival(true, false, c)
    case Noise => Arrival(true, true, '\0')
  }

  predicate Ends(s: Symbol) {
    s.Data? && IsEnd(s.c)
  }

  /** The index of the first terminator, or the length of the stream. */
  function FirstEnd(s: seq<Symbol>): (i: nat)
    ensures i <= |s|
    ensures i < |s| ==> Ends(s[i])
    ensures forall j | 0 <= j < i :: !Ends(s[j])
  {
    if s == [] || Ends(s[0]) then 0 else 1 + FirstEnd(s[1..])
  }

  predicate Clean(s: seq<Symbol>) {
    forall i | 0 <= i < |s| :: s[i].Data?
  }

  function Chars(s: seq<Symbol>): (t: seq<char>)
    requires Clean(s)
    ensures |t| == |s| && forall i | 0 <= i < |s| :: t[i] == s[i].c
  {
    seq(|s|, i requires 0 <= i < |s| => s[i].c)
  }

  /** What follows a CR: the LF that completes it is taken out, even from behind line errors. */
  function AfterCr(s: seq<Symbol>): (t: seq<Symbol>)
    ensures |t| <= |s|
  {
    if s == [] then s
    else if s[0] == Data('\n') then s[1..]
    else if s[0].Noise? then [Noise] + AfterCr(s[1..])
    else s
  }

  /** The frames of a stream: its lines, ended by CR, LF or CRLF, each cut to the buffer; a line with a
      line error in it yields nothing, and neither does an unfinished line. */
  function Frames(s: seq<Symbol>): seq<seq<char>>
    decreases |s|
  {
    if FirstEnd(s) == |s| then [] else FrameOf(s[..FirstEnd(s)]) + Frames(AfterLine(s))
  }

  // The interrupt computes the frames.

  /** The receiver with an unbounded queue: everything it ever offers. */
  function Offered(r: Receiver, a: Arrival): Receiver {
    var s := Received(r.(queue := []), a);
    s.(queue := r.queue + s.queue)
  }

  function Fed(r: Receiver, s: seq<Symbol>): Receiver
    decreases |s|
  {
    if s == [] then r else Fed(Offered(r, AsArrival(s[0])), s[1..])
  }

  lemma {:induction false} FedAppends(r: Receiver, s: seq<Symbol>, t: seq<Symbol>)
    ensures Fed(r, s + t) == Fed(Fed(r, s), t)
    decreases |s|
  {
    if s == [] {
      assert s + t == t;
    } else {
      assert (s + t)[0] == s[0] && (s + t)[1..] == s[1..] + t;
      FedAppends(Offered(r, AsArrival(s[0])), s[1..], t);
    }
  }

  /** How a stretch without a terminator takes the receiver from `r` to `t`: the partial line grows until
      the buffer is full, unless an error has spoilt it. */
  predicate Stretched(r: Receiver, s: seq<Symbol>, t: Receiver) {
    && t.queue == r.queue && t.discard == (r.discard || !Clean(s))
    && (t.discard ==> t.partial == [])
    && (!t.discard ==> Clean(s) && t.partial == Cut(r.partial + Chars(s)))
    && t.skipLf == (r.skipLf && forall i | 0 <= i < |s| :: s[i].Noise?)
  }

  predicate PartialOk(r: Receiver) {
    |r.partial| <= LINE_CAPACITY && (r.discard ==> r.partial == [])
  }

  /** A full buffer keeps its first 64 bytes whatever follows. */
  lemma CutGrows(p: seq<char>, c: char, x: seq<char>)
    requires |p| <= LINE_CAPACITY
    ensures Cut((if |p| < LINE_CAPACITY then p + [c] else p) + x) == Cut(p + ([c] + x))
  {
    assert p + [c] + x == p + ([c] + x);
  }

  lemma StretchStep(r: Receiver, s: seq<Symbol>, t: Receiver)
    requires s != [] && !Ends(s[0]) && PartialOk(r)
    requires Stretched(Offered(r, AsArrival(s[0])), s[1..], t)
    ensures Stretched(r, s, t)
  {
    assert Clean(s) <==> s[0].Data? && Clean(s[1..]);
    assert (forall i | 0 <= i < |s| :: s[i].Noise?) <==>
           s[0].Noise? && forall i | 0 <= i < |s[1..]| :: s[1..][i].Noise?;
    if s[0].Data? && !r.discard && Clean(s[1..]) {
      CutGrows(r.partial, s[0].c, Chars(s[1..]));
      assert Chars(s) == [s[0].c] + Chars(s[1..]);
    }
  }

  lemma {:induction false} FedStretch(r: Receiver, s: seq<Symbol>)
    requires (forall i | 0 <= i < |s| :: !Ends(s[i])) && PartialOk(r)
    ensures Stretched(r, s, Fed(r, s))
    decreases |s|
  {
    if s == [] {
      assert r.partial + Chars(s) == r.partial;
    } else {
      FedStretch(Offered(r, AsArrival(s[0])), s[1..]);
      StretchStep(r, s, Fed(r, s));
    }
  }

  /** A pending CR absorbs the LF that follows it: feeding the stream is feeding what is left of it. */
  lemma {:induction false} PendingCrAbsorbs(r: Receiver, s: seq<Symbol>)
    requires r.skipLf && r.partial == []
    ensures Fed(r, s).queue == Fed(r.(skipLf := false), AfterCr(s)).queue
    decreases |s|
  {
    if s != [] {
      if s[0].Noise? {
        var u := Offered(r, AsArrival(s[0]));
        PendingCrAbsorbs(u, s[1..]);
        assert AfterCr(s)[0] == Noise && AfterCr(s)[1..] == AfterCr(s[1..]);
        assert Offered(r.(skipLf := false), AsArrival(Noise)) == u.(skipLf := false);
      } else if s[0].c == '\n' {
        assert Offered(r, AsArrival(s[0])) == r.(skipLf := false);
      } else {
        assert Offered(r, AsArrival(s[0])) == Offered(r.(skipLf := false), AsArrival(s[0]));
      }
    }
  }

  /** The frame that a line yields, if any. */
  function FrameOf(line: seq<Symbol>): seq<seq<char>> {
    if Clean(line) then [Cut(Chars(line))] else []
  }

  /** Feeding a line and its terminator, from a line start. */
  lemma FedLine(r: Receiver, line: seq<Symbol>, end: Symbol)
    requires r.partial == [] && !r.discard && !r.skipLf
    requires (forall i | 0 <= i < |line| :: !Ends(line[i])) && Ends(end)
    ensures var u := Offered(Fed(r, line), AsArrival(end));
            && u.queue == r.queue + FrameOf(line)
            && u.partial == [] && !u.discard && u.skipLf == (end == Data('\r'))
  {
    FedStretch(r, line);
    if Clean(line) {
      assert [] + Chars(line) == Chars(line);
    }
  }

  lemma FedSplit(r: Receiver, line: seq<Symbol>, end: Symbol, rest: seq<Symbol>)
    ensures Fed(r, line + [end] + rest) == Fed(Offered(Fed(r, line), AsArrival(end)), rest)
  {
    FedAppends(r, line, [end] + rest);
    assert line + [end] + rest == line + ([end] + rest);
    assert ([end] + rest)[1..] == rest;
  }

  /** What is left of a stream after the first line. */
  function AfterLine(s: seq<Symbol>): (rest: seq<Symbol>)
    requires FirstEnd(s) < |s|
    ensures |rest| < |s|
  {
    var i := FirstEnd(s);
    if s[i] == Data('\r') then AfterCr(s[i + 1..]) else s[i + 1..]
  }

  predicate LineStart(r: Receiver) {
    r.partial == [] && !r.discard && !r.skipLf
  }

  /** Feeding a stream from a line start is feeding its first line, then the rest from a line start again. */
  lemma FedFirstLine(r: Receiver, s: seq<Symbol>) returns (u: Receiver)
    requires LineStart(r) && FirstEnd(s) < |s|
    ensures LineStart(u) && u.queue == r.queue + FrameOf(s[..FirstEnd(s)])
    ensures Fed(r, s).queue == Fed(u, AfterLine(s)).queue
  {
    var i := FirstEnd(s);
    var line, end, rest := s[..i], s[i], s[i + 1..];
    assert s == line + [end] + rest;
    FedSplit(r, line, end, rest);
    FedLine(r, line, end);
    var v := Offered(Fed(r, line), AsArrival(end));
    if v.skipLf {
      PendingCrAbsorbs(v, rest);
    }
    u := v.(skipLf := false);
  }

  lemma FedUnfinished(r: Receiver, s: seq<Symbol>)
    requires LineStart(r) && FirstEnd(s) == |s|
    ensures Fed(r, s).queue == r.queue
  {
    FedStretch(r, s);
  }

  lemma FramesStep(s: seq<Symbol>)
    ensures Frames(s) == if FirstEnd(s) == |s| then [] else FrameOf(s[..FirstEnd(s)]) + Frames(AfterLine(s))
  {
  }

  lemma Regroup(a: seq<seq<char>>, b: seq<seq<char>>, c: seq<seq<char>>)
    ensures a + b + c == a + (b + c)
  {
  }

  /** From a line start, the frames offered are the frames of the stream. */
  lemma {:induction false} FedFromLineStart(r: Receiver, s: seq<Symbol>)
    requires LineStart(r)
    ensures Fed(r, s).queue == r.queue + Frames(s)
    decreases |s|
  {
    FramesStep(s);
    if FirstEnd(s) == |s| {
      FedUnfinished(r, s);
    } else {
      var u := FedFirstLine(r, s);
      FedFromLineStart(u, AfterLine(s));
      Regroup(r.queue, FrameOf(s[..FirstEnd(s)]), Frames(AfterLine(s)));
    }
  }

  /** Every frame that the interrupt offers, over any stream of good and bad bytes from reset on, is the
      frame of a line of that stream, and every such frame is offered, in order. */
  lemma InterruptComputesFrames(s: seq<Symbol>)
    ensures Fed(IDLE_LINE, s).queue == Frames(s)
  {
    FedFromLineStart(IDLE_LINE, s);
  }

  /** The bytes of a stream that came with a line error. */
  function Errors(s: seq<Symbol>): nat {
    if s == [] then 0 else (if s[0].Noise? then 1 else 0) + Errors(s[1..])
  }

  /** Every line error is counted, and nothing else is. */
  lemma {:induction false} ErrorsAreCounted(r: Receiver, s: seq<Symbol>)
    ensures Fed(r, s).errors == r.errors + Errors(s)
    decreases |s|
  {
    if s != [] {
      ErrorsAreCounted(Offered(r, AsArrival(s[0])), s[1..]);
    }
  }

  // Where the frames are in the stream.

  /** Right behind a CR, but for line errors. */
  predicate BehindCr(s: seq<Symbol>, j: nat)
    requires j <= |s|
  {
    j > 0 && (s[j - 1] == Data('\r') || (s[j - 1].Noise? && BehindCr(s, j - 1)))
  }

  /** The LF that completes a CR, even from behind line errors; it ends no line. */
  predicate Absorbed(s: seq<Symbol>, j: nat)
    requires j < |s|
  {
    s[j] == Data('\n') && BehindCr(s, j)
  }

  lemma {:induction false} CrBefore(s: seq<Symbol>, j: nat) returns (m: nat)
    requires j <= |s| && BehindCr(s, j)
    ensures m < j && s[m] == Data('\r') && forall y | m < y < j :: s[y] == Noise
  {
    m := j - 1;
    if s[j - 1] != Data('\r') {
      m := CrBefore(s, j - 1);
    }
  }

  lemma {:induction false} CrIsBefore(s: seq<Symbol>, m: nat, j: nat)
    requires m < j <= |s| && s[m] == Data('\r') && forall y | m < y < j :: s[y] == Noise
    ensures BehindCr(s, j)
  {
    if m < j - 1 {
      CrIsBefore(s, m, j - 1);
    }
  }

  /** A line can begin at i: at the start of the stream, or right behind a terminator; and if that is an
      absorbed LF, it must be right behind its CR. */
  predicate Opens(s: seq<Symbol>, i: nat)
    requires i <= |s|
  {
    i == 0 || (Ends(s[i - 1]) && (Absorbed(s, i - 1) ==> s[i - 2] == Data('\r')))
  }

  /** A whole line of the stream: it begins where lines begin, holds data only, and a terminator ends it. */
  predicate IsLine(s: seq<Symbol>, i: nat, j: nat)
    requires i <= j < |s|
  {
    && Opens(s, i) && Ends(s[j]) && !Absorbed(s, j)
    && forall k | i <= k < j :: s[k].Data? && !Ends(s[k])
  }

  /** The frame is what the buffer keeps of the line. */
  predicate LineMakes(s: seq<Symbol>, i: nat, j: nat, frame: seq<char>)
    requires i <= j < |s|
  {
    IsLine(s, i, j) && Clean(s[i..j]) && frame == Cut(Chars(s[i..j]))
  }

  lemma LineIsClean(s: seq<Symbol>, i: nat, j: nat)
    requires i <= j < |s| && IsLine(s, i, j)
    ensures Clean(s[i..j])
  {
    assert forall k | 0 <= k < j - i :: s[i..j][k] == s[i + k];
  }

  /** All that AfterCr ever does is to take one LF out from behind `k` errors. */
  lemma {:induction false} AfterCrRemoves(s: seq<Symbol>) returns (k: nat)
    requires AfterCr(s) != s
    ensures k < |s| && s[k] == Data('\n') && (forall m | 0 <= m < k :: s[m] == Noise)
    ensures AfterCr(s) == s[..k] + s[k + 1..]
    decreases |s|
  {
    k := 0;
    if s[0].Noise? {
      var n := AfterCrRemoves(s[1..]);
      assert s[1..][..n] == s[1..n + 1] && s[1..][n + 1..] == s[n + 2..];
      assert forall m | 0 < m < n + 1 :: s[m] == s[1..][m - 1];
      k := n + 1;
    }
  }

  /** And it takes out any LF that is there. */
  lemma {:induction false} AfterCrFinds(s: seq<Symbol>, k: nat)
    requires k < |s| && s[k] == Data('\n') && forall m | 0 <= m < k :: s[m] == Noise
    ensures |AfterCr(s)| < |s|
    decreases |s|
  {
    if k > 0 {
      assert s[1..][k - 1] == s[k];
      AfterCrFinds(s[1..], k - 1);
    }
  }

  /** How the rest u behind the first line of s lies in s: at distance d, but for q errors that the LF
      taken out came behind. */
  predicate LiesBehind(s: seq<Symbol>, e: nat, u: seq<Symbol>, q: nat, d: nat) {
    && e < d && d + |u| == |s| && q <= |u| && Ends(s[e]) && (forall m | 0 <= m < e :: !Ends(s[m]))
    && (forall x | q <= x < |u| :: u[x] == s[x + d])
    && (forall x | 0 <= x < q :: u[x] == Noise && s[e + 1 + x] == Noise)
    && (|| (d == e + 1 && q == 0 && (s[e] == Data('\r') ==> AfterCr(s[e + 1..]) == s[e + 1..]))
        || (d == e + 2 && s[e] == Data('\r') && s[e + 1 + q] == Data('\n')))
  }

  lemma NothingTaken(s: seq<Symbol>, e: nat, u: seq<Symbol>)
    requires e < |s| && Ends(s[e]) && (forall m | 0 <= m < e :: !Ends(s[m])) && u == s[e + 1..]
    requires s[e] == Data('\r') ==> AfterCr(u) == u
    ensures LiesBehind(s, e, u, 0, e + 1)
  {
  }

  lemma LfTakenOut(s: seq<Symbol>, e: nat, rest: seq<Symbol>, u: seq<Symbol>) returns (q: nat)
    requires e < |s| && rest == s[e + 1..] && s[e] == Data('\r') && u == AfterCr(rest) != rest
    requires forall m | 0 <= m < e :: !Ends(s[m])
    ensures LiesBehind(s, e, u, q, e + 2)
  {
    q := AfterCrRemoves(rest);
    forall x | q <= x < |u|
      ensures u[x] == s[x + e + 2]
    {
      assert u[x] == rest[x + 1];
    }
    forall x | 0 <= x < q
      ensures u[x] == Noise && s[e + 1 + x] == Noise
    {
      assert u[x] == rest[x];
    }
    assert s[e + 1 + q] == rest[q];
  }

  /** A CR that AfterCr has found no LF behind completes none. */
  lemma NothingTakenOut(s: seq<Symbol>, e: nat, x: nat)
    requires e < x < |s| && AfterCr(s[e + 1..]) == s[e + 1..]
    requires forall y | e < y < x :: s[y] == Noise
    ensures s[x] != Data('\n')
  {
    var rest := s[e + 1..];
    assert forall m | 0 <= m < x - e - 1 :: rest[m] == s[m + e + 1];
    if s[x] == Data('\n') {
      AfterCrFinds(rest, x - e - 1);
    }
  }

  /** Whether a CR is before it does not depend on where the rest lies, unless it is the CR that ends the first
      line; and that completes no LF of the rest. */
  lemma {:induction false} BehindCrMoves(s: seq<Symbol>, e: nat, u: seq<Symbol>, q: nat, d: nat, x: nat)
    requires LiesBehind(s, e, u, q, d) && q <= x <= |u|
    ensures BehindCr(u, x) ==> BehindCr(s, x + d)
    ensures BehindCr(s, x + d) && !BehindCr(u, x) ==>
              d == e + 1 && s[e] == Data('\r') && forall y | e < y < x + d :: s[y] == Noise
  {
    if x > q {
      assert u[x - 1] == s[x - 1 + d];
      BehindCrMoves(s, e, u, q, d, x - 1);
    } else if BehindCr(u, x) {
      var m := CrBefore(u, x);
      assert false;
    }
  }

  lemma AbsorbedMoves(s: seq<Symbol>, e: nat, u: seq<Symbol>, q: nat, d: nat, x: nat)
    requires LiesBehind(s, e, u, q, d) && q <= x < |u|
    ensures Absorbed(u, x) <==> Absorbed(s, x + d)
  {
    assert u[x] == s[x + d];
    BehindCrMoves(s, e, u, q, d, x);
    if BehindCr(s, x + d) && !BehindCr(u, x) {
      NothingTakenOut(s, e, x + d);
    }
  }

  lemma OpensMoves(s: seq<Symbol>, e: nat, u: seq<Symbol>, q: nat, d: nat, i: nat)
    requires LiesBehind(s, e, u, q, d) && q <= i <= |u| && (i == q ==> q == 0)
    ensures Opens(u, i) <==> Opens(s, i + d)
  {
    if i > q {
      AbsorbedMoves(s, e, u, q, d, i - 1);
      assert u[i - 1] == s[i - 1 + d];
      if i - 1 > q {
        assert u[i - 2] == s[i - 2 + d];
      } else if BehindCr(u, q) {
        var m := CrBefore(u, q);
        assert false;
      }
    } else if BehindCr(s, e) {
      var m := CrBefore(s, e);
      assert false;
    }
  }

  /** A line does not begin behind errors on its own line. */
  lemma NoLineBehindNoise(s: seq<Symbol>, e: nat, u: seq<Symbol>, q: nat, d: nat, i: nat, j: nat)
    requires LiesBehind(s, e, u, q, d) && i <= j < |u| && (i < q || (i == q && q > 0))
    ensures !IsLine(u, i, j) && !IsLine(s, i + d, j + d)
  {
    if i == q {
      forall y | e < y < e + 1 + q
        ensures s[y] == Noise
      {
        assert u[y - e - 1] == Noise;
      }
      CrIsBefore(s, e, e + 1 + q);
      assert Absorbed(s, e + 1 + q);
    } else {
      assert u[i] == Noise;
      assert s[i + d - 1] == Noise;
    }
  }

  /** The lines of the rest are the lines of the stream behind its first. */
  lemma LinesMove(s: seq<Symbol>, e: nat, u: seq<Symbol>, q: nat, d: nat, i: nat, j: nat)
    requires LiesBehind(s, e, u, q, d) && i <= j < |u|
    ensures IsLine(u, i, j) <==> IsLine(s, i + d, j + d)
    ensures IsLine(u, i, j) ==> u[i..j] == s[i + d..j + d]
  {
    if i < q || (i == q && q > 0) {
      NoLineBehindNoise(s, e, u, q, d, i, j);
    } else {
      OpensMoves(s, e, u, q, d, i);
      AbsorbedMoves(s, e, u, q, d, j);
      assert forall k | i <= k < j :: u[k] == s[k + d];
      assert forall k | i + d <= k < j + d :: s[k] == u[k - d];
    }
  }

  lemma LineMakesMoves(s: seq<Symbol>, e: nat, u: seq<Symbol>, q: nat, d: nat, i: nat, j: nat, frame: seq<char>)
    requires LiesBehind(s, e, u, q, d) && i <= j < |u| && LineMakes(u, i, j, frame)
    ensures LineMakes(s, i + d, j + d, frame)
  {
    LinesMove(s, e, u, q, d, i, j);
  }

  /** A line of the stream is the first one, or lies in the rest. */
  lemma FirstLineOrRest(s: seq<Symbol>, e: nat, u: seq<Symbol>, q: nat, d: nat, i: nat, j: nat)
    requires LiesBehind(s, e, u, q, d) && i <= j < |s| && IsLine(s, i, j)
    ensures (i == 0 && j == e) || i >= d
  {
    if i <= e {
      assert i == 0;
      assert j == e;
    } else {
      assert q > 0 ==> u[0] == Noise;
      assert d == e + 2 && q == 0 ==> Absorbed(s, e + 1);
    }
  }

  /** The first line is a line of the stream. */
  lemma FirstIsLine(s: seq<Symbol>, e: nat)
    requires e < |s| && Ends(s[e]) && Clean(s[..e]) && forall m | 0 <= m < e :: !Ends(s[m])
    ensures IsLine(s, 0, e) && s[0..e] == s[..e]
  {
    assert forall k | 0 <= k < e :: s[..e][k] == s[k];
  }

  lemma LineOfRest(s: seq<Symbol>, k: nat, l: nat, frame: seq<char>)
    requires FirstEnd(s) < |s| && k <= l < |AfterLine(s)| && LineMakes(AfterLine(s), k, l, frame)
    ensures exists i: nat, j: nat :: i <= j < |s| && LineMakes(s, i, j, frame)
  {
    var e, u := FirstEnd(s), AfterLine(s);
    if u == s[e + 1..] {
      NothingTaken(s, e, u);
      LineMakesMoves(s, e, u, 0, e + 1, k, l, frame);
    } else {
      var q := LfTakenOut(s, e, s[e + 1..], u);
      LineMakesMoves(s, e, u, q, e + 2, k, l, frame);
    }
  }

  /** No frame mixes data across an error or is a piece of a longer line: each is made of a whole line. */
  lemma {:induction false} FramesAreLines(s: seq<Symbol>, n: nat)
    requires n < |Frames(s)|
    ensures exists i: nat, j: nat :: i <= j < |s| && LineMakes(s, i, j, Frames(s)[n])
    decreases |s|
  {
    FramesStep(s);
    var e, frame, u := FirstEnd(s), Frames(s)[n], AfterLine(s);
    var here := FrameOf(s[..e]);
    if n < |here| {
      FirstIsLine(s, e);
      assert LineMakes(s, 0, e, frame);
    } else {
      FramesAreLines(u, n - |here|);
      var i: nat, j: nat :| i <= j < |u| && LineMakes(u, i, j, frame);
      LineOfRest(s, i, j, frame);
    }
  }

  lemma FirstLineMakesFrame(s: seq<Symbol>, e: nat)
    requires e == FirstEnd(s) < |s| && IsLine(s, 0, e)
    ensures |Frames(s)| > 0 && LineMakes(s, 0, e, Frames(s)[0])
  {
    LineIsClean(s, 0, e);
    assert s[0..e] == s[..e];
  }

  lemma RestMakesFrame(s: seq<Symbol>, m: nat) returns (n: nat)
    requires FirstEnd(s) < |s| && m < |Frames(AfterLine(s))|
    ensures n < |Frames(s)| && Frames(s)[n] == Frames(AfterLine(s))[m]
  {
    FramesStep(s);
    var here := FrameOf(s[..FirstEnd(s)]);
    FrameBehind(here, Frames(AfterLine(s)), m);
    n := |here| + m;
  }

  /** The same line in two streams. */
  predicate Corresponding(s: seq<Symbol>, i: nat, j: nat, u: seq<Symbol>, k: nat, l: nat) {
    i <= j < |s| && k <= l < |u| && IsLine(s, i, j) && IsLine(u, k, l) && s[i..j] == u[k..l]
  }

  lemma CorrespondingMakes(s: seq<Symbol>, i: nat, j: nat, u: seq<Symbol>, k: nat, l: nat, frame: seq<char>)
    requires Corresponding(s, i, j, u, k, l) && LineMakes(u, k, l, frame)
    ensures LineMakes(s, i, j, frame)
  {
  }

  /** A later line of s is a line of the rest. */
  lemma LineBehind(s: seq<Symbol>, e: nat, u: seq<Symbol>, q: nat, d: nat, i: nat, j: nat)
    requires LiesBehind(s, e, u, q, d) && i <= j < |s| && IsLine(s, i, j) && !(i == 0 && j == e)
    ensures d <= i && Corresponding(s, i, j, u, i - d, j - d)
  {
    FirstLineOrRest(s, e, u, q, d, i, j);
    LinesMove(s, e, u, q, d, i - d, j - d);
  }

  lemma LineInPlainRest(s: seq<Symbol>, e: nat, i: nat, j: nat)
    requires e < |s| && Ends(s[e]) && (forall m | 0 <= m < e :: !Ends(s[m]))
    requires s[e] == Data('\r') ==> AfterCr(s[e + 1..]) == s[e + 1..]
    requires i <= j < |s| && IsLine(s, i, j) && !(i == 0 && j == e)
    ensures e + 1 <= i && Corresponding(s, i, j, s[e + 1..], i - (e + 1), j - (e + 1))
  {
    NothingTaken(s, e, s[e + 1..]);
    LineBehind(s, e, s[e + 1..], 0, e + 1, i, j);
  }

  lemma LineInCutRest(s: seq<Symbol>, e: nat, u: seq<Symbol>, i: nat, j: nat)
    requires e < |s| && s[e] == Data('\r') && (forall m | 0 <= m < e :: !Ends(s[m]))
    requires u == AfterCr(s[e + 1..]) != s[e + 1..]
    requires i <= j < |s| && IsLine(s, i, j) && !(i == 0 && j == e)
    ensures e + 2 <= i && Corresponding(s, i, j, u, i - (e + 2), j - (e + 2))
  {
    var q := LfTakenOut(s, e, s[e + 1..], u);
    LineBehind(s, e, u, q, e + 2, i, j);
  }

  lemma LineInRest(s: seq<Symbol>, i: nat, j: nat) returns (k: nat, l: nat)
    requires FirstEnd(s) < |s| && i <= j < |s| && IsLine(s, i, j) && !(i == 0 && j == FirstEnd(s))
    ensures Corresponding(s, i, j, AfterLine(s), k, l)
  {
    var e, u := FirstEnd(s), AfterLine(s);
    if u == s[e + 1..] {
      LineInPlainRest(s, e, i, j);
      k, l := i - (e + 1), j - (e + 1);
    } else {
      LineInCutRest(s, e, u, i, j);
      k, l := i - (e + 2), j - (e + 2);
    }
  }

  /** And no whole line is passed over: each makes one of the frames. */
  lemma {:induction false} LinesAreFrames(s: seq<Symbol>, i: nat, j: nat) returns (n: nat, frame: seq<char>)
    requires i <= j < |s| && IsLine(s, i, j)
    ensures n < |Frames(s)| && Frames(s)[n] == frame && LineMakes(s, i, j, frame)
    decreases |s|
  {
    FirstEndBefore(s, j);
    if i == 0 && j == FirstEnd(s) {
      FirstLineMakesFrame(s, j);
      n, frame := 0, Frames(s)[0];
    } else {
      var k, l := LineInRest(s, i, j);
      var m: nat;
      m, frame := LinesAreFrames(AfterLine(s), k, l);
      CorrespondingMakes(s, i, j, AfterLine(s), k, l, frame);
      n := RestMakesFrame(s, m);
    }
  }

  lemma FrameBehind(a: seq<seq<char>>, b: seq<seq<char>>, n: nat)
    requires n < |b|
    ensures (a + b)[|a| + n] == b[n]
  {
  }

  lemma FirstEndBefore(s: seq<Symbol>, j: nat)
    requires j < |s| && Ends(s[j])
    ensures FirstEnd(s) <= j
  {
  }

  // An LF is taken with its CR even from behind line errors, and then it no longer ends what they spoil.

  lemma FramesSplit(line: seq<Symbol>, end: Symbol, rest: seq<Symbol>)
    requires Ends(end) && forall i | 0 <= i < |line| :: !Ends(line[i])
    ensures Frames(line + [end] + rest) == FrameOf(line) + Frames(if end == Data('\r') then AfterCr(rest) else rest)
  {
    var s := line + [end] + rest;
    FramesStep(s);
    assert s[|line|] == end;
    assert FirstEnd(s) == |line|;
    assert s[..|line|] == line && s[|line| + 1..] == rest;
  }

  lemma AfterCrNoise(x: Symbol, rest: seq<Symbol>)
    requires x.Data?
    ensures AfterCr([Noise, x] + rest) == if x == Data('\n') then [Noise] + rest else [Noise, x] + rest
  {
    var s := [Noise, x] + rest;
    assert s[1..] == [x] + rest;
    assert ([x] + rest)[1..] == rest;
    assert [Noise] + ([x] + rest) == s;
  }

  lemma EmptyLineFirst(tail: seq<Symbol>)
    ensures Frames([Data('\r')] + tail) == [[]] + Frames(AfterCr(tail))
  {
    FramesSplit([], Data('\r'), tail);
    assert [] + [Data('\r')] + tail == [Data('\r')] + tail;
    assert FrameOf([]) == [[]];
  }

  /** A line with an error in front is lost. */
  lemma SpoiledLineIsLost(line: seq<Symbol>, end: Symbol, rest: seq<Symbol>)
    requires Ends(end) && forall i | 0 <= i < |line| :: !Ends(line[i])
    ensures Frames([Noise] + line + [end] + rest) == Frames(if end == Data('\r') then AfterCr(rest) else rest)
  {
    FramesSplit([Noise] + line, end, rest);
    assert ([Noise] + line)[0] == Noise;
  }

  lemma ErrorIsOver(rest: seq<Symbol>)
    ensures Frames([Noise, Data('\r')] + rest) == Frames(AfterCr(rest))
  {
    FramesSplit([Noise], Data('\r'), rest);
    assert [Noise] + [Data('\r')] + rest == [Noise, Data('\r')] + rest;
    assert FrameOf([Noise]) == [];
  }

  /** An error between CR and LF: the LF is taken with the CR, so the error spoils the line behind it. */
  lemma ErrorBeforeLf(rest: seq<Symbol>)
    ensures Frames([Data('\r')] + ([Noise, Data('\n')] + rest)) == [[]] + Frames([Noise] + rest)
  {
    EmptyLineFirst([Noise, Data('\n')] + rest);
    AfterCrNoise(Data('\n'), rest);
  }

  /** An error between two CRs: the second ends what the error spoils, and the line behind it is sound. */
  lemma ErrorBeforeCr(rest: seq<Symbol>)
    ensures Frames([Data('\r')] + ([Noise, Data('\r')] + rest)) == [[]] + Frames(AfterCr(rest))
  {
    EmptyLineFirst([Noise, Data('\r')] + rest);
    AfterCrNoise(Data('\r'), rest);
    ErrorIsOver(rest);
  }

  /** An error-free stream at its line ends: CR, LF, or CR LF taken together. */
  function Lines(text: seq<char>): seq<seq<char>>
    decreases |text|
  {
    var i := FirstEndIn(text);
    if i == |text| then []
    else if text[i] == '\r' && i + 1 < |text| && text[i + 1] == '\n' then [text[..i]] + Lines(text[i + 2..])
    else [text[..i]] + Lines(text[i + 1..])
  }

  function FirstEndIn(text: seq<char>): (i: nat)
    ensures i <= |text|
    ensures i < |text| ==> IsEnd(text[i])
    ensures forall j | 0 <= j < i :: !IsEnd(text[j])
  {
    if text == [] || IsEnd(text[0]) then 0 else 1 + FirstEndIn(text[1..])
  }

  function AllData(text: seq<char>): (s: seq<Symbol>)
    ensures |s| == |text| && forall i | 0 <= i < |text| :: s[i] == Data(text[i])
  {
    seq(|text|, i requires 0 <= i < |text| => Data(text[i]))
  }

  function CutAll(lines: seq<seq<char>>): (cut: seq<seq<char>>)
    ensures |cut| == |lines|
  {
    if lines == [] then [] else [Cut(lines[0])] + CutAll(lines[1..])
  }

  lemma FirstEndAgrees(s: seq<Symbol>, i: nat)
    requires i <= |s| && (forall j | 0 <= j < i :: !Ends(s[j])) && (i < |s| ==> Ends(s[i]))
    ensures FirstEnd(s) == i
  {
  }

  /** Without line errors the frames are the lines, each cut to 64 bytes. */
  lemma {:induction false} FramesOfText(text: seq<char>)
    ensures Frames(AllData(text)) == CutAll(Lines(text))
    decreases |text|
  {
    var s, i := AllData(text), FirstEndIn(text);
    FirstEndAgrees(s, i);
    if i < |text| {
      assert Chars(s[..i]) == text[..i];
      if text[i] == '\r' && i + 1 < |text| && text[i + 1] == '\n' {
        assert s[i + 1..][1..] == AllData(text[i + 2..]);
        FramesOfText(text[i + 2..]);
      } else {
        assert s[i + 1..] == AllData(text[i + 1..]);
        FramesOfText(text[i + 1..]);
      }
    }
  }

  lemma TextFrames(text: seq<char>)
    ensures Fed(IDLE_LINE, AllData(text)).queue == CutAll(Lines(text))
  {
    InterruptComputesFrames(AllData(text));
    FramesOfText(text);
  }
}
