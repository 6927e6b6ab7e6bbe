/** The command line: its grammar, and the scanner that reads it. */
module CommandLine {
  import opened Words
  import opened CommandTypes

  const COMMAND_LINE_CAPACITY := 64

  datatype ParseResult = ParseOk | ParseEmpty | ParseUnknown | ParseArgument | ParseTooLong

  /** What a line means: a command, or the reason for refusing it. */
  datatype Meaning = Accepts(command: Command) | Refuses(reason: ParseResult)

  datatype Entry = Entry(name: string, kind: CommandType, argument: bool)

  const COMMANDS: seq<Entry> := [
    Entry("MOVE", MoveAbs, true), Entry("MOVE_REL", MoveRel, true), Entry("SPEED", SetSpeed, true),
    Entry("HOME", Home, false), Entry("STOP", Stop, false), Entry("ESTOP", EmergencyStop, false),
    Entry("RESET", Reset, false), Entry("STATUS", Status, false), Entry("HELP", Help, false)
  ]

  predicate IsBlank(c: char) {
    c == ' ' || c == '\t' || c == '\r' || c == '\n'
  }

  predicate IsDigit(c: char) {
    '0' <= c <= '9'
  }

  function DigitOf(c: char): (d: nat)
    requires IsDigit(c)
    ensures d < 10
  {
    c as int - '0' as int
  }

  predicate AllBlank(s: string) {
    forall i | 0 <= i < |s| :: s[i] == ' ' || s[i] == '\t' || s[i] == '\r' || s[i] == '\n'
  }

  predicate AllDigits(s: string) {
    forall i | 0 <= i < |s| :: IsDigit(s[i])
  }

  /** The number that digits denote. */
  function Value(digits: string): nat
    requires AllDigits(digits)
  {
    if digits == [] then 0 else 10 * Value(digits[..|digits| - 1]) + DigitOf(digits[|digits| - 1])
  }

  // The grammar.

  /** A signed decimal number: an optional sign and at least one digit, any of them leading zeros. */
  ghost predicate Numeral(n: string, v: int) {
    exists digits: string :: digits != [] && AllDigits(digits) && Signed(n, digits, v)
  }

  predicate Signed(n: string, digits: string, v: int)
    requires AllDigits(digits)
  {
    ((n == digits || n == "+" + digits) && v == Value(digits)) || (n == "-" + digits && v == 0 - Value(digits))
  }

  /** The word for each kind of command. */
  function Keyword(kind: CommandType): string {
    match kind
    case MoveAbs => "MOVE"
    case MoveRel => "MOVE_REL"
    case SetSpeed => "SPEED"
    case Home => "HOME"
    case Stop => "STOP"
    case EmergencyStop => "ESTOP"
    case Reset => "RESET"
    case Status => "STATUS"
    case Help => "HELP"
  }

  /** The moves and the speed come with a number, and nothing else does. */
  predicate TakesNumber(kind: CommandType) {
    kind == MoveAbs || kind == MoveRel || kind == SetSpeed
  }

  /** One command: blanks around it, its keyword, and then either blanks and a number or nothing more. */
  ghost predicate Phrase(text: string, kind: CommandType, v: int, lead: string, gap: string, numeral: string,
                         tail: string) {
    && text == lead + Keyword(kind) + gap + numeral + tail
    && AllBlank(lead) && AllBlank(gap) && AllBlank(tail)
    && if TakesNumber(kind) then gap != [] && Numeral(numeral, v) else numeral == [] && v == 0
  }

  ghost predicate Says(text: string, c: Command) {
    && |text| < 64
    && exists lead, gap, numeral, tail :: Phrase(text, c.kind, c.value, lead, gap, numeral, tail)
  }

  // The scanner, as a function.

  /** The end of the stretch of blanks, or of non-blanks, that begins at i. */
  function Span(s: string, i: nat, blank: bool): (j: nat)
    requires i <= |s|
    ensures i <= j <= |s|
    ensures forall k | i <= k < j :: IsBlank(s[k]) == blank
    ensures j < |s| ==> IsBlank(s[j]) != blank
    decreases |s| - i
  {
    if i < |s| && IsBlank(s[i]) == blank then Span(s, i + 1, blank) else i
  }

  /** The length without the blanks at the end, but not less than `start`. */
  function Shrunk(s: string, start: nat, n: nat): (m: nat)
    requires start <= n <= |s|
    ensures start <= m <= n
    ensures forall k | m <= k < n :: IsBlank(s[k])
    ensures m > start ==> !IsBlank(s[m - 1])
  {
    if n > start && IsBlank(s[n - 1]) then Shrunk(s, start, n - 1) else n
  }

  /** The first row from i on with this name, or the length of the table. */
  function Row(word: string, i: nat): (r: nat)
    requires i <= |COMMANDS|
    ensures i <= r <= |COMMANDS|
    ensures r < |COMMANDS| ==> COMMANDS[r].name == word
    ensures forall k | i <= k < r :: COMMANDS[k].name != word
    decreases |COMMANDS| - i
  {
    if i < |COMMANDS| && COMMANDS[i].name != word then Row(word, i + 1) else i
  }

  predicate HasSign(arg: string) {
    arg != [] && (arg[0] == '-' || arg[0] == '+')
  }

  predicate IsNegative(arg: string) {
    arg != [] && arg[0] == '-'
  }

  function Unsigned(arg: string): string {
    if HasSign(arg) then arg[1..] else arg
  }

  function Limit(negative: bool): Word {
    if negative then 0x8000_0000 else 0x7fff_ffff
  }

  predicate IsNumber(arg: string) {
    && Unsigned(arg) != [] && AllDigits(Unsigned(arg))
    && Value(Unsigned(arg)) <= Limit(IsNegative(arg))
  }

  function Number(arg: string): Count
    requires IsNumber(arg)
  {
    if IsNegative(arg) then 0 - Value(Unsigned(arg)) else Value(Unsigned(arg))
  }

  function WithArgument(e: Entry, arg: string): Meaning {
    if e.argument && IsNumber(arg) then Accepts(Command(e.kind, Number(arg)))
    else if !e.argument && arg == [] then Accepts(Command(e.kind, 0))
    else Refuses(ParseArgument)
  }

  /** The meaning of a line without blanks at its end, whose first word begins at `start`. */
  function Body(t: string, start: nat): Meaning
    requires start <= |t|
  {
    var end := Span(t, start, false);
    var row := Row(t[start..end], 0);
    if row == |COMMANDS| then Refuses(ParseUnknown)
    else WithArgument(COMMANDS[row], t[Span(t, end, true)..])
  }

  function ParseLine(text: string): Meaning {
    if |text| >= COMMAND_LINE_CAPACITY then Refuses(ParseTooLong)
    else
      var start := Span(text, 0, true);
      var n := Shrunk(text, start, |text|);
      if start == n then Refuses(ParseEmpty) else Body(text[..n], start)
  }

  // The scanner, as the firmware writes it.

  /** Where the parser puts its command. */
  class Slot {
    var command: Command

    constructor (c: Command)
      ensures command == c
    {
      command := c;
    }
  }

  lemma SpanIs(s: string, i: nat, blank: bool, j: nat)
    requires i <= j <= |s| && (forall k | i <= k < j :: IsBlank(s[k]) == blank)
    requires j < |s| ==> IsBlank(s[j]) != blank
    ensures Span(s, i, blank) == j
  {
  }

  lemma ShrunkIs(s: string, start: nat, n: nat, m: nat)
    requires start <= m <= n <= |s| && (forall k | m <= k < n :: IsBlank(s[k]))
    requires m > start ==> !IsBlank(s[m - 1])
    ensures Shrunk(s, start, n) == m
  {
  }

  lemma RowIs(word: string, i: nat)
    requires i <= |COMMANDS| && (forall k | 0 <= k < i :: COMMANDS[k].name != word)
    requires i < |COMMANDS| ==> COMMANDS[i].name == word
    ensures Row(word, 0) == i
  {
  }

  /** A longer numeral is never a smaller number. */
  lemma {:induction false} ValueGrows(digits: string, k: nat)
    requires k <= |digits| && AllDigits(digits)
    ensures Value(digits[..k]) <= Value(digits)
    decreases |digits|
  {
    if k < |digits| {
      ValueGrows(digits[..|digits| - 1], k);
      assert digits[..|digits| - 1][..k] == digits[..k];
    } else {
      assert digits[..k] == digits;
    }
  }

  lemma ValueStep(digits: string, k: nat)
    requires k < |digits| && AllDigits(digits[..k]) && IsDigit(digits[k])
    ensures AllDigits(digits[..k + 1]) && Value(digits[..k + 1]) == 10 * Value(digits[..k]) + DigitOf(digits[k])
  {
    assert digits[..k + 1][..k] == digits[..k];
  }

  /** The overflow test of the number loop is exact: it stops as soon as the value would pass the limit. */
  method ParseNumber(arg: string) returns (ok: bool, value: Count)
    ensures ok == IsNumber(arg)
    ensures ok ==> value == Number(arg)
  {
    var pos := 0;
    var negative := false;
    if pos < |arg| && (arg[pos] == '-' || arg[pos] == '+') {
      negative := arg[pos] == '-';
      pos := pos + 1;
    }
    if pos == |arg| {
      return false, 0;
    }
    var limit: Word := if negative then 0x8000_0000 else 0x7fff_ffff;
    var magnitude: Word := 0;
    ghost var digits := Unsigned(arg);
    ghost var first := pos;
    while pos < |arg|
      invariant first <= pos <= |arg| && digits == arg[first..]
      invariant AllDigits(digits[..pos - first])
      invariant magnitude == Value(digits[..pos - first]) <= limit
    {
      if !('0' <= arg[pos] <= '9') {
        assert digits[pos - first] == arg[pos];
        return false, 0;
      }
      var digit: Word := arg[pos] as int - '0' as int;
      ValueStep(digits, pos - first);
      pos := pos + 1;
      if magnitude > (limit - digit) / 10 {
        if AllDigits(digits) {
          ValueGrows(digits, pos - first);
        }
        return false, 0;
      }
      magnitude := magnitude * 10 + digit;
    }
    assert digits[..pos - first] == digits;
    return true, if negative then (if magnitude == 0x8000_0000 then -0x8000_0000 else 0 - magnitude) else magnitude;
  }

  /** command_parse: the output is written on success only. */
  method Parse(text: string, out: Slot) returns (result: ParseResult)
    modifies out
    ensures result.ParseOk? <==> ParseLine(text).Accepts?
    ensures result.ParseOk? ==> ParseLine(text) == Accepts(out.command)
    ensures !result.ParseOk? ==> ParseLine(text) == Refuses(result) && out.command == old(out.command)
  {
    var length := |text|;
    if length >= COMMAND_LINE_CAPACITY {
      return ParseTooLong;
    }
    var start := 0;
    while start < length && IsBlank(text[start])
      invariant start <= length && forall k | 0 <= k < start :: IsBlank(text[k])
    {
      start := start + 1;
    }
    SpanIs(text, 0, true, start);
    while length > start && IsBlank(text[length - 1])
      invariant start <= length <= |text| && forall k | length <= k < |text| :: IsBlank(text[k])
    {
      length := length - 1;
    }
    ShrunkIs(text, start, |text|, length);
    if start == length {
      return ParseEmpty;
    }
    result := ParseBody(text[..length], start, out);
  }

  method ParseBody(t: string, start: nat, out: Slot) returns (result: ParseResult)
    requires start < |t|
    modifies out
    ensures result.ParseOk? <==> Body(t, start).Accepts?
    ensures result.ParseOk? ==> Body(t, start) == Accepts(out.command)
    ensures !result.ParseOk? ==> Body(t, start) == Refuses(result) && out.command == old(out.command)
  {
    var end := start;
    while end < |t| && !IsBlank(t[end])
      invariant start <= end <= |t| && forall k | start <= k < end :: !IsBlank(t[k])
    {
      end := end + 1;
    }
    SpanIs(t, start, false, end);
    for i := 0 to |COMMANDS|
      invariant forall k | 0 <= k < i :: COMMANDS[k].name != t[start..end]
    {
      if COMMANDS[i].name != t[start..end] {
        continue;
      }
      RowIs(t[start..end], i);
      var parsed := Command(COMMANDS[i].kind, 0);
      var pos := end;
      while pos < |t| && IsBlank(t[pos])
        invariant end <= pos <= |t| && forall k | end <= k < pos :: IsBlank(t[k])
      {
        pos := pos + 1;
      }
      SpanIs(t, end, true, pos);
      if !COMMANDS[i].argument {
        if pos != |t| {
          return ParseArgument;
        }
      } else {
        var ok, value := ParseNumber(t[pos..]);
        if !ok {
          return ParseArgument;
        }
        parsed := parsed.(value := value);
      }
      out.command := parsed;
      return ParseOk;
    }
    RowIs(t[start..end], |COMMANDS|);
    return ParseUnknown;
  }

  // The scanner accepts the grammar, and nothing else.

  /** The table that the scanner searches is the grammar's. */
  lemma RowIsGrammar(r: nat)
    requires r < |COMMANDS|
    ensures COMMANDS[r].name == Keyword(COMMANDS[r].kind) && COMMANDS[r].argument == TakesNumber(COMMANDS[r].kind)
  {
  }

  lemma EveryKindHasARow(kind: CommandType) returns (r: nat)
    ensures r < |COMMANDS| && COMMANDS[r] == Entry(Keyword(kind), kind, TakesNumber(kind))
  {
    match kind
    case MoveAbs => r := 0;
    case MoveRel => r := 1;
    case SetSpeed => r := 2;
    case Home => r := 3;
    case Stop => r := 4;
    case EmergencyStop => r := 5;
    case Reset => r := 6;
    case Status => r := 7;
    case Help => r := 8;
  }

  lemma NumberIsNumeral(arg: string)
    requires IsNumber(arg)
    ensures Numeral(arg, Number(arg))
  {
    assert HasSign(arg) ==> arg == [arg[0]] + Unsigned(arg);
    assert Signed(arg, Unsigned(arg), Number(arg));
  }

  lemma NumeralIsNumber(n: string, v: Count)
    requires Numeral(n, v)
    ensures IsNumber(n) && Number(n) == v && !IsBlank(n[0]) && !IsBlank(n[|n| - 1])
  {
    var digits :| digits != [] && AllDigits(digits) && Signed(n, digits, v);
    assert IsDigit(digits[0]) && IsDigit(digits[|digits| - 1]);
    if n != digits {
      assert n[1..] == digits;
    }
    assert Unsigned(n) == digits;
    assert n[|n| - 1] == digits[|digits| - 1];
  }

  /** Keywords hold no blanks, and no two rows share one. */
  lemma Keywords(r: nat)
    requires r < |COMMANDS|
    ensures COMMANDS[r].name != [] && (forall k | 0 <= k < |COMMANDS[r].name| :: !IsBlank(COMMANDS[r].name[k]))
    ensures Row(COMMANDS[r].name, 0) == r
  {
    var word := COMMANDS[r].name;
    forall k: nat | k < r
      ensures COMMANDS[k].name != word
    {
      assert |COMMANDS[k].name| != |word| || COMMANDS[k].name[0] != word[0] || COMMANDS[k].name[3] != word[3];
    }
    RowIs(word, r);
  }

  lemma Pieces(t: string, i: nat, j: nat, k: nat, n: nat)
    requires i <= j <= k <= n <= |t|
    ensures t == t[..i] + t[..n][i..j] + t[..n][j..k] + t[..n][k..] + t[n..]
  {
  }

  lemma BodyIsPhrase(t: string, start: nat, c: Command) returns (end: nat, pos: nat)
    requires start <= |t| && Body(t, start) == Accepts(c)
    ensures start <= end <= pos <= |t| && Keyword(c.kind) == t[start..end]
    ensures AllBlank(t[end..pos])
    ensures if TakesNumber(c.kind) then end < pos && Numeral(t[pos..], c.value) else pos == |t| && c.value == 0
  {
    end := Span(t, start, false);
    pos := Span(t, end, true);
    var r := Row(t[start..end], 0);
    RowIsGrammar(r);
    if COMMANDS[r].argument {
      NumberIsNumeral(t[pos..]);
    }
  }

  lemma SaysPhrase(text: string, c: Command, lead: string, gap: string, numeral: string, tail: string)
    requires |text| < COMMAND_LINE_CAPACITY && Phrase(text, c.kind, c.value, lead, gap, numeral, tail)
    ensures Says(text, c)
  {
  }

  lemma ParsesBody(text: string, c: Command) returns (start: nat, n: nat)
    requires ParseLine(text) == Accepts(c)
    ensures |text| < COMMAND_LINE_CAPACITY && start <= n <= |text| && Body(text[..n], start) == Accepts(c)
    ensures AllBlank(text[..start]) && AllBlank(text[n..])
  {
    start := Span(text, 0, true);
    n := Shrunk(text, start, |text|);
  }

  /** Everything the scanner accepts is a sentence of the grammar. */
  lemma AcceptsOnlySentences(text: string, c: Command)
    requires ParseLine(text) == Accepts(c)
    ensures Says(text, c)
  {
    var start, n := ParsesBody(text, c);
    var t := text[..n];
    var end, pos := BodyIsPhrase(t, start, c);
    Pieces(text, start, end, pos, n);
    SaysPhrase(text, c, text[..start], t[end..pos], t[pos..], text[n..]);
  }

  /** A line laid out as blanks, a word, and possibly something more after blanks. */
  predicate Layout(text: string, lead: string, word: string, gap: string, arg: string, tail: string) {
    && text == lead + word + gap + arg + tail && AllBlank(lead) && AllBlank(gap) && AllBlank(tail)
    && word != [] && (forall k | 0 <= k < |word| :: !IsBlank(word[k]))
    && (arg == [] <==> gap == [])
    && (arg != [] ==> !IsBlank(arg[0]) && !IsBlank(arg[|arg| - 1]))
  }

  lemma TrimsLayout(text: string, lead: string, word: string, gap: string, arg: string, tail: string)
    requires Layout(text, lead, word, gap, arg, tail)
    ensures Span(text, 0, true) == |lead|
    ensures Shrunk(text, |lead|, |text|) == |text| - |tail|
    ensures text[..|text| - |tail|] == lead + word + gap + arg
  {
    var t := lead + word + gap + arg;
    assert text[|lead|] == word[0];
    SpanIs(text, 0, true, |lead|);
    assert text == t + tail;
    assert t[|t| - 1] == if arg == [] then word[|word| - 1] else arg[|arg| - 1];
    ShrunkIs(text, |lead|, |text|, |t|);
  }

  lemma BodyOfLayout(lead: string, word: string, gap: string, arg: string)
    requires Layout(lead + word + gap + arg, lead, word, gap, arg, [])
    ensures var row := Row(word, 0);
            Body(lead + word + gap + arg, |lead|) ==
              if row == |COMMANDS| then Refuses(ParseUnknown) else WithArgument(COMMANDS[row], arg)
  {
    var t, end, pos := lead + word + gap + arg, |lead| + |word|, |lead| + |word| + |gap|;
    assert forall k | 0 <= k < |word| :: t[|lead| + k] == word[k];
    assert forall k | 0 <= k < |gap| :: t[end + k] == gap[k];
    assert arg != [] ==> t[pos] == arg[0] && t[end] == gap[0];
    SpanIs(t, |lead|, false, end);
    SpanIs(t, end, true, pos);
    assert t[|lead|..end] == word && t[pos..] == arg;
  }

  /** What the scanner makes of a line that is laid out so. */
  lemma ReadsLayout(text: string, lead: string, word: string, gap: string, arg: string, tail: string)
    requires |text| < COMMAND_LINE_CAPACITY && Layout(text, lead, word, gap, arg, tail)
    ensures var row := Row(word, 0);
            ParseLine(text) == if row == |COMMANDS| then Refuses(ParseUnknown) else WithArgument(COMMANDS[row], arg)
  {
    TrimsLayout(text, lead, word, gap, arg, tail);
    assert lead + word + gap + arg + [] == lead + word + gap + arg;
    BodyOfLayout(lead, word, gap, arg);
  }

  lemma AcceptsPhrase(text: string, c: Command, lead: string, gap: string, numeral: string, tail: string)
    requires |text| < COMMAND_LINE_CAPACITY && TakesNumber(c.kind)
    requires Phrase(text, c.kind, c.value, lead, gap, numeral, tail)
    ensures ParseLine(text) == Accepts(c)
  {
    var r := EveryKindHasARow(c.kind);
    Keywords(r);
    NumeralIsNumber(numeral, c.value);
    ReadsLayout(text, lead, COMMANDS[r].name, gap, numeral, tail);
  }

  lemma AcceptsBarePhrase(text: string, kind: CommandType, lead: string, gap: string, tail: string)
    requires |text| < COMMAND_LINE_CAPACITY && !TakesNumber(kind) && Phrase(text, kind, 0, lead, gap, [], tail)
    ensures ParseLine(text) == Accepts(Command(kind, 0))
  {
    var r := EveryKindHasARow(kind);
    Keywords(r);
    var word := COMMANDS[r].name;
    assert text == lead + word + [] + [] + (gap + tail);
    ReadsLayout(text, lead, word, [], [], gap + tail);
  }

  /** Every sentence of the grammar is accepted, with the value it denotes. */
  lemma AcceptsEverySentence(text: string, c: Command)
    requires Says(text, c)
    ensures ParseLine(text) == Accepts(c)
  {
    var lead, gap, numeral, tail :| Phrase(text, c.kind, c.value, lead, gap, numeral, tail);
    if TakesNumber(c.kind) {
      AcceptsPhrase(text, c, lead, gap, numeral, tail);
    } else {
      AcceptsBarePhrase(text, c.kind, lead, gap, tail);
    }
  }

  /** The parser accepts exactly its grammar, with the exact value. */
  lemma ParseIsExact(text: string, c: Command)
    ensures ParseLine(text) == Accepts(c) <==> Says(text, c)
  {
    if ParseLine(text) == Accepts(c) {
      AcceptsOnlySentences(text, c);
    }
    if Says(text, c) {
      AcceptsEverySentence(text, c);
    }
  }

  ghost predicate IsKeyword(word: string) {
    exists kind :: Keyword(kind) == word
  }

  lemma KeywordsAreRows(word: string)
    ensures IsKeyword(word) <==> Row(word, 0) < |COMMANDS|
  {
    var row := Row(word, 0);
    if row < |COMMANDS| {
      RowIsGrammar(row);
    }
    if IsKeyword(word) {
      var kind :| Keyword(kind) == word;
      var r := EveryKindHasARow(kind);
    }
  }

  /** The first word of a line. */
  function FirstWord(text: string): string {
    var start := Span(text, 0, true);
    text[start..Span(text, start, false)]
  }

  lemma FirstWordOfPrefix(text: string, start: nat, n: nat)
    requires start <= n <= |text| && (n < |text| ==> IsBlank(text[n]))
    ensures var end := Span(text[..n], start, false);
            Span(text, start, false) == end && text[..n][start..end] == text[start..end]
  {
    var end := Span(text[..n], start, false);
    assert end < n ==> IsBlank(text[..n][end]);
    assert forall k | start <= k < end :: text[k] == text[..n][k];
    SpanIs(text, start, false, end);
  }

  /** Every refusal has its own cause: length first, then emptiness, then the keyword, then the rest. */
  lemma RefusalsAreExact(text: string)
    ensures ParseLine(text) == Refuses(ParseTooLong) <==> |text| >= 64
    ensures ParseLine(text) == Refuses(ParseEmpty) <==> |text| < 64 && AllBlank(text)
    ensures ParseLine(text) == Refuses(ParseUnknown) <==>
              |text| < 64 && !AllBlank(text) && !IsKeyword(FirstWord(text))
    ensures ParseLine(text) == Refuses(ParseArgument) <==>
              && |text| < 64 && !AllBlank(text) && IsKeyword(FirstWord(text))
              && forall c :: !Says(text, c)
  {
    if |text| < COMMAND_LINE_CAPACITY {
      var start := Span(text, 0, true);
      var n := Shrunk(text, start, |text|);
      assert start == n <==> AllBlank(text);
      if start < n {
        FirstWordOfPrefix(text, start, n);
        KeywordsAreRows(FirstWord(text));
      }
      forall c
        ensures Says(text, c) <==> ParseLine(text) == Accepts(c)
      {
        ParseIsExact(text, c);
      }
      assert ParseLine(text).Accepts? ==> Says(text, ParseLine(text).command);
    }
  }
}
