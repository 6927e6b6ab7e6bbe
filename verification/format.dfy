/** The text the firmware sends: a bounded writer, and the numbers it writes. */
module TinyFormat {
  import opened Words
  import opened Floats
  import opened CommandTypes
  import opened CommandLine

  /** What a writer holds, and whether something did not fit. */
  datatype Buffer = Buffer(text: string, capacity: nat, failed: bool)

  /** Room is always kept for the terminator. */
  predicate Roomy(b: Buffer) {
    |b.text| < b.capacity
  }

  function Room(b: Buffer): nat
    requires Roomy(b)
  {
    b.capacity - 1 - |b.text|
  }

  /** As much of a text as fits. */
  function Appended(b: Buffer, s: string): (b': Buffer)
    requires Roomy(b)
    ensures Roomy(b')
  {
    b.(text := b.text + if |s| <= Room(b) then s else s[..Room(b)], failed := b.failed || |s| > Room(b))
  }

  lemma AppendedTwice(b: Buffer, s: string, t: string)
    requires Roomy(b)
    ensures Appended(Appended(b, s), t) == Appended(b, s + t)
  {
    var r := Room(b);
    if |s| <= r {
      assert Room(Appended(b, s)) == r - |s|;
      assert |s + t| > r ==> (s + t)[..r] == s + t[..r - |s|];
    } else {
      assert Room(Appended(b, s)) == 0 && (s + t)[..r] == s[..r] && t[..0] == [];
    }
  }

  lemma AppendedNothing(b: Buffer)
    requires Roomy(b)
    ensures Appended(b, "") == b
  {
    assert b.text + "" == b.text;
  }

  // Decimal numbers.

  function DigitChar(d: nat): (c: char)
    requires d < 10
    ensures IsDigit(c) && DigitOf(c) == d
  {
    '0' + d as char
  }

  function Decimal(n: nat): (s: string)
    ensures s != [] && AllDigits(s)
  {
    if n < 10 then [DigitChar(n)] else Decimal(n / 10) + [DigitChar(n % 10)]
  }

  function Zeros(k: nat): (s: string)
    ensures |s| == k && AllDigits(s)
  {
    seq(k, _ => '0')
  }

  function Padded(n: nat, width: nat): (s: string)
    ensures s != [] && AllDigits(s)
  {
    if width > |Decimal(n)| then Zeros(width - |Decimal(n)|) + Decimal(n) else Decimal(n)
  }

  function SignedText(v: Count, width: nat): string {
    Sign(v) + Padded(Magnitude(v), width)
  }

  function Sign(v: Count): string {
    if v < 0 then "-" else ""
  }

  function Magnitude(v: Count): nat {
    if v < 0 then 0 - v else v
  }

  function Ten(k: nat): (p: nat)
    ensures p > 0
  {
    if k == 0 then 1 else 10 * Ten(k - 1)
  }

  /** Decimal notation has no more digits than the number needs. */
  lemma {:induction false} DecimalLength(n: nat, k: nat)
    requires k > 0 && n < Ten(k)
    ensures |Decimal(n)| <= k
    decreases k
  {
    if n >= 10 {
      assert Ten(k) == 10 * Ten(k - 1) && Ten(0) == 1;
      DecimalLength(n / 10, k - 1);
    }
  }

  lemma WordLength(n: Word)
    ensures |Decimal(n)| <= 10
  {
    assert Ten(4) == 10000 && Ten(7) == 10000000 && Ten(10) == 10000000000 by {
      assert Ten(2) == 100 && Ten(4) == 100 * Ten(2) && Ten(6) == 100 * Ten(4) && Ten(8) == 100 * Ten(6);
    }
    DecimalLength(n, 10);
  }

  /** Decimal notation denotes the number it was made from. */
  lemma {:induction false} DecimalValue(n: nat)
    ensures Value(Decimal(n)) == n
  {
    if n < 10 {
      assert Decimal(n)[..0] == [];
    } else {
      DecimalValue(n / 10);
      assert Decimal(n)[..|Decimal(n)| - 1] == Decimal(n / 10);
    }
  }

  lemma {:induction false} LeadingZeros(k: nat, s: string)
    requires AllDigits(s)
    ensures Value(Zeros(k) + s) == Value(s)
    decreases |s|, k
  {
    if s != [] {
      var t := Zeros(k) + s;
      assert t[..|t| - 1] == Zeros(k) + s[..|s| - 1];
      LeadingZeros(k, s[..|s| - 1]);
    } else if k > 0 {
      assert (Zeros(k) + s)[..k - 1] == Zeros(k - 1) + s;
      LeadingZeros(k - 1, s);
    } else {
      assert Zeros(0) + s == s;
    }
  }

  lemma PaddedValue(n: nat, width: nat)
    ensures Value(Padded(n, width)) == n
  {
    DecimalValue(n);
    if width > |Decimal(n)| {
      LeadingZeros(width - |Decimal(n)|, Decimal(n));
    }
  }

  lemma SignedTextIsNumeral(v: Count, width: nat)
    ensures Numeral(SignedText(v, width), v)
  {
    PaddedValue(Magnitude(v), width);
    var digits := Padded(Magnitude(v), width);
    assert "" + digits == digits;
    assert Signed(SignedText(v, width), digits, v);
  }

  /** A command with a number as the printer writes it. */
  function Printed(kind: CommandType, v: Count, width: nat): string {
    Keyword(kind) + " " + SignedText(v, width)
  }

  /** The number parser undoes the number printer, for every 32-bit value including the least, with or
      without leading zeros, in every command that takes a number. */
  lemma ParserUndoesPrinter(kind: CommandType, v: Count, width: nat)
    requires TakesNumber(kind) && |Printed(kind, v, width)| < COMMAND_LINE_CAPACITY
    ensures ParseLine(Printed(kind, v, width)) == Accepts(Command(kind, v))
  {
    SignedTextIsNumeral(v, width);
    SentenceOf(kind, v, SignedText(v, width));
    AcceptsEverySentence(Printed(kind, v, width), Command(kind, v));
  }

  lemma SentenceOf(kind: CommandType, v: Count, number: string)
    requires TakesNumber(kind) && Numeral(number, v)
    requires |Keyword(kind) + " " + number| < COMMAND_LINE_CAPACITY
    ensures Says(Keyword(kind) + " " + number, Command(kind, v))
  {
    var word := Keyword(kind);
    assert "" + word == word;
    assert word + " " + number == "" + word + " " + number + "";
    SaysPhrase(word + " " + number, Command(kind, v), "", " ", number, "");
  }

  lemma PrintedMoveFits(kind: CommandType, v: Count, width: nat)
    requires width <= 6
    ensures |Printed(kind, v, width)| < COMMAND_LINE_CAPACITY
  {
    WordLength(Magnitude(v));
    assert |Keyword(kind)| <= 8;
  }

  /** At the two widths that the formatter knows the line always fits, so every printed value is read back. */
  lemma EveryPrintedValueIsRead(kind: CommandType, v: Count, width: nat)
    requires TakesNumber(kind) && (width == 0 || width == 6)
    ensures ParseLine(Printed(kind, v, width)) == Accepts(Command(kind, v))
  {
    PrintedMoveFits(kind, v, width);
    ParserUndoesPrinter(kind, v, width);
  }

  // Scientific notation.

  /** m times ten to the e. */
  function Scaled(m: real, e: int): real
    decreases if e < 0 then -e else e
  {
    if e == 0 then m else if e > 0 then Scaled(m * 10.0, e - 1) else Scaled(m / 10.0, e + 1)
  }

  lemma Shift(m: real, e: int)
    ensures Scaled(m / 10.0, e + 1) == Scaled(m, e)
  {
    assert m / 10.0 * 10.0 == m;
  }

  /** A fraction's reciprocal loses a whole part when the fraction is scaled up. */
  lemma ReciprocalShrinks(v: real)
    requires 0.0 < v < 1.0
    ensures 0 <= (1.0 / (v * 10.0)).Floor < (1.0 / v).Floor
  {
    var u, w := 1.0 / v, 1.0 / (v * 10.0);
    assert u * v == 1.0 && w * (v * 10.0) == 1.0;
    assert (u - w * 10.0) * v == 0.0;
    assert u == w * 10.0;
    assert u > 1.0;
  }

  function Lowered(v: real, e: int): (r: (real, int))
    ensures r.0 < 10.0 && (v >= 1.0 ==> r.0 >= 1.0) && (v < 10.0 ==> r == (v, e))
    decreases v.Floor
  {
    if v >= 10.0 then Lowered(v / 10.0, e + 1) else (v, e)
  }

  function Raised(v: real, e: int): (r: (real, int))
    requires 0.0 < v < 10.0
    ensures 1.0 <= r.0 < 10.0 && (v >= 1.0 ==> r == (v, e))
    decreases (1.0 / v).Floor
  {
    if v < 1.0 then
      ReciprocalShrinks(v);
      Raised(v * 10.0, e - 1)
    else (v, e)
  }

  lemma LoweredPositive(v: real, e: int)
    requires v > 0.0
    ensures Lowered(v, e).0 > 0.0
  {
  }

  /** A positive number as a mantissa from 1 to below 10 and a power of ten. */
  function Normal(v: real): (r: (real, int))
    requires v > 0.0
    ensures 1.0 <= r.0 < 10.0
  {
    LoweredPositive(v, 0);
    var low := Lowered(v, 0);
    Raised(low.0, low.1)
  }

  /** Six significant digits, and the exponent that goes with them. */
  function SixDigits(v: real): (r: (nat, int))
    requires v > 0.0
    ensures 100000 <= r.0 < 1000000
  {
    var normal := Normal(v);
    var scaled := (normal.0 * 100000.0 + 0.5).Floor;
    if scaled >= 1000000 then (100000, normal.1 + 1) else (scaled, normal.1)
  }

  function ScientificText(scaled: nat, e: int): string {
    Padded(scaled / 100000, 1) + "." + Padded(scaled % 100000, 5)
    + "e" + (if e < 0 then "-" else "+") + Padded(if e < 0 then -e else e, 2)
  }

  function RealText(v: Float): string {
    if v.NotFinite? then "invalid"
    else if v.value == 0.0 then "0"
    else
      var six := SixDigits(Abs(v.value));
      (if v.value < 0.0 then "-" else "") + ScientificText(six.0, six.1)
  }

  // What the text denotes.

  lemma {:induction false} LoweredKeepsValue(v: real, e: int)
    ensures Scaled(Lowered(v, e).0, Lowered(v, e).1) == Scaled(v, e)
    decreases v.Floor
  {
    if v >= 10.0 {
      Shift(v, e);
      LoweredKeepsValue(v / 10.0, e + 1);
    }
  }

  lemma {:induction false} RaisedKeepsValue(v: real, e: int)
    requires 0.0 < v < 10.0
    ensures Scaled(Raised(v, e).0, Raised(v, e).1) == Scaled(v, e)
    decreases (1.0 / v).Floor
  {
    if v < 1.0 {
      ReciprocalShrinks(v);
      Shift(v * 10.0, e - 1);
      assert v * 10.0 / 10.0 == v;
      RaisedKeepsValue(v * 10.0, e - 1);
    }
  }

  lemma NormalKeepsValue(v: real)
    requires v > 0.0
    ensures Scaled(Normal(v).0, Normal(v).1) == v
  {
    LoweredPositive(v, 0);
    var low := Lowered(v, 0);
    LoweredKeepsValue(v, 0);
    RaisedKeepsValue(low.0, low.1);
  }

  predicate Near(x: real, v: real) {
    Abs(x - v) <= 0.000005 * v
  }

  /** Being near is a relative notion: powers of ten do not change it. */
  lemma {:induction false} NearScaled(x: real, v: real, e: int)
    requires Near(x, v)
    ensures Near(Scaled(x, e), Scaled(v, e))
    decreases if e < 0 then -e else e
  {
    if e > 0 {
      NearScaled(x * 10.0, v * 10.0, e - 1);
    } else if e < 0 {
      NearScaled(x / 10.0, v / 10.0, e + 1);
    }
  }

  /** A six-digit number, read as d.ddddd times ten to the e. */
  function Scientific(six: nat, e: int): real {
    Scaled(six as real / 100000.0, e)
  }

  lemma SixDigitsAreAccurate(v: real)
    requires v > 0.0
    ensures Near(Scientific(SixDigits(v).0, SixDigits(v).1), v)
  {
    var m, e := Normal(v).0, Normal(v).1;
    var scaled := (m * 100000.0 + 0.5).Floor;
    NormalKeepsValue(v);
    NearScaled(scaled as real / 100000.0, m, e);
    if scaled >= 1000000 {
      Shift(10.0, e);
    }
  }

  datatype Notation = Notation(negative: bool, units: string, decimals: string, down: bool, exponent: string)

  /** The written form d.ddddde+dd, and the number it stands for. */
  predicate WellFormed(n: Notation) {
    && AllDigits(n.units) && AllDigits(n.decimals) && AllDigits(n.exponent)
    && |n.units| == 1 && |n.decimals| == 5 && |n.exponent| >= 2 && Value(n.units) > 0
  }

  function Written(n: Notation): string {
    (if n.negative then "-" else "") + n.units + "." + n.decimals + "e" + (if n.down then "-" else "+") + n.exponent
  }

  function Denoted(n: Notation): real
    requires WellFormed(n)
  {
    var magnitude := Scientific(100000 * Value(n.units) + Value(n.decimals),
                                if n.down then 0 - Value(n.exponent) else Value(n.exponent));
    if n.negative then -magnitude else magnitude
  }

  lemma PaddedLength(n: nat, width: nat)
    requires width > 0 && n < Ten(width)
    ensures |Padded(n, width)| == width
  {
    DecimalLength(n, width);
  }

  lemma SplitSixDigits(scaled: nat)
    requires 100000 <= scaled < 1000000
    ensures var units, decimals := Padded(scaled / 100000, 1), Padded(scaled % 100000, 5);
            && |units| == 1 && |decimals| == 5 && Value(units) > 0
            && 100000 * Value(units) + Value(decimals) == scaled
  {
    assert Ten(1) == 10 && Ten(3) == 1000 && Ten(5) == 100000;
    PaddedLength(scaled / 100000, 1);
    PaddedLength(scaled % 100000, 5);
    PaddedValue(scaled / 100000, 1);
    PaddedValue(scaled % 100000, 5);
    assert scaled == scaled / 100000 * 100000 + scaled % 100000;
  }

  function NotationOf(negative: bool, scaled: nat, e: int): Notation {
    Notation(negative, Padded(scaled / 100000, 1), Padded(scaled % 100000, 5), e < 0,
             Padded(if e < 0 then -e else e, 2))
  }

  lemma NotationParts(negative: bool, scaled: nat, e: int)
    requires 100000 <= scaled < 1000000
    ensures var n := NotationOf(negative, scaled, e);
            && WellFormed(n) && 100000 * Value(n.units) + Value(n.decimals) == scaled
            && (if n.down then 0 - Value(n.exponent) else Value(n.exponent)) == e
  {
    SplitSixDigits(scaled);
    PaddedValue(if e < 0 then -e else e, 2);
  }

  lemma NotationDenotes(negative: bool, scaled: nat, e: int)
    requires 100000 <= scaled < 1000000
    ensures var n := NotationOf(negative, scaled, e);
            WellFormed(n) && Denoted(n) == if negative then -Scientific(scaled, e) else Scientific(scaled, e)
  {
    NotationParts(negative, scaled, e);
  }

  lemma NotationWritten(negative: bool, scaled: nat, e: int)
    ensures Written(NotationOf(negative, scaled, e)) == (if negative then "-" else "") + ScientificText(scaled, e)
  {
    var n := NotationOf(negative, scaled, e);
    Chain(if negative then "-" else "", n.units + "." + n.decimals + "e", if e < 0 then "-" else "+", n.exponent);
    Chain(if negative then "-" else "", n.units + "." + n.decimals, "e", "");
    Chain(if negative then "-" else "", n.units + ".", n.decimals, "");
    Chain(if negative then "-" else "", n.units, ".", "");
  }

  lemma Chain(a: string, b: string, c: string, d: string)
    ensures a + b + c + d == a + (b + c + d)
  {
  }

  /** Every finite number but zero is written in scientific notation, six digits that denote it to within
      five parts in a million. */
  lemma RealTextIsAccurate(v: real)
    requires v != 0.0
    ensures exists n: Notation ::
              WellFormed(n) && Written(n) == RealText(Finite(v)) && Abs(Denoted(n) - v) <= 0.000005 * Abs(v)
  {
    var six := SixDigits(Abs(v));
    SixDigitsAreAccurate(Abs(v));
    NotationDenotes(v < 0.0, six.0, six.1);
    NotationWritten(v < 0.0, six.0, six.1);
  }

  /** The magnitudes a double can have: nothing between zero and 10^-324, nothing from 10^309 on. */
  predicate InDoubleRange(v: Float) {
    v.Finite? && v.value != 0.0 ==> Scaled(1.0, -324) < Abs(v.value) < Scaled(1.0, 309)
  }

  lemma {:induction false} ScaledOrder(x: real, y: real, e: int)
    requires x < y
    ensures Scaled(x, e) < Scaled(y, e)
    decreases if e < 0 then -e else e
  {
    if e > 0 {
      ScaledOrder(x * 10.0, y * 10.0, e - 1);
    } else if e < 0 {
      ScaledOrder(x / 10.0, y / 10.0, e + 1);
    }
  }

  lemma {:induction false} PowersGrow(e: int, f: int)
    requires e <= f
    ensures Scaled(1.0, e) <= Scaled(1.0, f)
    decreases f - e
  {
    if e < f {
      ScaledOrder(1.0, 10.0, e);
      Shift(10.0, e);
      PowersGrow(e + 1, f);
    }
  }

  /** The exponent of a double has at most three digits. */
  lemma ExponentRange(v: real)
    requires v > 0.0 && InDoubleRange(Finite(v))
    ensures -324 <= Normal(v).1 <= 308
  {
    var m, e := Normal(v).0, Normal(v).1;
    NormalKeepsValue(v);
    if m > 1.0 {
      ScaledOrder(1.0, m, e);
    }
    ScaledOrder(m, 10.0, e);
    Shift(10.0, e);
    if e > 308 {
      PowersGrow(309, e);
    }
    if e < -324 {
      PowersGrow(e + 1, -324);
    }
  }

  /** The digits of a number, last digit first, as far as a quotient of it has been reached. */
  predicate Peeled(value: nat, rest: nat, digits: seq<char>) {
    Decimal(value) == (if rest == 0 then [] else Decimal(rest)) + Backwards(digits)
  }

  function Backwards(s: seq<char>): (t: seq<char>)
    ensures |t| == |s|
  {
    if s == [] then [] else [s[|s| - 1]] + Backwards(s[..|s| - 1])
  }

  lemma PeelDigit(value: nat, rest: nat, digits: seq<char>)
    requires Peeled(value, rest, digits) && rest > 0
    ensures Peeled(value, rest / 10, digits + [DigitChar(rest % 10)])
    ensures |digits| < |Decimal(value)|
  {
    var longer := digits + [DigitChar(rest % 10)];
    assert longer[..|digits|] == digits;
    assert Decimal(rest) == (if rest < 10 then [] else Decimal(rest / 10)) + [DigitChar(rest % 10)];
  }

  /** Negating the bits of a negative number gives its magnitude, also for the least one. */
  lemma NegatedBits(v: Count)
    ensures v < 0 ==> Wrap(0 - Wrap(v)) == Magnitude(v)
  {
    WrapDifference(0, v);
  }

  class Writer {
    const data: array<char>
    var used: nat
    var failed: bool

    /** A writer fails by running full only, with one place left for the terminator. */
    ghost predicate Valid()
      reads this
    {
      used < data.Length && (failed ==> used + 1 == data.Length)
    }

    ghost function View(): (b: Buffer)
      reads this, data
      requires Valid()
      ensures Roomy(b)
    {
      Buffer(data[..used], data.Length, failed)
    }

    constructor (out: array<char>)
      requires out.Length > 0
      ensures Valid() && data == out && View() == Buffer([], out.Length, false)
    {
      data, used, failed := out, 0, false;
    }

    method Character(c: char)
      requires Valid()
      modifies this, data
      ensures Valid() && View() == Appended(old(View()), [c])
    {
      if used + 1 >= data.Length {
        failed := true;
        assert [c][..0] == [];
        return;
      }
      data[used] := c;
      used := used + 1;
    }

    method String(s: string)
      requires Valid()
      modifies this, data
      ensures Valid() && View() == Appended(old(View()), s)
    {
      ghost var before := View();
      var i := 0;
      while i < |s| && !failed
        invariant i <= |s| && Valid() && Roomy(before)
        invariant View() == Appended(before, s[..i])
      {
        AppendedTwice(before, s[..i], [s[i]]);
        assert s[..i + 1] == s[..i] + [s[i]];
        Character(s[i]);
        i := i + 1;
      }
      AppendedTwice(before, s[..i], s[i..]);
      assert s == s[..i] + s[i..];
      assert failed ==> s[i..][..0] == [];
    }

    method Integer(value: Word, width: nat)
      requires Valid()
      modifies this, data
      ensures Valid() && View() == Appended(old(View()), Padded(value, width))
    {
      ghost var before := View();
      var digits, n := Peel(value);
      assert n == |Decimal(value)|;
      if width > n {
        Pad(width - n);
        AppendedTwice(before, Zeros(width - n), Decimal(value));
        assert Padded(value, width) == Zeros(width - n) + Decimal(value);
      } else {
        assert Padded(value, width) == Decimal(value);
      }
      ghost var padded := View();
      assert Appended(padded, Decimal(value)) == Appended(before, Padded(value, width));
      Emit(digits, n);
    }

    /** The digits of a number, the last one first. */
    static method Peel(value: Word) returns (digits: array<char>, n: nat)
      ensures fresh(digits) && n <= digits.Length && Backwards(digits[..n]) == Decimal(value)
    {
      WordLength(value);
      digits := new char[10];
      digits[0] := DigitChar(value % 10);
      n := 1;
      var rest: Word := value / 10;
      assert value < 10 ==> Decimal(value) == [DigitChar(value)];
      assert digits[..1] == [DigitChar(value % 10)];
      while rest != 0
        invariant n <= 10 && Peeled(value, rest, digits[..n])
      {
        PeelDigit(value, rest, digits[..n]);
        digits[n] := DigitChar(rest % 10);
        assert digits[..n + 1] == digits[..n] + [DigitChar(rest % 10)];
        n, rest := n + 1, rest / 10;
      }
    }

    method Emit(digits: array<char>, count: nat)
      requires Valid() && digits != data && count <= digits.Length
      modifies this, data
      ensures Valid() && View() == Appended(old(View()), Backwards(digits[..count]))
    {
      ghost var before, all := View(), digits[..count];
      var n := count;
      assert all[..n] == all;
      while n != 0
        invariant n <= count && Valid() && Roomy(before) && digits[..count] == all
        invariant Appended(View(), Backwards(all[..n])) == Appended(before, Backwards(all))
      {
        n := n - 1;
        AppendedTwice(View(), [all[n]], Backwards(all[..n]));
        assert all[..n + 1][..n] == all[..n];
        Character(digits[n]);
      }
      AppendedNothing(View());
    }

    /** The zeros in front of a number. */
    method Pad(count: nat)
      requires Valid()
      modifies this, data
      ensures Valid() && View() == Appended(old(View()), Zeros(count))
    {
      ghost var before := View();
      for i := 0 to count
        invariant Valid() && Roomy(before) && View() == Appended(before, Zeros(i))
      {
        AppendedTwice(before, Zeros(i), ['0']);
        assert Zeros(i + 1) == Zeros(i) + ['0'];
        Character('0');
      }
    }

    /** The signed directive: the sign, and the magnitude taken modulo 2^32. */
    method Signed(value: Count, width: nat)
      requires Valid()
      modifies this, data
      ensures Valid() && View() == Appended(old(View()), SignedText(value, width))
    {
      ghost var before := View();
      if value < 0 {
        Character('-');
      }
      AppendedNothing(before);
      ghost var signed := View();
      assert signed == Appended(before, Sign(value));
      AppendedTwice(before, Sign(value), Padded(Magnitude(value), width));
      NegatedBits(value);
      var magnitude: Word := if value < 0 then Wrap(0 - Wrap(value)) else value;
      Integer(magnitude, width);
    }

    method Real(v: Float)
      requires Valid() && InDoubleRange(v)
      modifies this, data
      ensures Valid() && View() == Appended(old(View()), RealText(v))
    {
      if v.NotFinite? {
        String("invalid");
        return;
      }
      var value := v.value;
      if value == 0.0 {
        Character('0');
        return;
      }
      ghost var before := View();
      ghost var sign := if value < 0.0 then "-" else "";
      if value < 0.0 {
        Character('-');
        value := -value;
      }
      assert View() == Appended(before, sign);
      var scaled, exponent := Normalise(value);
      Scientific(scaled, exponent);
      AppendedTwice(before, sign, ScientificText(scaled, exponent));
    }

    /** The normalisation loops; both terminate for every positive value. */
    static method Normalise(v: real) returns (scaled: Word, exponent: int)
      requires v > 0.0 && InDoubleRange(Finite(v))
      ensures (scaled, exponent) == SixDigits(v) && -324 <= exponent <= 309
    {
      ExponentRange(v);
      LoweredPositive(v, 0);
      var value := v;
      exponent := 0;
      while value >= 10.0
        invariant Lowered(value, exponent) == Lowered(v, 0)
        decreases value.Floor
      {
        value := value / 10.0;
        exponent := exponent + 1;
      }
      while value < 1.0
        invariant 0.0 < value < 10.0 && Raised(value, exponent) == Normal(v)
        decreases if value > 0.0 then (1.0 / value).Floor else 0
      {
        ReciprocalShrinks(value);
        value := value * 10.0;
        exponent := exponent - 1;
      }
      var rounded := (value * 100000.0 + 0.5).Floor;
      scaled := rounded;
      if scaled >= 1000000 {
        scaled := 100000;
        exponent := exponent + 1;
      }
    }

    method Scientific(scaled: Word, exponent: int)
      requires Valid() && -324 <= exponent <= 309
      modifies this, data
      ensures Valid() && View() == Appended(old(View()), ScientificText(scaled, exponent))
    {
      ghost var before := View();
      Integer(scaled / 100000, 1);
      Then(before, Padded(scaled / 100000, 1), ".");
      Character('.');
      Then(before, Padded(scaled / 100000, 1) + ".", Padded(scaled % 100000, 5));
      Integer(scaled % 100000, 5);
      ghost var mantissa := Padded(scaled / 100000, 1) + "." + Padded(scaled % 100000, 5);
      Then(before, mantissa, "e");
      Character('e');
      var sign := if exponent < 0 then '-' else '+';
      Then(before, mantissa + "e", [sign]);
      Character(sign);
      Then(before, mantissa + "e" + [sign], Padded(if exponent < 0 then -exponent else exponent, 2));
      Integer(if exponent < 0 then -exponent else exponent, 2);
    }

    lemma Then(b: Buffer, s: string, t: string)
      requires Roomy(b)
      ensures Appended(Appended(b, s), t) == Appended(b, s + t)
    {
      AppendedTwice(b, s, t);
    }

    /** The terminator always has its place; the length, or -1 if anything was cut off. */
    method Finish() returns (length: int)
      requires Valid()
      modifies data
      ensures Valid() && View() == old(View())
      ensures data[used] == '\0'
      ensures length == if failed then -1 else |View().text|
    {
      data[used] := '\0';
      length := if failed then -1 else used;
    }
  }
}
