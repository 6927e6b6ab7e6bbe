/** The quadrature counter and its movable reference. */
module Encoders {
  import opened Words

  datatype Encoder = Encoder(initialized: bool, raw: Word, offset: Word)

  /** The logical count: raw plus offset, modulo 2^32, read as two's complement. */
  function Logical(e: Encoder): Count {
    SignedBits(Wrap(e.raw + e.offset))
  }

  function Referenced(e: Encoder, count: Count): Encoder {
    if e.initialized then e.(offset := Wrap(Wrap(count) - e.raw)) else e
  }

  function RawSet(e: Encoder, count: Count): Encoder {
    if e.initialized then e.(raw := Wrap(count)) else e
  }

  class EncoderDriver {
    var initialized: bool
    var raw: Word
    var offset: Word

    ghost function View(): Encoder
      reads this
    {
      Encoder(initialized, raw, offset)
    }

    constructor ()
      ensures View() == Encoder(true, 0, 0)
    {
      raw, offset := 0, 0;
      initialized := true;
    }

    /** A failed read leaves the caller's count as it was. */
    method GetCount(was: Count) returns (ready: bool, count: Count)
      ensures ready == initialized
      ensures count == if initialized then Logical(View()) else was
    {
      ready, count := initialized, was;
      if ready {
        var bits := Wrap(raw + offset);
        count := SignedBits(bits);
      }
    }

    method SetReference(count: Count) returns (ready: bool)
      modifies this
      ensures View() == Referenced(old(View()), count)
      ensures ready == old(initialized)
    {
      ready := initialized;
      if ready {
        offset := Wrap(Wrap(count) - raw);
      }
    }

    method HostSetCount(count: Count) returns (ready: bool)
      modifies this
      ensures View() == RawSet(old(View()), count)
      ensures ready == old(initialized)
    {
      ready := initialized;
      if ready {
        raw := Wrap(count);
      }
    }
  }

  /** Referencing makes the present position read as `count`, and every later reading is that count
      plus the raw displacement since, modulo 2^32. */
  lemma ReferenceRoundTrip(e: Encoder, count: Count, raw: Word)
    requires e.initialized
    ensures Logical(Referenced(e, count)) == count
    ensures Logical(Referenced(e, count).(raw := raw)) == SignedBits(Wrap(count + (raw - e.raw)))
  {
    WrapSum(count, 0 - e.raw);
    assert Referenced(e, count).offset == Wrap(count - e.raw);
    SignedBitsInverse(count);
    WrapSum(count - e.raw, e.raw);
    assert Wrap(e.raw + Wrap(count - e.raw)) == Wrap(count);
    WrapSum(count - e.raw, raw);
    assert Wrap(raw + Wrap(count - e.raw)) == Wrap(count + (raw - e.raw));
  }

  // Velocity estimation works on wrapped differences of logical counts.

  /** The bits of the difference of two samples. */
  function DeltaBits(now: Count, before: Count): Word {
    Wrap(Wrap(now) - Wrap(before))
  }

  const AMBIGUOUS: Word := 0x8000_0000

  /** The offset cancels out of a difference of two samples. */
  lemma OffsetCancels(x: int, y: int, offset: Word)
    ensures DeltaBits(Logical(Encoder(true, Wrap(y), offset)), Logical(Encoder(true, Wrap(x), offset))) == Wrap(y - x)
  {
    var a, b := Logical(Encoder(true, Wrap(y), offset)), Logical(Encoder(true, Wrap(x), offset));
    WrapSum(y, offset);
    WrapSum(x, offset);
    assert Wrap(a) == Wrap(y + offset) && Wrap(b) == Wrap(x + offset);
    WrapDifference(y + offset, x + offset);
  }

  /** For every true motion of less than half the range between two samples, the signed difference is
      the true displacement, under any reference offset. */
  lemma DeltaIsDisplacement(x: int, y: int, offset: Word)
    requires -HALF < y - x < HALF
    ensures var bits := DeltaBits(Logical(Encoder(true, Wrap(y), offset)), Logical(Encoder(true, Wrap(x), offset)));
            bits != AMBIGUOUS && SignedBits(bits) == y - x
  {
    OffsetCancels(x, y, offset);
    SignedBitsInverse(y - x);
  }

  /** The rejected half-range difference is the only one that two opposite displacements of at most half
      the range share. */
  lemma OnlyHalfRangeIsAmbiguous(bits: Word)
    ensures bits == AMBIGUOUS <==>
            exists d: int, d': int :: -HALF <= d < d' <= HALF && Wrap(d) == bits && Wrap(d') == bits
  {
    if bits == AMBIGUOUS {
      assert Wrap(-HALF) == bits && Wrap(HALF) == bits;
    }
  }

  function SignedDelta(now: Count, before: Count): int {
    SignedBits(DeltaBits(now, before))
  }

  /** What a sampler reads along a true trajectory `xs`. */
  function Reading(xs: seq<int>, i: nat, offset: Word): Count
    requires i < |xs|
  {
    Logical(Encoder(true, Wrap(xs[i]), offset))
  }

  function TotalDelta(xs: seq<int>, offset: Word, n: nat): int
    requires n < |xs|
  {
    if n == 0 then 0
    else TotalDelta(xs, offset, n - 1) + SignedDelta(Reading(xs, n, offset), Reading(xs, n - 1, offset))
  }

  /** Along a whole trajectory the deltas add up to the true travel, across any number of wraps. */
  lemma {:induction false} DeltasTelescope(xs: seq<int>, offset: Word, n: nat)
    requires n < |xs|
    requires forall i | 0 < i < |xs| :: -HALF < xs[i] - xs[i - 1] < HALF
    ensures TotalDelta(xs, offset, n) == xs[n] - xs[0]
  {
    if n > 0 {
      DeltasTelescope(xs, offset, n - 1);
      DeltaIsDisplacement(xs[n - 1], xs[n], offset);
    }
  }
}
