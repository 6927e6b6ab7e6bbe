/** The fixed-width integers of the firmware, written out over Dafny's unbounded ones. */
module Words {

  /** uint32_t: a number modulo 2^32. */
  type Word = x: int | 0 <= x < 0x1_0000_0000

  /** int32_t, as carried by an encoder count. */
  type Count = x: int | -0x8000_0000 <= x < 0x8000_0000

  const WORD := 0x1_0000_0000
  const HALF := 0x8000_0000

  function Wrap(x: int): Word {
    x % 0x1_0000_0000
  }

  /** Unsigned difference of two readings of the millisecond timer. */
  function Elapsed(now: Word, start: Word): Word {
    Wrap(now - start)
  }

  /** The two's complement reading of 32 bits. */
  function SignedBits(bits: Word): Count {
    if bits < 0x8000_0000 then bits else bits - 0x1_0000_0000
  }

  /** The unsigned difference of two timer readings is the true time between them, modulo 2^32:
      it is exact if and only if less than one full wrap has gone by. */
  lemma ElapsedIsTrueTime(start: nat, now: nat)
    requires start <= now
    ensures Elapsed(Wrap(now), Wrap(start)) == Wrap(now - start)
    ensures Elapsed(Wrap(now), Wrap(start)) == now - start <==> now - start < WORD
  {
    WrapDifference(now, start);
  }

  /** Wrapping both operands first does not change a wrapped difference. */
  lemma WrapDifference(a: int, b: int)
    ensures Wrap(Wrap(a) - Wrap(b)) == Wrap(a - b)
  {
    var p, q := a / 0x1_0000_0000, b / 0x1_0000_0000;
    assert Wrap(a) - Wrap(b) == (a - b) - (p - q) * 0x1_0000_0000;
    WrapShift(a - b, q - p);
  }

  lemma WrapSum(a: int, b: int)
    ensures Wrap(Wrap(a) + b) == Wrap(a + b)
  {
    WrapShift(a + b, -(a / 0x1_0000_0000));
  }

  /** Adding any number of full wraps changes nothing. */
  lemma WrapShift(x: int, k: int)
    ensures Wrap(x + k * 0x1_0000_0000) == Wrap(x)
  {
  }

  lemma SignedBitsInverse(x: Count)
    ensures SignedBits(Wrap(x)) == x
  {
  }
}

/** A float argument: its real value, or one of NaN and the infinities. */
module Floats {
  datatype Float = Finite(value: real) | NotFinite

  function Abs(x: real): real {
    if x < 0.0 then -x else x
  }

  function Clamp(value: real, low: real, high: real): real {
    if value < low then low else if value > high then high else value
  }

  /** A product under a name, so that equal factors make equal products without any algebra. */
  function Times(a: real, b: real): real {
    a * b
  }

  lemma ProductOrder(k: real, a: real, b: real)
    requires k >= 0.0 && a <= b
    ensures k * a <= k * b
  {
  }

  lemma PositiveProduct(a: real, b: real)
    requires a > 0.0 && b > 0.0
    ensures a * b > 0.0
  {
  }

  /** The same for products that have a name. */
  lemma NamedOrder(k: real, a: real, b: real, x: real, y: real)
    requires k >= 0.0 && a <= b && x == k * a && y == k * b
    ensures x <= y
  {
    ProductOrder(k, a, b);
  }
}
