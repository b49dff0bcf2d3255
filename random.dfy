/**
 * The shared randomness source: `java.util.Random`, reduced to what the
 * generator relies on. The state is Java's 48-bit linear congruential seed and
 * `Next` is its `next(bits)`. `nextInt(bound)` scales a 31-bit draw for a
 * power-of-two bound and otherwise reduces it modulo the bound; the JDK's
 * rejection of a draw in the last, incomplete multiple of the bound is not
 * modelled. Every draw advances the state and lands in the range the caller
 * asked for.
 */
module Randomness {

  function Pow2(n: nat): (r: nat)
    ensures r > 0
  {
    if n == 0 then 1 else 2 * Pow2(n - 1)
  }

  lemma {:induction false} Pow2Add(a: nat, b: nat)
    ensures Pow2(a + b) == Pow2(a) * Pow2(b)
  {
    if a > 0 {
      Pow2Add(a - 1, b);
    }
  }

  /** Two draws of `a` and `b` bits, joined, fit in `a + b` bits. */
  lemma JoinBelow(high: nat, low: nat, a: nat, b: nat)
    requires high < Pow2(a) && low < Pow2(b)
    ensures high * Pow2(b) + low < Pow2(a + b)
  {
    Pow2Add(a, b);
    MulMonotonic(high + 1, Pow2(a), Pow2(b));
  }

  lemma MulMonotonic(x: nat, y: nat, z: nat)
    requires x <= y
    ensures x * z <= y * z
  {
  }

  /** A draw below its scale, divided by the scale, is a fraction in [0, 1). */
  lemma Fraction(x: nat, scale: nat)
    requires x < scale
    ensures 0.0 <= x as real / scale as real < 1.0
  {
    var q := x as real / scale as real;
    assert q * scale as real == x as real;
  }

  /** Euclidean remainder by a positive bound lands in [0, bound). */
  lemma RemainderBelow(x: int, bound: int)
    requires bound > 0
    ensures 0 <= x % bound < bound
  {}

  const Multiplier := 0x5_DEEC_E66D
  const Addend := 0xB

  /** One step of the 48-bit linear congruential generator. */
  function Advance(seed: nat): (next: nat)
    ensures next < Pow2(48)
  {
    (seed * Multiplier + Addend) % Pow2(48)
  }

  /** Bit `n` of a state below 2^(n+1) is its top bit: it is set exactly when the state reaches 2^n. */
  lemma TopBitOf(state: nat, n: nat)
    requires state < Pow2(n + 1)
    ensures (state / Pow2(n)) % Pow2(1) != 0 <==> state >= Pow2(n)
  {
    var p := Pow2(n);
    assert Pow2(n + 1) == 2 * p;
    var q := state / p;
    assert state == q * p + state % p;
    if q >= 2 {
      MulMonotonic(2, q, p);
    }
  }

  /** The 31 bits `next(31)` returns once the state has advanced to `state`: bits 17 to 47. */
  function Draw31(state: nat): (x: nat)
    ensures x < Pow2(31)
  {
    (state / Pow2(17)) % Pow2(31)
  }

  /** `(bound & -bound) == bound` for a positive `bound`: it is a power of two. */
  predicate IsPowerOfTwo(n: int)
    decreases if n > 0 then n else 0
  {
    n == 1 || (n > 1 && n % 2 == 0 && IsPowerOfTwo(n / 2))
  }

  /** A draw below `scale`, multiplied by `bound` and divided by `scale`, stays below `bound`. */
  lemma ScaledBelow(x: nat, bound: nat, scale: nat)
    requires x < scale && bound > 0
    ensures 0 <= bound * x / scale < bound
  {
    assert 0 <= bound * x;
    var q := bound * x / scale;
    MulMonotonic(x, scale - 1, bound);
    if q >= bound {
      MulMonotonic(bound, q, scale);
    }
  }

  /**
   * The value `nextInt(bound)` makes of an accepted 31-bit draw `x`: for a
   * power-of-two bound its high bits, `(bound * x) >> 31`, and otherwise the
   * remainder `x % bound`.
   */
  function BoundedDraw(x: nat, bound: int): (r: int)
    requires x < Pow2(31) && bound > 0
    ensures 0 <= r < bound
  {
    if IsPowerOfTwo(bound) then ScaledBelow(x, bound, Pow2(31)); bound * x / Pow2(31) else x % bound
  }

  /** Doubling a draw below `2 * half` and dividing by `2 * half` gives its top bit. */
  lemma DoubledOverDoubled(x: nat, half: nat)
    requires x < 2 * half
    ensures 2 * x / (2 * half) == if x >= half then 1 else 0
  {
    if x >= half {
      QuotientIs(2 * x, 2 * half, 1);
    } else {
      QuotientIs(2 * x, 2 * half, 0);
    }
  }

  /** A quotient is the one `q` with `q * d <= n < (q + 1) * d`. */
  lemma QuotientIs(n: nat, d: nat, q: nat)
    requires d > 0 && q * d <= n < (q + 1) * d
    ensures n / d == q
  {
    var r := n / d;
    assert n == r * d + n % d && n % d < d;
    assert r * d + d == (r + 1) * d;
    if r < q {
      MulMonotonic(r + 1, q, d);
    } else if r > q {
      MulMonotonic(q + 1, r, d);
    }
  }

  /** With two values (an enum with two constants, say) the top bit of the 31 bits decides, not the lowest. */
  lemma TwoValuedDrawIsTopBit(x: nat)
    requires x < Pow2(31)
    ensures BoundedDraw(x, 2) == if x >= Pow2(30) then 1 else 0
  {
    assert IsPowerOfTwo(2);
    DoubledOverDoubled(x, Pow2(30));
  }

  class Random {
    /** The 48-bit generator state. */
    var seed: nat

    /** `new Random()` seeds itself from the clock; here the initial state is a parameter. */
    constructor (initialSeed: nat)
      ensures seed == initialSeed % Pow2(48)
    {
      seed := initialSeed % Pow2(48);
    }

    /** `next(bits)`: advance the state and return its top `bits` bits. */
    method Next(bits: nat) returns (r: nat)
      requires 1 <= bits <= 32
      modifies this
      ensures seed == Advance(old(seed))
      ensures r == (seed / Pow2(48 - bits)) % Pow2(bits)
      ensures r < Pow2(bits)
    {
      seed := Advance(seed);
      r := (seed / Pow2(48 - bits)) % Pow2(bits);
    }

    /** `nextInt()`: a signed 32-bit draw. */
    method NextInt() returns (r: int)
      modifies this
      ensures -(Pow2(31) as int) <= r < Pow2(31)
    {
      var x := Next(32);
      r := if x >= Pow2(31) then x - Pow2(32) else x;
    }

    /** `nextInt(bound)`: a draw in [0, bound); the JDK throws when bound <= 0. */
    method NextIntBelow(bound: int) returns (r: int)
      requires bound > 0
      modifies this
      ensures seed == Advance(old(seed))
      ensures r == BoundedDraw(Draw31(seed), bound)
      ensures 0 <= r < bound
    {
      var x := Next(31);
      assert x == Draw31(seed);
      if IsPowerOfTwo(bound) {
        ScaledBelow(x, bound, Pow2(31));
        r := bound * x / Pow2(31);
      } else {
        RemainderBelow(x, bound);
        r := x % bound;
      }
    }

    /** `nextInt(origin, bound)`: a draw in [origin, bound); the JDK throws when origin >= bound. */
    method NextIntBetween(origin: int, bound: int) returns (r: int)
      requires origin < bound
      modifies this
      ensures origin <= r < bound
    {
      var x := Next(31);
      RemainderBelow(x, bound - origin);
      r := origin + x % (bound - origin);
    }

    /** `nextBoolean()`: the top bit of the advanced state. */
    method NextBoolean() returns (r: bool)
      modifies this
      ensures seed == Advance(old(seed))
      ensures r <==> seed >= Pow2(47)
    {
      var x := Next(1);
      TopBitOf(seed, 47);
      r := x != 0;
    }

    /** `nextLong()`: two 32-bit draws combined with 64-bit wrap-around. */
    method NextLong() returns (r: int)
      modifies this
      ensures -(Pow2(63) as int) <= r < Pow2(63)
    {
      var high := NextInt();
      var low := NextInt();
      r := (high * Pow2(32) + low + Pow2(63)) % Pow2(64) - Pow2(63);
    }

    /** `nextFloat()`: a 24-bit draw scaled into [0, 1). */
    method NextFloat() returns (r: real)
      modifies this
      ensures 0.0 <= r < 1.0
    {
      var x := Next(24);
      Fraction(x, Pow2(24));
      r := x as real / Pow2(24) as real;
    }

    /** `nextDouble()`: a 26-bit and a 27-bit draw joined into a 53-bit fraction of [0, 1). */
    method NextDouble() returns (r: real)
      modifies this
      ensures 0.0 <= r < 1.0
    {
      var high := Next(26);
      var low := Next(27);
      MulMonotonic(0, high, Pow2(27));
      var joined: nat := high * Pow2(27) + low;
      JoinBelow(high, low, 26, 27);
      Fraction(joined, Pow2(53));
      r := joined as real / Pow2(53) as real;
    }
  }
}
