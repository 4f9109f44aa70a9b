/** utils/noise.ts: the seeded linear congruential generator `Random` and the two
    interpolation helpers `lerp` and `fade`.

    The generator's state is an integer held in a JavaScript number. The update
    `(seed * 1664525 + 1013904223) % 4294967296` uses JavaScript's `%`, which truncates
    toward zero: the remainder takes the sign of the dividend, so a negative seed can give
    a negative state and a negative draw. */
module Noise {

  import opened JsMath

  const Multiplier: int := 1664525
  const Increment: int := 1013904223
  const Modulus: int := 4294967296

  /** The state after one `next()` call from state s. */
  function NextState(s: int): (r: int)
    ensures 0 <= s ==> r == (s * Multiplier + Increment) % Modulus
    ensures 0 <= s ==> 0 <= r < Modulus
    ensures s * Multiplier + Increment < 0 ==> -Modulus < r <= 0
  {
    JsRem(s * Multiplier + Increment, Modulus)
  }

  /** The value `next()` returns once the state is s: `s / 4294967296`. A state in
      [0, 2^32) draws a value in [0, 1); a negative state draws a negative value. */
  function Draw(s: int): (v: real)
    ensures 0 <= s < Modulus ==> 0.0 <= v < 1.0
    ensures v < 0.0 <==> s < 0
    ensures -Modulus < s < Modulus ==> -1.0 < v < 1.0
  {
    s as real / Modulus as real
  }

  /** The state after n calls of `next()` starting from state s. */
  function StateAfter(s: int, n: nat): int
  {
    if n == 0 then s else NextState(StateAfter(s, n - 1))
  }

  /** The values returned by the first n calls of `next()` on a generator in state s:
      call i + 1 returns the draw of the state after i + 1 steps. */
  function Draws(s: int, n: nat): (vs: seq<real>)
    ensures |vs| == n
    ensures forall i :: 0 <= i < n ==> vs[i] == Draw(StateAfter(s, i + 1))
  {
    if n == 0 then [] else Draws(s, n - 1) + [Draw(StateAfter(s, n))]
  }

  /** A state that starts in [0, 2^32) stays there however many draws are taken. */
  lemma {:induction false} StateStaysInRange(s: int, n: nat)
    requires 0 <= s < Modulus
    ensures 0 <= StateAfter(s, n) < Modulus
  {
    if n > 0 {
      StateStaysInRange(s, n - 1);
    }
  }

  /** Every value drawn from a state in [0, 2^32) is in [0, 1). */
  lemma {:induction false} DrawsInUnitInterval(s: int, n: nat)
    requires 0 <= s < Modulus
    ensures forall i :: 0 <= i < n ==> 0.0 <= Draws(s, n)[i] < 1.0
  {
    if n > 0 {
      DrawsInUnitInterval(s, n - 1);
      StateStaysInRange(s, n);
    }
  }

  /** The constants are the ones quoted for the generator: seed 42 moves to state
      1083814273, so the first value is 1083814273 / 2^32 (about 0.2523). */
  lemma Seed42FirstDraw()
    ensures NextState(42) == 1083814273
    ensures Draws(42, 1) == [1083814273.0 / 4294967296.0]
  {
  }

  /** Truncated remainder keeps the sign of the dividend: seed -1000 moves to the
      negative state -650620777, so the first value is negative. */
  lemma NegativeSeedFirstDraw()
    ensures NextState(-1000) == -650620777
    ensures Draws(-1000, 1)[0] < 0.0
  {
  }

  /** The seeded generator. Its only state is the current seed. */
  class Random {
    var seed: int

    constructor (seed: int)
      ensures this.seed == seed
    {
      this.seed := seed;
    }

    /** Advances the state by one step and returns the new state divided by 2^32. */
    method Next() returns (v: real)
      modifies this
      ensures seed == NextState(old(seed))
      ensures v == Draw(seed)
    {
      seed := JsRem(seed * Multiplier + Increment, Modulus);
      v := seed as real / Modulus as real;
    }

    /** A value scaled from [0, 1) to [min, max): one draw. */
    method NextFloat(min: real, max: real) returns (v: real)
      modifies this
      ensures seed == NextState(old(seed))
      ensures v == ScaleDraw(min, max, seed)
    {
      var d := Next();
      v := min + d * (max - min);
    }

    /** `Math.floor` of NextFloat: one draw. */
    method NextInt(min: real, max: real) returns (v: int)
      modifies this
      ensures seed == NextState(old(seed))
      ensures v == ScaleDraw(min, max, seed).Floor
    {
      var f := NextFloat(min, max);
      v := f.Floor;
    }
  }

  /** What `nextFloat(min, max)` returns once the state has moved to s. */
  function ScaleDraw(min: real, max: real, s: int): real
  {
    min + Draw(s) * (max - min)
  }

  /** From a non-negative state, `nextFloat(min, max)` with min < max lands in [min, max). */
  lemma NextFloatInRange(min: real, max: real, s: int)
    requires min < max
    requires 0 <= s
    ensures min <= ScaleDraw(min, max, NextState(s)) < max
  {
    ScaleInRange(min, max, Draw(NextState(s)));
  }

  /** From a non-negative state, `nextInt(min, max)` with integers min < max lands in
      min .. max - 1. */
  lemma NextIntInRange(min: int, max: int, s: int)
    requires min < max
    requires 0 <= s
    ensures min <= ScaleDraw(min as real, max as real, NextState(s)).Floor <= max - 1
  {
    NextFloatInRange(min as real, max as real, s);
  }

  /** Two generators built from the same seed and drawn in turn n times give the same
      values, the values of the seed's sequence: each instance owns its state. */
  method TwinGenerators(seed: int, n: nat) returns (fromA: seq<real>, fromB: seq<real>)
    ensures fromA == fromB == Draws(seed, n)
  {
    var a := new Random(seed);
    var b := new Random(seed);
    fromA, fromB := [], [];
    var i := 0;
    while i < n
      invariant 0 <= i <= n
      invariant a != b
      invariant a.seed == b.seed == StateAfter(seed, i)
      invariant fromA == fromB == Draws(seed, i)
    {
      var x := a.Next();
      var y := b.Next();
      fromA, fromB := fromA + [x], fromB + [y];
      i := i + 1;
    }
  }

  /** Linear interpolation `a + t * (b - a)`. */
  function Lerp(a: real, b: real, t: real): (r: real)
    ensures t == 0.0 ==> r == a
    ensures t == 1.0 ==> r == b
  {
    a + t * (b - a)
  }

  /** The smoothstep polynomial `6t^5 - 15t^4 + 10t^3`. */
  function Fade(t: real): (r: real)
    ensures t == 0.0 ==> r == 0.0
    ensures t == 1.0 ==> r == 1.0
  {
    t * t * t * (t * (t * 6.0 - 15.0) + 10.0)
  }

  /** Fade stays between its end points on [0, 1] and is symmetric about t = 1/2. */
  lemma FadeShape(t: real)
    requires 0.0 <= t <= 1.0
    ensures 0.0 <= Fade(t) <= 1.0
    ensures Fade(1.0 - t) == 1.0 - Fade(t)
  {
    var u := t * (t * 6.0 - 15.0) + 10.0;
    assert u == 6.0 * ((t - 1.25) * (t - 1.25)) + 0.625;
    SquareNonNegative(t - 1.25);
    ProductNonNegative(t, t);
    ProductNonNegative(t * t, t);
    ProductNonNegative(t * t * t, u);
    var c, p := 1.0 - t, t * (6.0 * t + 3.0) + 1.0;
    ProductNonNegative(t, 6.0 * t + 3.0);
    ProductNonNegative(c, c);
    ProductNonNegative(c * c, c);
    ProductNonNegative(c * c * c, p);
    assert 1.0 - Fade(t) == (c * c * c) * p;
  }
}
