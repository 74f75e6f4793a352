/**
 * Multi-octave ("fractal") noise: octave i samples a coherent-noise primitive
 * at the coordinates scaled by 2^i, maps its output from [-1, 1] to [0, 1],
 * divides it by 2^i, and the sum of the octaves is halved.
 *
 * The primitive comes from a library that is not part of this model: it is a
 * function value `(real, real) -> real`, and the library's factory from a seed
 * to such a function is a parameter of the constructor. Its [-1, 1] range is
 * the premise NoiseInRange wherever a bound depends on it.
 */
module Noise {
  import opened Wrappers

  /** The exact power of two 2^i (the program uses Math.pow(2, i)). */
  function Pow2(i: nat): (p: real)
    ensures p >= 1.0
  {
    if i == 0 then 1.0 else 2.0 * Pow2(i - 1)
  }

  /** The assumed range of the coherent-noise primitive. */
  ghost predicate NoiseInRange(noise: (real, real) -> real) {
    forall x: real, y: real :: -1.0 <= noise(x, y) <= 1.0
  }

  /**
   * The octave count `depth || 4`: an absent depth and a depth of 0 are both
   * falsy, so both give 4; any other depth is used as it is, negative ones
   * included. The count is never 0.
   */
  function OctaveCount(depth: Option<int>): (n: int)
    ensures n != 0
    ensures depth.None? || depth == Some(0) ==> n == 4
    ensures depth.Some? && depth.value != 0 ==> n == depth.value
  {
    match depth
    case None => 4
    case Some(d) => if d == 0 then 4 else d
  }

  /** How many times the loop `i < count` runs from i = 0: none for a negative count. */
  function Iterations(depth: Option<int>): (n: nat)
    ensures OctaveCount(depth) >= 0 ==> n == OctaveCount(depth)
    ensures OctaveCount(depth) < 0 ==> n == 0
    ensures n == 0 <==> depth.Some? && depth.value < 0
  {
    var count := OctaveCount(depth);
    if count < 0 then 0 else count
  }

  /** What one octave adds at frequency factor: the sample remapped from [-1, 1] to [0, 1], divided by factor. */
  function Contribution(noise: (real, real) -> real, x: real, y: real, factor: real): real
    requires factor != 0.0
  {
    (noise(x * factor, y * factor) + 1.0) / 2.0 / factor
  }

  /** The contribution of octave i, sampled at frequency 2^i. */
  function OctaveTerm(noise: (real, real) -> real, x: real, y: real, i: nat): real {
    Contribution(noise, x, y, Pow2(i))
  }

  /** The sum of the octave terms 0 .. n-1. */
  function OctaveSum(noise: (real, real) -> real, x: real, y: real, n: nat): real {
    if n == 0 then 0.0 else OctaveSum(noise, x, y, n - 1) + OctaveTerm(noise, x, y, n - 1)
  }

  /** The value the noise field gives at (x, y): half the sum of all octave terms. */
  function FractalValue(noise: (real, real) -> real, depth: Option<int>, x: real, y: real): real {
    OctaveSum(noise, x, y, Iterations(depth)) / 2.0
  }

  /** Given noise in [-1, 1], an octave at frequency factor >= 1 contributes between 0 and 1/factor. */
  lemma ContributionBounds(noise: (real, real) -> real, x: real, y: real, factor: real)
    requires NoiseInRange(noise) && factor >= 1.0
    ensures 0.0 <= Contribution(noise, x, y, factor) <= 1.0 / factor
  {
  }

  /** Given noise in [-1, 1], octave term i lies in [0, 1/2^i]. */
  lemma OctaveTermBounds(noise: (real, real) -> real, x: real, y: real, i: nat)
    requires NoiseInRange(noise)
    ensures 0.0 <= OctaveTerm(noise, x, y, i) <= 1.0 / Pow2(i)
  {
  }

  /** Doubling the frequency halves the weight: 2/(2p) = 1/p, and 2/p is twice 1/p. */
  lemma HalfStep(p: real)
    requires p >= 1.0
    ensures 2.0 / (2.0 * p) == 1.0 / p && 2.0 / p == 2.0 * (1.0 / p)
  {
  }

  /** Given noise in [-1, 1], the first n octaves add up to at most the geometric sum 2 - 2/2^n. */
  lemma {:induction false} OctaveSumBounds(noise: (real, real) -> real, x: real, y: real, n: nat)
    requires NoiseInRange(noise)
    ensures 0.0 <= OctaveSum(noise, x, y, n) <= 2.0 - 2.0 / Pow2(n)
  {
    if n > 0 {
      OctaveSumBounds(noise, x, y, n - 1);
      OctaveTermBounds(noise, x, y, n - 1);
      var p := Pow2(n - 1);
      assert Pow2(n) == 2.0 * p;
      HalfStep(p);
    }
  }

  /**
   * Adding octaves beyond the first m never lowers the sum and raises it by at
   * most the remaining geometric tail 2/2^m - 2/2^n.
   */
  lemma {:induction false} OctaveSumTail(noise: (real, real) -> real, x: real, y: real, m: nat, n: nat)
    requires NoiseInRange(noise) && m <= n
    ensures OctaveSum(noise, x, y, m) <= OctaveSum(noise, x, y, n)
    ensures OctaveSum(noise, x, y, n) - OctaveSum(noise, x, y, m) <= 2.0 / Pow2(m) - 2.0 / Pow2(n)
    decreases n - m
  {
    if m < n {
      OctaveSumTail(noise, x, y, m, n - 1);
      OctaveTermBounds(noise, x, y, n - 1);
      var p := Pow2(n - 1);
      assert Pow2(n) == 2.0 * p;
      HalfStep(p);
      var before, term := OctaveSum(noise, x, y, n - 1), OctaveTerm(noise, x, y, n - 1);
      assert OctaveSum(noise, x, y, n) == before + term;
      assert before - OctaveSum(noise, x, y, m) <= 2.0 / Pow2(m) - 2.0 * (1.0 / p);
      assert term <= 1.0 / p;
    }
  }

  /** Given noise in [-1, 1], the field's value lies in [0, 1 - 1/2^n] for n octaves. */
  lemma FractalValueBounds(noise: (real, real) -> real, depth: Option<int>, x: real, y: real)
    requires NoiseInRange(noise)
    ensures 0.0 <= FractalValue(noise, depth, x, y) <= 1.0 - 1.0 / Pow2(Iterations(depth))
  {
    OctaveSumBounds(noise, x, y, Iterations(depth));
  }

  /** With no depth (or depth 0) the four default octaves keep the value within [0, 15/16]. */
  lemma DefaultDepthBound(noise: (real, real) -> real, depth: Option<int>, x: real, y: real)
    requires NoiseInRange(noise) && (depth.None? || depth == Some(0))
    ensures Iterations(depth) == 4
    ensures 0.0 <= FractalValue(noise, depth, x, y) <= 0.9375
  {
    FractalValueBounds(noise, depth, x, y);
    assert Pow2(4) == 16.0;
  }

  /** With depth 1 the value is the single remapped sample at (x, y), halved: (noise(x, y) + 1) / 4. */
  lemma SingleOctave(noise: (real, real) -> real, x: real, y: real)
    ensures FractalValue(noise, Some(1), x, y) == (noise(x, y) + 1.0) / 4.0
  {
    assert Iterations(Some(1)) == 1;
    assert OctaveSum(noise, x, y, 1) == Contribution(noise, x, y, 1.0);
    assert x * 1.0 == x && y * 1.0 == y;
  }

  /** One more octave adds exactly half of the new octave's term; the earlier terms stay as they were. */
  lemma NextOctave(noise: (real, real) -> real, x: real, y: real, n: nat)
    requires n >= 1
    ensures FractalValue(noise, Some(n + 1), x, y) == FractalValue(noise, Some(n), x, y) + OctaveTerm(noise, x, y, n) / 2.0
  {
  }

  /** A noise field: the seed it was built from, its optional depth and the primitive derived from the seed. */
  class FractalNoise {
    const seed: int
    const depth: Option<int>
    const noise2d: (real, real) -> real

    /** Builds the field; the primitive is whatever the library's factory gives for this seed. */
    constructor (seed: int, depth: Option<int>, makeNoise2D: int -> ((real, real) -> real))
      ensures this.seed == seed && this.depth == depth && this.noise2d == makeNoise2D(seed)
    {
      this.seed := seed;
      this.depth := depth;
      this.noise2d := makeNoise2D(seed);
    }

    /**
     * Sums the octave terms in a loop. The result is the field's value at
     * (x, y); it is 0 for a negative depth and, given noise in [-1, 1], lies in
     * [0, 1 - 1/2^n] for n octaves.
     */
    method MakeNoise(x: real, y: real) returns (r: real)
      ensures r == FractalValue(noise2d, depth, x, y)
      ensures depth.Some? && depth.value < 0 ==> r == 0.0
      ensures NoiseInRange(noise2d) ==> 0.0 <= r <= 1.0 - 1.0 / Pow2(Iterations(depth))
    {
      var sum := 0.0;
      var count := OctaveCount(depth);
      var i := 0;
      while i < count
        invariant 0 <= i && (count >= 0 ==> i <= count) && (count < 0 ==> i == 0)
        invariant sum == OctaveSum(noise2d, x, y, i)
        decreases count - i
      {
        var factor := Pow2(i);
        sum := sum + Contribution(noise2d, x, y, factor);
        i := i + 1;
      }
      r := sum / 2.0;
      if NoiseInRange(noise2d) {
        FractalValueBounds(noise2d, depth, x, y);
      }
    }
  }

  /**
   * Two fields built from the same seed and depth by the same library, and
   * repeated calls on one field, all give the same value at (x, y).
   */
  method Reproducible(makeNoise2D: int -> ((real, real) -> real), seed: int, depth: Option<int>, x: real, y: real)
    returns (first: real, again: real, other: real)
    ensures first == again == other
  {
    var field := new FractalNoise(seed, depth, makeNoise2D);
    var twin := new FractalNoise(seed, depth, makeNoise2D);
    first := field.MakeNoise(x, y);
    again := field.MakeNoise(x, y);
    other := twin.MakeNoise(x, y);
  }
}
