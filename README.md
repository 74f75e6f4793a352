# Biome scoring and fractal noise, in Dafny

This project models the two numeric components of a procedural map generator
and proves properties of them. All numbers are exact Dafny `real`s.

- **Biome scoring** (`biome.dfy`, module `Biomes`; properties in
  `biome_properties.dfy`, module `BiomeProperties`). A biome holds a value
  range `(min, max, optimum)` for each of four signals (heat, moisture, ground
  hardness, height), four relevance weights and a category tag. It is an
  immutable record, so it is a datatype: the datatype constructor
  `Biome(biomeValueRanges, scoringConfig, category)` stands for the class
  constructor, which only stores its three arguments. The model keeps:
  - the permissive range check `value >= min || value <= max` (an OR, not an
    AND), which rejects a value only when it lies strictly between `max` and
    `min`, i.e. only for an inverted range;
  - the piecewise-linear per-signal score `value/|min| + 1` below the optimum
    and `-value/|max| + 1` at or above it, evaluated at the value itself and
    not at its distance from the optimum. A consequence proved here: the
    score stays at or below 1 everywhere exactly when the optimum is 0;
  - the matching score, the weighted sum of the four per-signal scores;
  - the range sentinel, `Some(-1)` when any signal fails the range check and
    `None` (the program's `undefined`) otherwise.
- **Fractal noise** (`fractal_noise.dfy`, module `Noise`). The class
  `FractalNoise` keeps the seed, the optional depth and the 2D noise primitive
  that the library builds from the seed, all set once by the constructor.
  `MakeNoise` runs the octave loop: octave `i` adds
  `(noise(x·2^i, y·2^i) + 1) / 2 / 2^i` to an accumulator, and the result is
  the accumulator halved. The octave count is `depth || 4`: a missing depth
  and a depth of 0 both give 4 octaves, and a negative depth gives none (the
  result is then 0). The loop invariant ties the accumulator to the recursive
  `OctaveSum`. From it the model proves that, given noise in [-1, 1], the
  value lies in `[0, 1 - 2^-n]` for `n` octaves (at most 0.9375 by default).
- `wrappers.dfy` (module `Wrappers`) holds the `Option` type shared by both.

The noise primitive belongs to a library that is not part of this model. A
noise function is a Dafny function value `(real, real) -> real`. The library's
factory from a seed to such a function is a parameter of the constructor, and
its [-1, 1] output range is the premise `NoiseInRange` of every bound that
needs it.

`this.depth || 4` treats a depth of 0 as falsy, so depth 0 runs four octaves,
the same as no depth; only a negative depth runs no octaves and gives 0.

## Model

| member | source | states |
|---|---|---|
| `Biomes.ValueIsInRange` | src/complex/biomeGeneration/Biome.ts:25-27 | a value is rejected exactly when max < value < min; every value passes when min <= max |
| `Biomes.GetValueScore` | src/complex/biomeGeneration/Biome.ts:29-32 | defined when the divisor of the branch taken is non-zero; the score is 1 at value 0; below the optimum it is positive exactly above -abs(min) and 0 exactly at -abs(min); at or above the optimum it is positive exactly below abs(max) and 0 exactly at abs(max) |
| `Biomes.Biome.CalculateMatchingScore` | src/complex/biomeGeneration/Biome.ts:34-48 | at the all-zero point the matching score is the sum of the four relevance weights |
| `Biomes.Biome.ValuesAreInRange` | src/complex/biomeGeneration/Biome.ts:50-61 | the result is Some(-1) exactly when some signal fails the range check, and None exactly when every signal passes it |
| `BiomeProperties.InvertedRangeExample` | src/complex/biomeGeneration/Biome.ts:25-27 | with min = 5 and max = 3, value 4 is rejected and value 6 accepted |
| `BiomeProperties.SentinelExample` | src/complex/biomeGeneration/Biome.ts:50-61 | one inverted heat range (5, 3) makes heat 4 give the sentinel; when the other three ranges have min <= max, heat 6 gives no sentinel |
| `BiomeProperties.ScoreNonDecreasingBelowOptimum` | src/complex/biomeGeneration/Biome.ts:30 | below the optimum the score never decreases as the value grows |
| `BiomeProperties.ScoreNonIncreasingFromOptimum` | src/complex/biomeGeneration/Biome.ts:31 | at and above the optimum the score never increases as the value grows |
| `BiomeProperties.TentExample` | src/complex/biomeGeneration/Biome.ts:29-32 | for the range (-10, 10, 0) the score is 1 at 0 and 0 at -10 and at 10 |
| `BiomeProperties.ScoreAtMostOneIffCentred` | src/complex/biomeGeneration/Biome.ts:29-32 | the score is at most 1 for every value exactly when the optimum is 0; any other optimum lets the value halfway to it score above 1 |
| `BiomeProperties.MatchingScoreOrderIndependent` | src/complex/biomeGeneration/Biome.ts:43-47 | the matching score equals the sum of the four weighted per-signal scores taken in any order |
| `BiomeProperties.UnitWeightsScoreOneAtOrigin` | src/complex/biomeGeneration/Biome.ts:94-100 | when the weights sum to 1, the all-zero point scores exactly 1 whatever the ranges |
| `BiomeProperties.SingleSignalScore` | src/complex/biomeGeneration/Biome.ts:34-48 | with weight 1 on heat and 0 elsewhere, the matching score is the heat score |
| `BiomeProperties.CentredScoreBounded` | src/complex/biomeGeneration/Biome.ts:34-48 | with non-negative weights and every optimum at 0, no point scores above the sum of the weights |
| `Noise.Pow2` | src/noise/FractalNoise.ts:15 | every power of two 2^i is at least 1, so dividing by the factor is always defined |
| `Noise.OctaveCount` | src/noise/FractalNoise.ts:14 | the octave count is the depth when it is given and non-zero, and 4 when it is absent or 0; it is never 0 |
| `Noise.Iterations` | src/noise/FractalNoise.ts:14 | the loop runs the octave count's number of times when it is non-negative, and zero times exactly when the depth is negative |
| `Noise.ContributionBounds` | src/noise/FractalNoise.ts:16 | given noise in [-1, 1], one octave at frequency factor >= 1 adds between 0 and 1/factor |
| `Noise.OctaveTermBounds` | src/noise/FractalNoise.ts:15-16 | given noise in [-1, 1], octave term i lies in [0, 1/2^i] |
| `Noise.OctaveSumBounds` | src/noise/FractalNoise.ts:14-17 | given noise in [-1, 1], the first n octave terms sum to a value in [0, 2 - 2/2^n] |
| `Noise.OctaveSumTail` | src/noise/FractalNoise.ts:14-17 | given noise in [-1, 1], going from m to n >= m octaves never lowers the sum and raises it by at most 2/2^m - 2/2^n |
| `Noise.FractalValueBounds` | src/noise/FractalNoise.ts:12-19 | given noise in [-1, 1], the field's value lies in [0, 1 - 1/2^n] for n octaves |
| `Noise.DefaultDepthBound` | src/noise/FractalNoise.ts:14-19 | with no depth or depth 0, four octaves run and the value lies in [0, 0.9375] |
| `Noise.SingleOctave` | src/noise/FractalNoise.ts:14-19 | with depth 1 the value is exactly (noise(x, y) + 1) / 4 |
| `Noise.NextOctave` | src/noise/FractalNoise.ts:14-16 | n + 1 octaves give the value of n octaves plus half of term n |
| `Noise.FractalNoise.constructor` | src/noise/FractalNoise.ts:7-9 | stores the seed and the optional depth, and the primitive the library builds from that seed |
| `Noise.FractalNoise.MakeNoise` | src/noise/FractalNoise.ts:11-20 | the loop's result is half the sum of the octave terms 0 .. n-1; it is 0 for a negative depth; given noise in [-1, 1] it lies in [0, 1 - 1/2^n] |
| `Noise.Reproducible` | src/noise/FractalNoise.ts:7-20 | two fields built with the same seed and depth by the same library, and two calls on one field, give the same value at (x, y) |

## Left out

- `getColorFromValues`, `BiomeColorSet` and `Color`: the method is abstract with no body in the base class, and colour derivation is rendering.
- The level enumerations (heat, moisture, ground hardness, height) and the biome-category enumeration are not part of this model: range bounds are plain reals and the category is an opaque numeric tag.
- Floating point: rounding, and the Infinity or NaN that division by `abs(min) = 0` or `abs(max) = 0` produces. `GetValueScore` instead requires the divisor of the branch it takes to be non-zero, and the matching score requires that of all four signals.
- `Math.pow(2, i)` is the exact power of two `Pow2(i)`.
- The coherent-noise library (`makeNoise2D`, `Noise2D`) is foreign code: it enters as a seed-to-function parameter, and its [-1, 1] range is a premise, not a proof.
- `MakeNoise`: depths that are not integers (JavaScript would run `ceil(depth)` octaves for a positive fraction) and `NaN` depths are not modelled; the depth is an optional integer.
- Selecting a biome among candidates, iterating over the world grid and every other caller are not part of this model.
