/**
 * The biome scoring model: a biome declares, for each of four environmental
 * signals (heat, moisture, ground hardness, height), a value range and a
 * relevance weight, and scores how well a point's four values fit it.
 *
 * Numbers are exact reals; the range bounds, which the program types as level
 * enumerations or plain numbers, are plain reals here.
 */
module Biomes {
  import opened Wrappers

  /** A (min, max, optimum) triple for one signal. Nothing forces min <= optimum <= max. */
  datatype ValueRange = ValueRange(min: real, max: real, optimum: real)

  /** The four environmental signals a biome is scored on. */
  datatype Signal = Heat | Moisture | GroundHardness | Height

  const AllSignals: seq<Signal> := [Heat, Moisture, GroundHardness, Height]

  /** One value range per signal. */
  datatype ValueRangeSet = ValueRangeSet(
    heatRange: ValueRange,
    moistureRange: ValueRange,
    groundHardnessRange: ValueRange,
    heightRange: ValueRange)
  {
    function Of(s: Signal): ValueRange {
      match s
      case Heat => heatRange
      case Moisture => moistureRange
      case GroundHardness => groundHardnessRange
      case Height => heightRange
    }
  }

  /** The four signal values at one point of the map. */
  datatype PointValues = PointValues(heat: real, moisture: real, groundHardness: real, height: real)
  {
    function Of(s: Signal): real {
      match s
      case Heat => heat
      case Moisture => moisture
      case GroundHardness => groundHardness
      case Height => height
    }
  }

  /** Relevance weights, one per signal; documented to sum to 1, never checked. */
  datatype ScoringConfig = ScoringConfig(
    heatScoreRelevance: real,
    moistureScoreRelevance: real,
    groundHardnessScoringRelevance: real,
    heightScoreRelevance: real)
  {
    function Total(): real {
      heatScoreRelevance + moistureScoreRelevance + groundHardnessScoringRelevance + heightScoreRelevance
    }

    predicate NonNegative() {
      heatScoreRelevance >= 0.0 && moistureScoreRelevance >= 0.0 &&
      groundHardnessScoringRelevance >= 0.0 && heightScoreRelevance >= 0.0
    }
  }

  /** The biome kind; the enumeration of kinds is not part of this model, so it is an opaque tag. */
  datatype BiomeCategory = BiomeCategory(tag: nat)

  function Abs(x: real): real {
    if x < 0.0 then -x else x
  }

  /**
   * The permissive range check: a value passes when it is at least min OR at
   * most max. It rejects a value exactly when the value lies strictly between
   * max and min, which can only happen for an inverted range.
   */
  function ValueIsInRange(value: real, range: ValueRange): (b: bool)
    ensures !b <==> range.max < value < range.min
    ensures range.min <= range.max ==> b
  {
    value >= range.min || value <= range.max
  }

  /**
   * GetValueScore divides by |min| below the optimum and by |max| otherwise;
   * only the divisor of the branch taken must be non-zero.
   */
  predicate ScoreDefined(value: real, range: ValueRange) {
    if value < range.optimum then range.min != 0.0 else range.max != 0.0
  }

  /**
   * The piecewise-linear score, evaluated at the value itself (not at its
   * distance from the optimum). Either branch is 1 at value 0; below the
   * optimum the score falls to 0 at -|min|, at or above it the score falls to
   * 0 at |max|, and it is positive exactly between those points.
   */
  function GetValueScore(value: real, range: ValueRange): (score: real)
    requires ScoreDefined(value, range)
    ensures value == 0.0 ==> score == 1.0
    ensures value < range.optimum ==>
      (score > 0.0 <==> value > -Abs(range.min)) && (score == 0.0 <==> value == -Abs(range.min))
    ensures range.optimum <= value ==>
      (score > 0.0 <==> value < Abs(range.max)) && (score == 0.0 <==> value == Abs(range.max))
  {
    if value < range.optimum then (1.0 / Abs(range.min)) * value + 1.0
    else -(1.0 / Abs(range.max)) * value + 1.0
  }

  /** A biome: its ranges, its scoring weights and its category, fixed at construction. */
  datatype Biome = Biome(biomeValueRanges: ValueRangeSet, scoringConfig: ScoringConfig, category: BiomeCategory)
  {
    /** Every signal's score is defined at point p (no division by a zero bound). */
    predicate Scorable(p: PointValues) {
      ScoreDefined(p.heat, biomeValueRanges.heatRange) &&
      ScoreDefined(p.moisture, biomeValueRanges.moistureRange) &&
      ScoreDefined(p.groundHardness, biomeValueRanges.groundHardnessRange) &&
      ScoreDefined(p.height, biomeValueRanges.heightRange)
    }

    /** One signal's score multiplied by that signal's relevance weight. */
    function SignalScore(p: PointValues, s: Signal): real
      requires Scorable(p)
    {
      match s
      case Heat => GetValueScore(p.heat, biomeValueRanges.heatRange) * scoringConfig.heatScoreRelevance
      case Moisture => GetValueScore(p.moisture, biomeValueRanges.moistureRange) * scoringConfig.moistureScoreRelevance
      case GroundHardness =>
        GetValueScore(p.groundHardness, biomeValueRanges.groundHardnessRange) * scoringConfig.groundHardnessScoringRelevance
      case Height => GetValueScore(p.height, biomeValueRanges.heightRange) * scoringConfig.heightScoreRelevance
    }

    /** Every signal's weighted score at point p, as one total function. */
    function SignalScores(p: PointValues): Signal -> real
      requires Scorable(p)
    {
      s => SignalScore(p, s)
    }

    /**
     * The weighted sum of the four per-signal scores. At the all-zero point
     * every per-signal score is 1, so the result is the sum of the weights.
     */
    function CalculateMatchingScore(p: PointValues): (score: real)
      requires Scorable(p)
      ensures p == PointValues(0.0, 0.0, 0.0, 0.0) ==> score == scoringConfig.Total()
    {
      var heatScore := SignalScore(p, Heat);
      var moistureScore := SignalScore(p, Moisture);
      var groundHardnessScore := SignalScore(p, GroundHardness);
      var heightScore := SignalScore(p, Height);
      heatScore + moistureScore + groundHardnessScore + heightScore
    }

    /**
     * Some(-1) when at least one signal fails the permissive range check,
     * None (the program's undefined) when all four pass.
     */
    function ValuesAreInRange(p: PointValues): (r: Option<int>)
      ensures r.Some? ==> r.value == -1
      ensures r.Some? <==> exists s: Signal :: !ValueIsInRange(p.Of(s), biomeValueRanges.Of(s))
    {
      var valuesArentInRange := !(
        ValueIsInRange(p.heat, biomeValueRanges.heatRange)
        && ValueIsInRange(p.moisture, biomeValueRanges.moistureRange)
        && ValueIsInRange(p.groundHardness, biomeValueRanges.groundHardnessRange)
        && ValueIsInRange(p.height, biomeValueRanges.heightRange));
      if valuesArentInRange then
        // the failing signal is the witness of the existential
        assert !ValueIsInRange(p.Of(Heat), biomeValueRanges.Of(Heat))
          || !ValueIsInRange(p.Of(Moisture), biomeValueRanges.Of(Moisture))
          || !ValueIsInRange(p.Of(GroundHardness), biomeValueRanges.Of(GroundHardness))
          || !ValueIsInRange(p.Of(Height), biomeValueRanges.Of(Height));
        Some(-1)
      else None
    }
  }
}
