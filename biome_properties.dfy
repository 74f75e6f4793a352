/** Properties of the biome scoring model that relate several calls or fix concrete cases. */
module BiomeProperties {
  import opened Wrappers
  import opened Biomes

  /** With the inverted range min = 5, max = 3, value 4 is rejected and value 6 accepted. */
  lemma InvertedRangeExample(optimum: real)
    ensures !ValueIsInRange(4.0, ValueRange(5.0, 3.0, optimum))
    ensures ValueIsInRange(6.0, ValueRange(5.0, 3.0, optimum))
  {
  }

  /** A single inverted range is enough for the sentinel, and moving the value out of the gap clears it. */
  lemma SentinelExample(b: Biome, p: PointValues)
    requires b.biomeValueRanges.heatRange == ValueRange(5.0, 3.0, 4.0)
    requires b.biomeValueRanges.moistureRange.min <= b.biomeValueRanges.moistureRange.max
    requires b.biomeValueRanges.groundHardnessRange.min <= b.biomeValueRanges.groundHardnessRange.max
    requires b.biomeValueRanges.heightRange.min <= b.biomeValueRanges.heightRange.max
    ensures b.ValuesAreInRange(p.(heat := 4.0)) == Some(-1)
    ensures b.ValuesAreInRange(p.(heat := 6.0)) == None
  {
  }

  /** Below the optimum the score never decreases as the value grows. */
  lemma ScoreNonDecreasingBelowOptimum(v1: real, v2: real, range: ValueRange)
    requires v1 <= v2 < range.optimum && range.min != 0.0
    ensures GetValueScore(v1, range) <= GetValueScore(v2, range)
  {
  }

  /** At and above the optimum the score never increases as the value grows. */
  lemma ScoreNonIncreasingFromOptimum(v1: real, v2: real, range: ValueRange)
    requires range.optimum <= v1 <= v2 && range.max != 0.0
    ensures GetValueScore(v1, range) >= GetValueScore(v2, range)
  {
  }

  /** The symmetric range (-10, 10, 0): score 1 at the optimum and 0 at both bounds. */
  lemma TentExample()
    ensures GetValueScore(0.0, ValueRange(-10.0, 10.0, 0.0)) == 1.0
    ensures GetValueScore(-10.0, ValueRange(-10.0, 10.0, 0.0)) == 0.0
    ensures GetValueScore(10.0, ValueRange(-10.0, 10.0, 0.0)) == 0.0
  {
  }

  /**
   * Because the score is evaluated at the value rather than at its distance
   * from the optimum, it stays at or below 1 everywhere exactly when the
   * optimum is 0; for any other optimum the value halfway to it scores above 1.
   */
  lemma ScoreAtMostOneIffCentred(range: ValueRange)
    requires range.min != 0.0 && range.max != 0.0
    ensures (forall v :: GetValueScore(v, range) <= 1.0) <==> range.optimum == 0.0
  {
    if range.optimum == 0.0 {
      forall v ensures GetValueScore(v, range) <= 1.0 {
        if v < 0.0 {
          var k := 1.0 / Abs(range.min);
          assert k * v <= 0.0 by { assert k > 0.0; assert k * (-v) >= 0.0; }
        } else {
          ScoreNonIncreasingFromOptimum(0.0, v, range);
        }
      }
    } else {
      var half := range.optimum / 2.0;
      if range.optimum > 0.0 {
        var k := 1.0 / Abs(range.min);
        assert k * half > 0.0 by { assert k > 0.0 && half > 0.0; }
      } else {
        var k := 1.0 / Abs(range.max);
        assert k * half < 0.0 by { assert k > 0.0 && -half > 0.0; assert k * (-half) > 0.0; }
      }
      assert GetValueScore(half, range) > 1.0;
    }
  }

  /** The scores of the listed signals, added up in list order. */
  function Sum(scores: Signal -> real, signals: seq<Signal>): real {
    if signals == [] then 0.0 else scores(signals[0]) + Sum(scores, signals[1..])
  }

  /** Removing the signal at position k from the list takes exactly its score off the sum. */
  lemma {:induction false} SumRemove(scores: Signal -> real, signals: seq<Signal>, k: nat)
    requires k < |signals|
    ensures Sum(scores, signals) == scores(signals[k]) + Sum(scores, signals[..k] + signals[k + 1..])
  {
    if k == 0 {
      assert signals[..0] + signals[1..] == signals[1..];
    } else {
      var tail := signals[1..];
      SumRemove(scores, tail, k - 1);
      assert tail[..k - 1] + tail[k..] == (signals[..k] + signals[k + 1..])[1..];
    }
  }

  /** The sum does not depend on the order in which the signals are listed. */
  lemma {:induction false} SumPermutation(scores: Signal -> real, signals: seq<Signal>, others: seq<Signal>)
    requires multiset(signals) == multiset(others)
    ensures Sum(scores, signals) == Sum(scores, others)
    decreases |signals|
  {
    if signals == [] {
      assert |others| == |multiset(others)| == 0;
    } else {
      var s := signals[0];
      assert s in multiset(others);
      var k :| 0 <= k < |others| && others[k] == s;
      var rest := others[..k] + others[k + 1..];
      assert others == others[..k] + [s] + others[k + 1..];
      assert signals == [s] + signals[1..];
      assert multiset(signals[1..]) == multiset(signals) - multiset{s};
      assert multiset(rest) == multiset(others) - multiset{s};
      SumRemove(scores, others, k);
      SumPermutation(scores, signals[1..], rest);
    }
  }

  /**
   * The matching score is the sum of the four weighted per-signal scores taken
   * in any order: every listing of the four signals gives the same total.
   */
  lemma MatchingScoreOrderIndependent(b: Biome, p: PointValues, signals: seq<Signal>)
    requires b.Scorable(p) && multiset(signals) == multiset(AllSignals)
    ensures b.CalculateMatchingScore(p) == Sum(b.SignalScores(p), signals)
  {
    var scores := b.SignalScores(p);
    assert Sum(scores, AllSignals[3..]) == b.SignalScore(p, Height);
    assert Sum(scores, AllSignals[2..]) == b.SignalScore(p, GroundHardness) + b.SignalScore(p, Height);
    assert Sum(scores, AllSignals[1..]) ==
      b.SignalScore(p, Moisture) + b.SignalScore(p, GroundHardness) + b.SignalScore(p, Height);
    SumPermutation(scores, AllSignals, signals);
  }

  /** With weights summing to 1, as documented, the all-zero point scores exactly 1 whatever the ranges. */
  lemma UnitWeightsScoreOneAtOrigin(b: Biome)
    requires b.scoringConfig.Total() == 1.0
    requires b.Scorable(PointValues(0.0, 0.0, 0.0, 0.0))
    ensures b.CalculateMatchingScore(PointValues(0.0, 0.0, 0.0, 0.0)) == 1.0
  {
  }

  /** With one signal weighted 1 and the rest 0, the matching score is that signal's own score. */
  lemma SingleSignalScore(b: Biome, p: PointValues)
    requires b.scoringConfig == ScoringConfig(1.0, 0.0, 0.0, 0.0)
    requires b.Scorable(p)
    ensures b.CalculateMatchingScore(p) == GetValueScore(p.heat, b.biomeValueRanges.heatRange)
  {
  }

  /** A range whose optimum is 0 and whose bounds are both non-zero. */
  predicate Centred(range: ValueRange) {
    range.optimum == 0.0 && range.min != 0.0 && range.max != 0.0
  }

  /** A centred range's score, scaled by a non-negative weight, is at most that weight. */
  lemma CentredWeightedScoreBounded(value: real, range: ValueRange, weight: real)
    requires Centred(range) && weight >= 0.0
    ensures GetValueScore(value, range) * weight <= weight
  {
  }

  /**
   * With non-negative weights and every optimum at 0, no point scores above
   * the sum of the weights (which the all-zero point reaches).
   */
  lemma CentredScoreBounded(b: Biome, p: PointValues)
    requires b.scoringConfig.NonNegative()
    requires forall s: Signal :: Centred(b.biomeValueRanges.Of(s))
    ensures b.Scorable(p)
    ensures b.CalculateMatchingScore(p) <= b.scoringConfig.Total()
  {
    var ranges, config := b.biomeValueRanges, b.scoringConfig;
    assert Centred(ranges.Of(Heat)) && Centred(ranges.Of(Moisture));
    assert Centred(ranges.Of(GroundHardness)) && Centred(ranges.Of(Height));
    CentredWeightedScoreBounded(p.heat, ranges.heatRange, config.heatScoreRelevance);
    CentredWeightedScoreBounded(p.moisture, ranges.moistureRange, config.moistureScoreRelevance);
    CentredWeightedScoreBounded(p.groundHardness, ranges.groundHardnessRange, config.groundHardnessScoringRelevance);
    CentredWeightedScoreBounded(p.height, ranges.heightRange, config.heightScoreRelevance);
    var heat, moisture := b.SignalScore(p, Heat), b.SignalScore(p, Moisture);
    var groundHardness, height := b.SignalScore(p, GroundHardness), b.SignalScore(p, Height);
    assert heat <= config.heatScoreRelevance && moisture <= config.moistureScoreRelevance;
    assert groundHardness <= config.groundHardnessScoringRelevance && height <= config.heightScoreRelevance;
    assert b.CalculateMatchingScore(p) == heat + moisture + groundHardness + height;
  }
}
