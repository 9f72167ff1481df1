/** The overall skin-health score: a fixed-weight sum of the eight channels,
    clamped to [0, 100] and rounded (src/ml/skinModel.ts:351-374). */
module ScoreAggregation {
  import opened Types
  import opened JsMath

  /** The distance-from-ideal transform of oiliness (ideal 45). */
  function OilinessComfort(oiliness: int): int {
    100 - (if oiliness >= 45 then oiliness - 45 else 45 - oiliness)
  }

  /** The unrounded weighted sum. */
  function WeightedSum(m: SkinMetrics): real {
    m.hydration as real * 0.18
    + OilinessComfort(m.oiliness) as real * 0.08
    + (100 - m.sensitivity) as real * 0.10
    + m.elasticity as real * 0.15
    + m.texture as real * 0.15
    + m.pigmentation as real * 0.12
    + m.poreSize as real * 0.07
    + m.radiance as real * 0.15
  }

  /** The score `calculateOverallScore` returns. */
  function OverallScore(m: SkinMetrics): int {
    ClampRound(WeightedSum(m), 0, 100)
  }

  /** `calculateOverallScore`: accumulates the weighted terms one by one. */
  method CalculateOverallScore(m: SkinMetrics) returns (s: int)
    ensures 0 <= s <= 100
    ensures s == OverallScore(m)
  {
    var score := 0.0;
    score := score + m.hydration as real * 0.18;
    score := score + (100 - (if m.oiliness >= 45 then m.oiliness - 45 else 45 - m.oiliness)) as real * 0.08;
    score := score + (100 - m.sensitivity) as real * 0.10;
    score := score + m.elasticity as real * 0.15;
    score := score + m.texture as real * 0.15;
    score := score + m.pigmentation as real * 0.12;
    score := score + m.poreSize as real * 0.07;
    score := score + m.radiance as real * 0.15;
    s := Round(Max(0.0, Min(100.0, score)));
  }

  /** For in-range metrics the weights (summing to 1) keep the sum in
      [3.6, 100]: the oiliness term alone is at least 45 * 0.08. So the clamp
      never changes the result. */
  lemma SumBounds(m: SkinMetrics)
    requires MetricsInRange(m)
    ensures 3.6 <= WeightedSum(m) <= 100.0
    ensures OverallScore(m) == Round(WeightedSum(m))
    ensures 4 <= OverallScore(m) <= 100
  {
  }

  /** Better hydration, elasticity, texture, pigmentation, pore size or
      radiance, or lower sensitivity, never lowers the score. */
  lemma {:induction false} Monotone(m: SkinMetrics, n: SkinMetrics)
    requires n.oiliness == m.oiliness
    requires n.hydration >= m.hydration && n.elasticity >= m.elasticity
    requires n.texture >= m.texture && n.pigmentation >= m.pigmentation
    requires n.poreSize >= m.poreSize && n.radiance >= m.radiance
    requires n.sensitivity <= m.sensitivity
    ensures WeightedSum(n) >= WeightedSum(m)
    ensures OverallScore(n) >= OverallScore(m)
  {
    RoundMonotone(Max(0.0, Min(100.0, WeightedSum(m))), Max(0.0, Min(100.0, WeightedSum(n))));
  }

  /** The oiliness term peaks at 45 and falls off on both sides. */
  lemma {:induction false} OilinessPeak(m: SkinMetrics, o: int)
    requires 45 <= o <= m.oiliness || m.oiliness <= o <= 45
    ensures WeightedSum(m.(oiliness := 45)) >= WeightedSum(m.(oiliness := o)) >= WeightedSum(m)
    ensures OverallScore(m.(oiliness := 45)) >= OverallScore(m.(oiliness := o)) >= OverallScore(m)
  {
    var a, b, c := m.(oiliness := 45), m.(oiliness := o), m;
    RoundMonotone(Max(0.0, Min(100.0, WeightedSum(b))), Max(0.0, Min(100.0, WeightedSum(a))));
    RoundMonotone(Max(0.0, Min(100.0, WeightedSum(c))), Max(0.0, Min(100.0, WeightedSum(b))));
  }

  /** The all-zero and all-hundred vectors score 14 and 86. */
  lemma Extremes()
    ensures OverallScore(SkinMetrics(0, 0, 0, 0, 0, 0, 0, 0)) == 14
    ensures OverallScore(SkinMetrics(100, 100, 100, 100, 100, 100, 100, 100)) == 86
  {
  }
}
