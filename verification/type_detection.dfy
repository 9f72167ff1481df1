/** Skin-type classification from metrics (src/ml/skinModel.ts:283-291). */
module TypeDetection {
  import opened Types
  import ConcernRules

  /** `detectSkinType`: thresholds tested in priority order. */
  function DetectSkinType(m: SkinMetrics): SkinType {
    if m.sensitivity > 70 then Sensitive
    else if m.oiliness > 65 && m.hydration < 45 then Combination
    else if m.oiliness > 60 then Oily
    else if m.hydration < 40 then Dry
    else Normal
  }

  /** The classification agrees with the concern rules run on the same
      metrics: sensitive skin always shows redness, combination and dry skin
      always show dryness, and oily or combination skin always shows acne
      unless its texture is smooth. */
  lemma {:induction false} TypeAgreesWithRules(m: SkinMetrics)
    ensures DetectSkinType(m) == Sensitive
            ==> ConcernRules.RuleSeverity(RednessRule, m).Some?
    ensures DetectSkinType(m) in {Combination, Dry}
            ==> ConcernRules.RuleSeverity(DrynessRule, m).Some?
    ensures DetectSkinType(m) in {Combination, Oily} && m.texture < 70
            ==> ConcernRules.RuleSeverity(AcneRule, m).Some?
    ensures DetectSkinType(m) == Sensitive <==> m.sensitivity > 70
    ensures DetectSkinType(m) == Normal
            <==> m.sensitivity <= 70 && m.oiliness <= 60 && m.hydration >= 40
  {
    ConcernRules.FiringThresholds(m);
  }

  /** The five types partition the metric space: each is chosen exactly on
      its own band, where every earlier test in the priority order failed. */
  lemma SkinTypeThresholds(m: SkinMetrics)
    ensures DetectSkinType(m) == Sensitive <==> m.sensitivity > 70
    ensures DetectSkinType(m) == Combination
            <==> m.sensitivity <= 70 && m.oiliness > 65 && m.hydration < 45
    ensures DetectSkinType(m) == Oily
            <==> m.sensitivity <= 70 && m.oiliness > 60 && !(m.oiliness > 65 && m.hydration < 45)
    ensures DetectSkinType(m) == Dry
            <==> m.sensitivity <= 70 && m.oiliness <= 60 && m.hydration < 40
    ensures DetectSkinType(m) == Normal
            <==> m.sensitivity <= 70 && m.oiliness <= 60 && m.hydration >= 40
  {
  }
}
