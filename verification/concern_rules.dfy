/** The ten independent threshold rules that turn metrics into detected
    concerns (src/ml/skinModel.ts:94-279). A rule's `Math.random()` draw is
    the parameter `r`, which the source confines to [0, 1). */
module ConcernRules {
  import opened Types

  /** `CONCERN_RULES`, in the source's order. */
  const Rules: seq<ConcernRule> := [
    AcneRule, DarkSpotsRule, FineLinesRule, LargePoresRule, DullnessRule,
    DrynessRule, OilinessRule, RednessRule, UnevenToneRule, DarkCirclesRule
  ]

  /** The concern a rule reports. */
  function Concern(rule: ConcernRule): SkinConcern {
    match rule
    case AcneRule => Acne
    case DarkSpotsRule => DarkSpots
    case FineLinesRule => FineLines
    case LargePoresRule => LargePores
    case DullnessRule => Dullness
    case DrynessRule => Dryness
    case OilinessRule => Oiliness
    case RednessRule => Redness
    case UnevenToneRule => UnevenTone
    case DarkCirclesRule => DarkCircles
  }

  /** The threshold ladder of each rule: None when the rule does not fire. */
  function RuleSeverity(rule: ConcernRule, m: SkinMetrics): Option<Severity> {
    match rule
    case AcneRule =>
      if m.oiliness > 75 && m.texture < 40 then Some(Severe)
      else if m.oiliness > 55 && m.texture < 60 then Some(Moderate)
      else if m.oiliness > 40 && m.texture < 70 then Some(Mild)
      else None
    case DarkSpotsRule =>
      if m.pigmentation < 60 then Some(if m.pigmentation < 35 then Moderate else Mild) else None
    case FineLinesRule =>
      if m.elasticity < 55 then Some(if m.elasticity < 30 then Moderate else Mild) else None
    case LargePoresRule =>
      if m.poreSize < 50 then Some(if m.poreSize < 30 then Moderate else Mild) else None
    case DullnessRule =>
      if m.radiance < 50 then Some(if m.radiance < 30 then Moderate else Mild) else None
    case DrynessRule =>
      if m.hydration < 45 then
        Some(if m.hydration < 25 then Severe else if m.hydration < 35 then Moderate else Mild)
      else None
    case OilinessRule =>
      if m.oiliness > 70 then Some(if m.oiliness > 85 then Moderate else Mild) else None
    case RednessRule =>
      if m.sensitivity > 65 then Some(if m.sensitivity > 80 then Moderate else Mild) else None
    case UnevenToneRule =>
      if m.pigmentation < 55 && m.radiance < 55 then Some(Mild) else None
    case DarkCirclesRule =>
      if m.hydration < 50 && m.elasticity < 60 then Some(Mild) else None
  }

  /** The fixed part of a rule's confidence. */
  function ConfidenceBase(rule: ConcernRule): real {
    match rule
    case AcneRule => 0.72
    case DarkSpotsRule => 0.68
    case FineLinesRule => 0.65
    case LargePoresRule => 0.7
    case DullnessRule => 0.75
    case DrynessRule => 0.78
    case OilinessRule => 0.8
    case RednessRule => 0.66
    case UnevenToneRule => 0.7
    case DarkCirclesRule => 0.6
  }

  /** The factor a rule's random draw is scaled by. */
  function ConfidenceSpread(rule: ConcernRule): real {
    match rule
    case AcneRule => 0.15
    case DarkSpotsRule => 0.2
    case FineLinesRule => 0.2
    case LargePoresRule => 0.15
    case DullnessRule => 0.15
    case DrynessRule => 0.12
    case OilinessRule => 0.1
    case RednessRule => 0.2
    case UnevenToneRule => 0.15
    case DarkCirclesRule => 0.15
  }

  function Description(rule: ConcernRule, s: Severity): string {
    match rule
    case AcneRule =>
      if s == Severe then "Active breakouts detected across multiple areas. Inflammatory acne present."
      else if s == Moderate then "Some active breakouts detected. A mix of comedonal and inflammatory acne."
      else "Minor breakouts detected. Mostly comedonal (non-inflammatory) acne."
    case DarkSpotsRule =>
      if s == Moderate then "Noticeable hyperpigmentation in several areas. Could be post-inflammatory or sun-related."
      else "Minor dark spots detected. Early signs of uneven pigmentation."
    case FineLinesRule =>
      if s == Moderate then "Fine lines visible around the eyes and forehead. Early signs of loss of elasticity."
      else "Very fine lines beginning to appear. Normal early signs — a great time to start prevention."
    case LargePoresRule => "Enlarged pores detected, particularly in the T-zone area."
    case DullnessRule => "Skin appears to lack natural glow and radiance. Could be due to dehydration or dead skin buildup."
    case DrynessRule => "Skin barrier appears compromised with visible signs of dehydration."
    case OilinessRule => "Excess sebum production detected. This can lead to clogged pores if not managed."
    case RednessRule => "Visible redness and irritation detected. Could indicate sensitive or reactive skin."
    case UnevenToneRule => "Uneven skin tone detected with areas of varying pigmentation."
    case DarkCirclesRule => "Under-eye area shows signs of fatigue and slight discoloration."
  }

  function AffectedArea(rule: ConcernRule): string {
    match rule
    case AcneRule => "T-zone and cheeks"
    case DarkSpotsRule => "Cheeks and forehead"
    case FineLinesRule => "Eye area and forehead"
    case LargePoresRule => "Nose and cheeks"
    case DullnessRule => "Overall complexion"
    case DrynessRule => "Cheeks and jawline"
    case OilinessRule => "T-zone"
    case RednessRule => "Cheeks and nose"
    case UnevenToneRule => "Overall complexion"
    case DarkCirclesRule => "Under-eye area"
  }

  function Advice(rule: ConcernRule): string {
    match rule
    case AcneRule => "Consider a gentle salicylic acid cleanser and niacinamide serum."
    case DarkSpotsRule => "Vitamin C serum in the morning and SPF 50+ daily. Consider azelaic acid."
    case FineLinesRule => "Retinol at night (start low), hyaluronic acid for hydration, and daily SPF."
    case LargePoresRule => "Niacinamide serum to minimize appearance. BHA exfoliant 2-3x per week."
    case DullnessRule => "AHA exfoliant 2x per week, Vitamin C serum, and hydrating toner."
    case DrynessRule => "Rich moisturizer with ceramides, hyaluronic acid serum, and avoid harsh cleansers."
    case OilinessRule => "Oil-free moisturizer, niacinamide serum, gentle foaming cleanser."
    case RednessRule => "Centella asiatica (cica) products, avoid fragrance, use mineral SPF."
    case UnevenToneRule => "Vitamin C + niacinamide for brightening, AHA for cell turnover, daily SPF."
    case DarkCirclesRule => "Caffeine eye cream, retinol eye treatment at night, ensure adequate sleep."
  }

  /** A rule's `evaluate`: the concern it detects, or None. */
  function Evaluate(rule: ConcernRule, m: SkinMetrics, r: real): (d: Option<DetectedConcern>)
    ensures d.Some? <==> RuleSeverity(rule, m).Some?
    ensures d.Some? ==> d.value.kind == Concern(rule) && d.value.severity == RuleSeverity(rule, m).value
    ensures d.Some? ==> d.value.confidence == ConfidenceBase(rule) + r * ConfidenceSpread(rule)
    ensures d.Some? ==> d.value.wording == RuleWording(rule, d.value.severity)
  {
    match RuleSeverity(rule, m)
    case None => None
    case Some(s) =>
      Some(DetectedConcern(Concern(rule), s, ConfidenceBase(rule) + r * ConfidenceSpread(rule),
                           RuleWording(rule, s)))
  }

  /** The rules report pairwise different concerns. */
  lemma RulesDistinct()
    ensures forall i, j :: 0 <= i < j < |Rules| ==> Concern(Rules[i]) != Concern(Rules[j])
  {
  }

  /** Each rule fires exactly above its outermost threshold; for acne the
      severe and moderate bands lie inside the mild one. */
  lemma {:induction false} FiringThresholds(m: SkinMetrics)
    ensures RuleSeverity(AcneRule, m).Some? <==> m.oiliness > 40 && m.texture < 70
    ensures RuleSeverity(DarkSpotsRule, m).Some? <==> m.pigmentation < 60
    ensures RuleSeverity(FineLinesRule, m).Some? <==> m.elasticity < 55
    ensures RuleSeverity(LargePoresRule, m).Some? <==> m.poreSize < 50
    ensures RuleSeverity(DullnessRule, m).Some? <==> m.radiance < 50
    ensures RuleSeverity(DrynessRule, m).Some? <==> m.hydration < 45
    ensures RuleSeverity(OilinessRule, m).Some? <==> m.oiliness > 70
    ensures RuleSeverity(RednessRule, m).Some? <==> m.sensitivity > 65
    ensures RuleSeverity(UnevenToneRule, m).Some? <==> m.pigmentation < 55 && m.radiance < 55
    ensures RuleSeverity(DarkCirclesRule, m).Some? <==> m.hydration < 50 && m.elasticity < 60
  {
  }

  /** Which severities each rule can produce, and on which thresholds. */
  lemma SeverityLadders(m: SkinMetrics)
    ensures RuleSeverity(AcneRule, m) == Some(Severe) <==> m.oiliness > 75 && m.texture < 40
    ensures RuleSeverity(AcneRule, m) == Some(Moderate)
            <==> m.oiliness > 55 && m.texture < 60 && !(m.oiliness > 75 && m.texture < 40)
    ensures RuleSeverity(DrynessRule, m) == Some(Severe) <==> m.hydration < 25
    ensures RuleSeverity(DrynessRule, m) == Some(Moderate) <==> 25 <= m.hydration < 35
    ensures RuleSeverity(DrynessRule, m) == Some(Mild) <==> 35 <= m.hydration < 45
    ensures RuleSeverity(DarkSpotsRule, m) == Some(Moderate) <==> m.pigmentation < 35
    ensures RuleSeverity(FineLinesRule, m) == Some(Moderate) <==> m.elasticity < 30
    ensures RuleSeverity(LargePoresRule, m) == Some(Moderate) <==> m.poreSize < 30
    ensures RuleSeverity(DullnessRule, m) == Some(Moderate) <==> m.radiance < 30
    ensures RuleSeverity(OilinessRule, m) == Some(Moderate) <==> m.oiliness > 85
    ensures RuleSeverity(RednessRule, m) == Some(Moderate) <==> m.sensitivity > 80
  {
  }

  /** Only acne and dryness can be severe; uneven tone and dark circles are
      only ever mild. */
  lemma SeverityCeilings(rule: ConcernRule, m: SkinMetrics)
    ensures RuleSeverity(rule, m) == Some(Severe) ==> rule == AcneRule || rule == DrynessRule
    ensures (rule == UnevenToneRule || rule == DarkCirclesRule) && RuleSeverity(rule, m).Some?
            ==> RuleSeverity(rule, m) == Some(Mild)
  {
  }

  /** A rule's confidence lies in [base, base + spread), inside [0.55, 0.9). */
  lemma ConfidenceRange(rule: ConcernRule, m: SkinMetrics, r: real)
    requires 0.0 <= r < 1.0
    requires Evaluate(rule, m, r).Some?
    ensures ConfidenceBase(rule) <= Evaluate(rule, m, r).value.confidence
                                 < ConfidenceBase(rule) + ConfidenceSpread(rule)
    ensures 0.55 <= Evaluate(rule, m, r).value.confidence < 0.9
  {
    var w := ConfidenceSpread(rule);
    assert 0.1 <= w <= 0.2 && 0.6 <= ConfidenceBase(rule) && ConfidenceBase(rule) + w <= 0.9 by {
      match rule
      case AcneRule => case DarkSpotsRule => case FineLinesRule => case LargePoresRule =>
      case DullnessRule => case DrynessRule => case OilinessRule => case RednessRule =>
      case UnevenToneRule => case DarkCirclesRule =>
    }
    ScaledDraw(r, w);
  }

  /** A draw in [0, 1) scaled by a positive factor stays below the factor. */
  lemma ScaledDraw(r: real, w: real)
    requires 0.0 <= r < 1.0 && 0.0 < w
    ensures 0.0 <= r * w < w
  {
  }
}
