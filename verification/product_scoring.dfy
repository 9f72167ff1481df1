/** `scoreProduct` (src/services/recommendations.ts:21-155): a product's
    match score out of 100, the rounded sum of seven weighted terms. The
    catalog's `Math.log10` is the parameter `log10`. */
module ProductScoring {
  import opened Types
  import opened JsMath
  import opened Text

  // `WEIGHTS`
  const ConcernWeight := 35.0
  const SkinTypeWeight := 20.0
  const PreferenceWeight := 15.0
  const BudgetWeight := 10.0
  const RatingWeight := 10.0
  const PopularityWeight := 5.0
  const IngredientWeight := 5.0

  /** The seven weights sum to 100. */
  lemma WeightsSumTo100()
    ensures ConcernWeight + SkinTypeWeight + PreferenceWeight + BudgetWeight
            + RatingWeight + PopularityWeight + IngredientWeight == 100.0
  {
  }

  /** `BUDGET_THRESHOLDS`: the most a tier will pay; the luxury tier's
      ceiling is infinite, written None. */
  function BudgetCeiling(b: PriceRange): Option<real> {
    match b
    case Budget => Some(25.0)
    case MidRange => Some(60.0)
    case Premium => Some(120.0)
    case Luxury => None
  }

  /** `price <= BUDGET_THRESHOLDS[b]`. */
  predicate WithinBudget(price: real, b: PriceRange) {
    match BudgetCeiling(b)
    case None => true
    case Some(ceiling) => price <= ceiling
  }

  /** The ingredient names of `HERO_INGREDIENTS`. */
  datatype Hero =
    | SalicylicAcid | BenzoylPeroxide | Niacinamide | TeaTree | Bha | Zinc
    | VitaminC | AzelaicAcid | AlphaArbutin | KojicAcid | Retinol | Peptides
    | HyaluronicAcid | Bakuchiol | Retinal | Collagen | Clay | Aha | LicoriceRoot
    | GlycolicAcid | LacticAcid | Ceramides | Squalane | Glycerin | SheaButter
    | CentellaAsiatica | Cica | AloeVera | GreenTea | Chamomile | OatExtract
    | Allantoin | Caffeine | VitaminK | TranexamicAcid | Pha | Charcoal | Spf
    | RosehipOil | ColloidalOatmeal

  /** The spelling of each hero ingredient in the table. */
  function HeroName(h: Hero): string {
    match h
    case SalicylicAcid => "Salicylic Acid"
    case BenzoylPeroxide => "Benzoyl Peroxide"
    case Niacinamide => "Niacinamide"
    case TeaTree => "Tea Tree"
    case Bha => "BHA"
    case Zinc => "Zinc"
    case VitaminC => "Vitamin C"
    case AzelaicAcid => "Azelaic Acid"
    case AlphaArbutin => "Alpha Arbutin"
    case KojicAcid => "Kojic Acid"
    case Retinol => "Retinol"
    case Peptides => "Peptides"
    case HyaluronicAcid => "Hyaluronic Acid"
    case Bakuchiol => "Bakuchiol"
    case Retinal => "Retinal"
    case Collagen => "Collagen"
    case Clay => "Clay"
    case Aha => "AHA"
    case LicoriceRoot => "Licorice Root"
    case GlycolicAcid => "Glycolic Acid"
    case LacticAcid => "Lactic Acid"
    case Ceramides => "Ceramides"
    case Squalane => "Squalane"
    case Glycerin => "Glycerin"
    case SheaButter => "Shea Butter"
    case CentellaAsiatica => "Centella Asiatica"
    case Cica => "Cica"
    case AloeVera => "Aloe Vera"
    case GreenTea => "Green Tea"
    case Chamomile => "Chamomile"
    case OatExtract => "Oat Extract"
    case Allantoin => "Allantoin"
    case Caffeine => "Caffeine"
    case VitaminK => "Vitamin K"
    case TranexamicAcid => "Tranexamic Acid"
    case Pha => "PHA"
    case Charcoal => "Charcoal"
    case Spf => "SPF"
    case RosehipOil => "Rosehip Oil"
    case ColloidalOatmeal => "Colloidal Oatmeal"
  }

  /** `HERO_INGREDIENTS`: the active ingredients known to treat a concern. */
  function Heroes(c: SkinConcern): seq<Hero> {
    match c
    case Acne => [SalicylicAcid, BenzoylPeroxide, Niacinamide, TeaTree, Bha, Zinc]
    case DarkSpots => [Hero.VitaminC, AzelaicAcid, AlphaArbutin, KojicAcid, Niacinamide]
    case FineLines => [Hero.Retinol, Peptides, HyaluronicAcid, Hero.VitaminC, Bakuchiol]
    case Wrinkles => [Hero.Retinol, Retinal, Peptides, Collagen, Hero.VitaminC]
    case LargePores => [Niacinamide, Bha, SalicylicAcid, Clay, Aha]
    case UnevenTone => [Hero.VitaminC, Aha, Niacinamide, AzelaicAcid, LicoriceRoot]
    case Dullness => [Hero.VitaminC, Aha, GlycolicAcid, LacticAcid, Niacinamide]
    case Dryness => [HyaluronicAcid, Ceramides, Squalane, Glycerin, SheaButter]
    case Oiliness => [Niacinamide, Bha, SalicylicAcid, Clay, Zinc]
    case Redness => [CentellaAsiatica, Cica, AloeVera, GreenTea, Chamomile, AzelaicAcid]
    case Sensitivity => [Ceramides, CentellaAsiatica, AloeVera, OatExtract, Allantoin]
    case DarkCircles => [Caffeine, VitaminK, Hero.Retinol, Peptides, Niacinamide]
    case Hyperpigmentation => [Hero.VitaminC, AzelaicAcid, AlphaArbutin, TranexamicAcid, Aha]
    case Texture => [Aha, Bha, Hero.Retinol, GlycolicAcid, LacticAcid, Pha]
    case Blackheads => [Bha, SalicylicAcid, Niacinamide, Charcoal, Clay]
    case Whiteheads => [Bha, SalicylicAcid, BenzoylPeroxide, Hero.Retinol]
    case SunDamage => [Hero.VitaminC, Hero.Retinol, Aha, Niacinamide, Spf]
    case Scarring => [Hero.Retinol, Hero.VitaminC, Aha, CentellaAsiatica, RosehipOil]
    case Eczema => [Ceramides, ColloidalOatmeal, SheaButter, Allantoin]
    case Rosacea => [AzelaicAcid, CentellaAsiatica, GreenTea, Niacinamide]
    case Melasma => [AzelaicAcid, Hero.VitaminC, TranexamicAcid, AlphaArbutin, KojicAcid]
  }

  /** `ingredient.toLowerCase().includes(hero.toLowerCase())`. */
  predicate Matches(ingredient: string, h: Hero) {
    Contains(Lower(ingredient), Lower(HeroName(h)))
  }

  /** Matching ignores the case of the ingredient's letters. */
  lemma MatchIgnoresCase(ingredient: string, h: Hero)
    ensures Matches(Lower(ingredient), h) == Matches(ingredient, h)
  {
    LowerIdempotent(ingredient);
  }

  /** Some key ingredient of the product is a hero for `c`. */
  predicate HasHero(keyIngredients: seq<string>, c: SkinConcern) {
    exists i :: 0 <= i < |keyIngredients| && Treats(keyIngredients[i], c)
  }

  /** `heroes.some(...)`: the key ingredient mentions one of the concern's
      hero ingredients. */
  predicate Treats(ingredient: string, c: SkinConcern) {
    exists h :: h in Heroes(c) && Matches(ingredient, h)
  }

  /** An ingredient whose label spells a hero of the concern, whatever the
      text around it and the case of its letters, treats the concern. */
  lemma {:induction false} LabelledIngredientTreats(before: string, after: string, h: Hero, c: SkinConcern)
    requires h in Heroes(c)
    ensures Treats(before + HeroName(h) + after, c)
    ensures Treats(Lower(before + HeroName(h) + after), c)
  {
    var name := HeroName(h);
    var ingredient := before + name + after;
    LowerConcat(before + name, after);
    LowerConcat(before, name);
    ContainsMiddle(Lower(before), Lower(name), Lower(after));
    assert Matches(ingredient, h);
    MatchIgnoresCase(ingredient, h);
    assert Matches(Lower(ingredient), h);
  }

  /** The inner scan: walks the key ingredients up to the first one that
      satisfies `treats`. */
  method ScanIngredients(keyIngredients: seq<string>, treats: string -> bool) returns (found: bool)
    ensures found <==> exists i :: 0 <= i < |keyIngredients| && treats(keyIngredients[i])
  {
    found := false;
    var j := 0;
    while j < |keyIngredients|
      invariant 0 <= j <= |keyIngredients|
      invariant forall i :: 0 <= i < j ==> !treats(keyIngredients[i])
    {
      if treats(keyIngredients[j]) {
        found := true;
        break;
      }
      j := j + 1;
    }
  }

  /** `concerns.filter((c) => product.targetConcerns.includes(c))`. */
  function Matched(concerns: seq<SkinConcern>, p: Product): seq<SkinConcern> {
    Keep(concerns, c => c in p.targetConcerns)
  }

  /** The concerns, counted with repetition, that some key ingredient
      treats: each concern adds at most one hit. */
  function IngredientHits(concerns: seq<SkinConcern>, p: Product): nat {
    if concerns == [] then 0
    else
      IngredientHits(concerns[..|concerns| - 1], p)
      + (if HasHero(p.keyIngredients, concerns[|concerns| - 1]) then 1 else 0)
  }

  lemma {:induction false} IngredientHitsBound(concerns: seq<SkinConcern>, p: Product)
    ensures IngredientHits(concerns, p) <= |concerns|
    ensures (forall i :: 0 <= i < |concerns| ==> !HasHero(p.keyIngredients, concerns[i]))
            ==> IngredientHits(concerns, p) == 0
  {
    if concerns != [] {
      var init := concerns[..|concerns| - 1];
      IngredientHitsBound(init, p);
      assert forall i :: 0 <= i < |init| ==> init[i] == concerns[i];
    }
  }

  /** One more concern adds one hit exactly when it has a hero ingredient. */
  lemma IngredientHitsStep(concerns: seq<SkinConcern>, k: nat, p: Product)
    requires k < |concerns|
    ensures IngredientHits(concerns[..k + 1], p)
            == IngredientHits(concerns[..k], p) + (if HasHero(p.keyIngredients, concerns[k]) then 1 else 0)
  {
    assert concerns[..k + 1][..k] == concerns[..k];
  }

  // ----- The seven terms -----

  /** `(matched / concerns.length) * 35`, or nothing without concerns. */
  function ConcernTerm(p: Product, concerns: seq<SkinConcern>): real {
    if |concerns| > 0 then (|Matched(concerns, p)| as real / |concerns| as real) * ConcernWeight
    else 0.0
  }

  /** `analysis?.skinTypeDetected ?? profile?.skinType`. */
  function ScoringType(profile: Option<UserProfile>, analysis: Option<SkinAnalysisResult>): Option<SkinType> {
    if analysis.Some? then Some(analysis.value.skinTypeDetected)
    else if profile.Some? then Some(profile.value.skinType)
    else None
  }

  function SkinTypeTerm(p: Product, profile: Option<UserProfile>, analysis: Option<SkinAnalysisResult>): real {
    var t := ScoringType(profile, analysis);
    if t.Some? && t.value in p.suitableSkinTypes then SkinTypeWeight else 0.0
  }

  /** How many of the four preference flags are set. */
  function Enabled(u: UserPreferences): nat {
    (if u.preferCrueltyFree then 1 else 0) + (if u.preferVegan then 1 else 0)
    + (if u.preferFragranceFree then 1 else 0) + (if u.preferNatural then 1 else 0)
  }

  /** How many of the set flags the product meets. */
  function Met(u: UserPreferences, p: Product): nat {
    (if u.preferCrueltyFree && p.isCrueltyFree then 1 else 0)
    + (if u.preferVegan && p.isVegan then 1 else 0)
    + (if u.preferFragranceFree && p.isFragranceFree then 1 else 0)
    + (if u.preferNatural && p.isNatural then 1 else 0)
  }

  /** The share of set flags met, times 15; half of 15 when no flag is set;
      nothing without a profile. */
  function PreferenceTerm(p: Product, profile: Option<UserProfile>): real {
    match profile
    case None => 0.0
    case Some(u) =>
      var n := Enabled(u.preferences);
      if n > 0 then (Met(u.preferences, p) as real / n as real) * PreferenceWeight
      else PreferenceWeight * 0.5
  }

  /** The full 10 within budget, 3 over it, and half without a profile. */
  function BudgetTerm(p: Product, profile: Option<UserProfile>): real {
    match profile
    case None => BudgetWeight * 0.5
    case Some(u) =>
      if WithinBudget(p.price, u.preferences.budgetRange) then BudgetWeight else BudgetWeight * 0.3
  }

  function RatingTerm(p: Product): real {
    (p.rating / 5.0) * RatingWeight
  }

  function PopularityTerm(p: Product, log10: real -> real): real {
    Min(1.0, log10((p.reviewCount + 1) as real) / 5.0) * PopularityWeight
  }

  function IngredientTerm(p: Product, concerns: seq<SkinConcern>): real {
    if |concerns| > 0 then (IngredientHits(concerns, p) as real / |concerns| as real) * IngredientWeight
    else 0.0
  }

  /** The unrounded score. */
  function RawScore(p: Product, concerns: seq<SkinConcern>, profile: Option<UserProfile>,
                    analysis: Option<SkinAnalysisResult>, log10: real -> real): real
  {
    ConcernTerm(p, concerns) + SkinTypeTerm(p, profile, analysis) + PreferenceTerm(p, profile)
    + BudgetTerm(p, profile) + RatingTerm(p) + PopularityTerm(p, log10) + IngredientTerm(p, concerns)
  }

  /** What `scoreProduct` returns. */
  function Score(p: Product, concerns: seq<SkinConcern>, profile: Option<UserProfile>,
                 analysis: Option<SkinAnalysisResult>, log10: real -> real): int
  {
    Round(RawScore(p, concerns, profile, analysis, log10))
  }

  /** The ingredient-bonus loops of `scoreProduct`: for each concern, the
      key ingredients are scanned up to the first that contains one of the
      concern's hero ingredients, which counts one hit. */
  method CountIngredientHits(p: Product, concerns: seq<SkinConcern>) returns (ingredientHits: nat)
    ensures ingredientHits == IngredientHits(concerns, p)
  {
    ingredientHits := 0;
    for k := 0 to |concerns|
      invariant ingredientHits == IngredientHits(concerns[..k], p)
    {
      IngredientHitsStep(concerns, k, p);
      var c := concerns[k];
      var found := ScanIngredients(p.keyIngredients, ki => Treats(ki, c));
      assert found == HasHero(p.keyIngredients, c);
      if found {
        ingredientHits := ingredientHits + 1;
      }
    }
    assert concerns[..|concerns|] == concerns;
  }

  /** The preference block of `scoreProduct`: counts the set flags and,
      among them, those the product meets. */
  method CountPreferences(prefs: UserPreferences, p: Product) returns (prefScore: nat, prefCount: nat)
    ensures prefScore == Met(prefs, p) && prefCount == Enabled(prefs)
  {
    prefScore, prefCount := 0, 0;
    if prefs.preferCrueltyFree {
      prefCount := prefCount + 1;
      if p.isCrueltyFree { prefScore := prefScore + 1; }
    }
    if prefs.preferVegan {
      prefCount := prefCount + 1;
      if p.isVegan { prefScore := prefScore + 1; }
    }
    if prefs.preferFragranceFree {
      prefCount := prefCount + 1;
      if p.isFragranceFree { prefScore := prefScore + 1; }
    }
    if prefs.preferNatural {
      prefCount := prefCount + 1;
      if p.isNatural { prefScore := prefScore + 1; }
    }
  }

  /** `scoreProduct`: accumulates the terms into `score`, counting the set
      and met preference flags on the way. */
  method ScoreProduct(p: Product, concerns: seq<SkinConcern>, profile: Option<UserProfile>,
                      analysis: Option<SkinAnalysisResult>, log10: real -> real)
    returns (s: int)
    ensures s == Score(p, concerns, profile, analysis, log10)
  {
    var score := 0.0;

    var concernMatchCount := |Matched(concerns, p)|;
    if |concerns| > 0 {
      score := score + (concernMatchCount as real / |concerns| as real) * ConcernWeight;
    }
    assert score == ConcernTerm(p, concerns);
    ghost var sum := score;

    var skinType := if analysis.Some? then Some(analysis.value.skinTypeDetected)
                    else if profile.Some? then Some(profile.value.skinType) else None;
    if skinType.Some? && skinType.value in p.suitableSkinTypes {
      score := score + SkinTypeWeight;
    }
    assert score == sum + SkinTypeTerm(p, profile, analysis);
    sum := score;

    if profile.Some? {
      var prefScore, prefCount := CountPreferences(profile.value.preferences, p);
      if prefCount > 0 {
        score := score + (prefScore as real / prefCount as real) * PreferenceWeight;
      } else {
        score := score + PreferenceWeight * 0.5;
      }
    }
    assert score == sum + PreferenceTerm(p, profile);
    sum := score;

    if profile.Some? {
      if WithinBudget(p.price, profile.value.preferences.budgetRange) {
        score := score + BudgetWeight;
      } else {
        score := score + BudgetWeight * 0.3;
      }
    } else {
      score := score + BudgetWeight * 0.5;
    }
    assert score == sum + BudgetTerm(p, profile);
    sum := score;

    score := score + (p.rating / 5.0) * RatingWeight;

    var popularityNorm := Min(1.0, log10((p.reviewCount + 1) as real) / 5.0);
    score := score + popularityNorm * PopularityWeight;
    assert score == sum + RatingTerm(p) + PopularityTerm(p, log10);
    sum := score;

    var ingredientHits := CountIngredientHits(p, concerns);
    if |concerns| > 0 {
      score := score + (ingredientHits as real / |concerns| as real) * IngredientWeight;
    }
    assert score == sum + IngredientTerm(p, concerns);

    s := Round(score);
  }

  // ----- Properties -----

  /** Each term lies between 0 and its weight, given a rating in [0, 5] and
      a non-negative logarithm of the review count plus one. */
  lemma {:induction false} TermBounds(p: Product, concerns: seq<SkinConcern>, profile: Option<UserProfile>,
                                      analysis: Option<SkinAnalysisResult>, log10: real -> real)
    requires 0.0 <= p.rating <= 5.0
    requires log10((p.reviewCount + 1) as real) >= 0.0
    ensures 0.0 <= ConcernTerm(p, concerns) <= ConcernWeight
    ensures 0.0 <= SkinTypeTerm(p, profile, analysis) <= SkinTypeWeight
    ensures 0.0 <= PreferenceTerm(p, profile) <= PreferenceWeight
    ensures 0.0 <= BudgetTerm(p, profile) <= BudgetWeight
    ensures 0.0 <= RatingTerm(p) <= RatingWeight
    ensures 0.0 <= PopularityTerm(p, log10) <= PopularityWeight
    ensures 0.0 <= IngredientTerm(p, concerns) <= IngredientWeight
  {
    IngredientHitsBound(concerns, p);
    if |concerns| > 0 {
      FractionBound(|Matched(concerns, p)|, |concerns|);
      FractionBound(IngredientHits(concerns, p), |concerns|);
    }
    if profile.Some? && Enabled(profile.value.preferences) > 0 {
      FractionBound(Met(profile.value.preferences, p), Enabled(profile.value.preferences));
    }
  }

  lemma FractionBound(a: nat, b: nat)
    requires a <= b && b > 0
    ensures 0.0 <= a as real / b as real <= 1.0
  {
  }

  /** With a rating in [0, 5] and a non-negative logarithm, the score is an
      integer in [0, 100]. */
  lemma {:induction false} ScoreBounds(p: Product, concerns: seq<SkinConcern>, profile: Option<UserProfile>,
                                       analysis: Option<SkinAnalysisResult>, log10: real -> real)
    requires 0.0 <= p.rating <= 5.0
    requires log10((p.reviewCount + 1) as real) >= 0.0
    ensures 0.0 <= RawScore(p, concerns, profile, analysis, log10) <= 100.0
    ensures 0 <= Score(p, concerns, profile, analysis, log10) <= 100
  {
    TermBounds(p, concerns, profile, analysis, log10);
    var x := RawScore(p, concerns, profile, analysis, log10);
    RoundMonotone(0.0, x);
    RoundMonotone(x, 100.0);
  }

  /** Without concerns neither the concern nor the ingredient term adds
      anything. */
  lemma NoConcernsNoConcernTerms(p: Product)
    ensures ConcernTerm(p, []) == 0.0 && IngredientTerm(p, []) == 0.0
  {
  }

  /** The analysis's skin type takes precedence over the profile's, and the
      skin-type term is all or nothing. */
  lemma SkinTypeTermCases(p: Product, profile: Option<UserProfile>, analysis: Option<SkinAnalysisResult>)
    ensures analysis.Some? ==> ScoringType(profile, analysis) == Some(analysis.value.skinTypeDetected)
    ensures analysis.None? && profile.Some? ==> ScoringType(profile, analysis) == Some(profile.value.skinType)
    ensures SkinTypeTerm(p, profile, analysis) == SkinTypeWeight
            <==> ScoringType(profile, analysis).Some? && ScoringType(profile, analysis).value in p.suitableSkinTypes
    ensures SkinTypeTerm(p, profile, analysis) in {0.0, SkinTypeWeight}
  {
  }

  /** No profile: nothing; no flag set: the neutral half; every set flag
      met: the full 15; none met: nothing. */
  lemma {:induction false} PreferenceTermCases(p: Product, profile: Option<UserProfile>)
    ensures profile.None? ==> PreferenceTerm(p, profile) == 0.0
    ensures profile.Some? && Enabled(profile.value.preferences) == 0
            ==> PreferenceTerm(p, profile) == 7.5
    ensures profile.Some? && Enabled(profile.value.preferences) > 0
            && Met(profile.value.preferences, p) == Enabled(profile.value.preferences)
            ==> PreferenceTerm(p, profile) == PreferenceWeight
    ensures profile.Some? && Enabled(profile.value.preferences) > 0 && Met(profile.value.preferences, p) == 0
            ==> PreferenceTerm(p, profile) == 0.0
  {
  }

  /** Within budget (always, for the luxury tier): 10; over budget: 3, so an
      over-budget product is penalised but never excluded; no profile: 5. */
  lemma BudgetTermCases(p: Product, profile: Option<UserProfile>)
    ensures profile.None? ==> BudgetTerm(p, profile) == 5.0
    ensures profile.Some? && profile.value.preferences.budgetRange == Luxury ==> BudgetTerm(p, profile) == 10.0
    ensures profile.Some? ==> (BudgetTerm(p, profile) == 10.0
                               <==> WithinBudget(p.price, profile.value.preferences.budgetRange))
    ensures profile.Some? && !WithinBudget(p.price, profile.value.preferences.budgetRange)
            ==> BudgetTerm(p, profile) == 3.0
    ensures BudgetTerm(p, profile) >= 3.0
  {
  }
}
