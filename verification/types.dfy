/** The records and enumerations shared by the analysis engine, the
    recommendation engine and the app store (src/types/index.ts). Dates are
    opaque integers supplied by the caller; string unions are enumerations. */
module Types {

  datatype Option<T> = None | Some(value: T) {
    function GetOr(default: T): T {
      match this
      case Some(v) => v
      case None => default
    }
  }

  datatype SkinType = Oily | Dry | Combination | Normal | Sensitive
  datatype SkinTone = Fair | Light | Medium | Olive | Tan | Dark | Deep
  datatype AgeRange = Age18To22 | Age23To27 | Age28To32 | Age33To35 | Age36Plus
  datatype Gender = Female | Male | NonBinary | PreferNotToSay

  datatype StylePreference =
    | Minimal | GlassSkin | NaturalGlow | FullCoverage | Dewy
    | Matte | KBeauty | CleanBeauty | AntiAging | AcneFighting

  /** The budget tier of a user and the price tier of a product. */
  datatype PriceRange = Budget | MidRange | Premium | Luxury

  datatype UserPreferences = UserPreferences(
    budgetRange: PriceRange,
    preferNatural: bool,
    preferFragranceFree: bool,
    preferCrueltyFree: bool,
    preferVegan: bool,
    stylePreferences: seq<StylePreference>,
    skinGoals: seq<string>)

  datatype UserProfile = UserProfile(
    id: string,
    name: string,
    age: AgeRange,
    gender: Gender,
    skinType: SkinType,
    skinTone: SkinTone,
    concerns: seq<SkinConcern>,
    allergies: seq<string>,
    preferences: UserPreferences,
    createdAt: int,
    updatedAt: int)

  datatype SkinConcern =
    | Acne | DarkSpots | FineLines | Wrinkles | LargePores | UnevenTone
    | Dullness | Dryness | Oiliness | Redness | Sensitivity | DarkCircles
    | Hyperpigmentation | Texture | Blackheads | Whiteheads | SunDamage
    | Scarring | Eczema | Rosacea | Melasma

  datatype Severity = Mild | Moderate | Severe

  /** The eight measurement channels, each meant to lie in [0,100]. */
  datatype SkinMetrics = SkinMetrics(
    hydration: int,
    oiliness: int,
    sensitivity: int,
    elasticity: int,
    texture: int,
    pigmentation: int,
    poreSize: int,
    radiance: int)

  predicate InRange(x: int) { 0 <= x <= 100 }

  predicate MetricsInRange(m: SkinMetrics) {
    && InRange(m.hydration) && InRange(m.oiliness) && InRange(m.sensitivity)
    && InRange(m.elasticity) && InRange(m.texture) && InRange(m.pigmentation)
    && InRange(m.poreSize) && InRange(m.radiance)
  }

  /** The ten threshold rules of the concern detector. */
  datatype ConcernRule =
    | AcneRule | DarkSpotsRule | FineLinesRule | LargePoresRule | DullnessRule
    | DrynessRule | OilinessRule | RednessRule | UnevenToneRule | DarkCirclesRule

  /** Which fixed texts a detected concern carries: those of the rule that
      fired, at the severity it fired with, or the template for a
      self-reported concern. `SkinAnalysis.DescriptionText`, `AreaText` and
      `AdviceText` spell them out. */
  datatype Wording =
    | RuleWording(rule: ConcernRule, severity: Severity)
    | ReportedWording(concern: SkinConcern)

  /** A detected concern; `wording` stands for its description, affected
      area and recommendation texts. */
  datatype DetectedConcern = DetectedConcern(
    kind: SkinConcern,
    severity: Severity,
    confidence: real,
    wording: Wording)

  datatype ProductCategory =
    | Cleanser | Toner | Serum | Moisturizer | Sunscreen | EyeCream | Mask
    | Exfoliant | Oil | SpotTreatment | Essence | Mist | LipCare | Retinol | VitaminC

  datatype Product = Product(
    id: string,
    name: string,
    brand: string,
    category: ProductCategory,
    description: string,
    imageUrl: string,
    price: real,
    currency: string,
    priceRange: PriceRange,
    rating: real,
    reviewCount: nat,
    ingredients: seq<string>,
    keyIngredients: seq<string>,
    targetConcerns: seq<SkinConcern>,
    suitableSkinTypes: seq<SkinType>,
    isNatural: bool,
    isCrueltyFree: bool,
    isVegan: bool,
    isFragranceFree: bool,
    howToUse: string,
    size: string)

  /** Why a product was recommended. The sentence each one renders to is not
      modelled; the constructor and its payload say which sentence it is. */
  datatype MatchReason =
    | TargetsConcerns(matched: seq<SkinConcern>)
    | ContainsHero(ingredients: seq<string>, concern: SkinConcern)
    | SuitableFor(skinType: SkinType)
    | HighlyRated(rating: real, reviewCount: nat)
    | CrueltyFree
    | Vegan

  datatype ProductRecommendation = ProductRecommendation(
    product: Product,
    matchScore: int,
    matchReasons: seq<MatchReason>,
    alternativeIds: seq<string>)

  /** The fixed sentences of the routine template, one constructor per
      sentence; `RoutineGeneration.Text` spells each one out. */
  datatype Phrase =
    // morning steps
    | FoamingCleanser | CreamCleanser | GelCleanser | CleanserTip
    | HydratingToner | TonerTip
    | VitaminCSerum | HyaluronicSerum | NiacinamideSerum | MorningSerumTip
    | GelMoisturizer | CeramideMoisturizer | LotionMoisturizer | MoisturizerTip
    | SunscreenText | SunscreenTip
    // evening steps
    | FirstCleanse | FirstCleanseTip | FoamingSecondCleanse | GelSecondCleanse | SecondCleanseTip
    | EveningToner | EveningTonerTip
    | RetinolSerum | AcneTreatment | AzelaicSerum | PeptideSerum | EveningSerumTip
    | EyeCreamText | EyeCreamTip
    | NightCream | NightMoisturizer | NightTip
    // durations
    | Minute | HalfMinute | QuarterMinute
    // weekly treatments
    | Exfoliation | ExfoliationFrequency | BhaExfoliant | AhaExfoliant
    | FaceMask | MaskFrequency | HydratingMask | ClayMask | BrighteningMask
    | FacialMassage | MassageFrequency | MassageText

  datatype RoutineStep = RoutineStep(
    order: int,
    category: ProductCategory,
    product: Option<Product>,
    description: Phrase,
    duration: Phrase,
    tips: Phrase,
    isOptional: bool)

  datatype WeeklyTreatment = WeeklyTreatment(
    name: Phrase,
    frequency: Phrase,
    description: Phrase,
    product: Option<Product>)

  datatype RoutineSuggestion = RoutineSuggestion(
    morning: seq<RoutineStep>,
    evening: seq<RoutineStep>,
    weekly: seq<WeeklyTreatment>)

  /** The top-level advice lines of an analysis, one constructor per line. */
  datatype Tip =
    | BoostHydration
    | AddVitaminC
    | NeverSkipSunscreen
    | AvoidTouchingFace
    | PatchTest
    | StartRetinol
    | ConsistencyOverCost

  datatype SkinAnalysisResult = SkinAnalysisResult(
    id: string,
    imageUri: string,
    timestamp: int,
    overallScore: int,
    skinToneDetected: SkinTone,
    skinTypeDetected: SkinType,
    concerns: seq<DetectedConcern>,
    metrics: SkinMetrics,
    recommendations: seq<Tip>,
    routineSuggestion: RoutineSuggestion)

  datatype SavedRoutine = SavedRoutine(
    id: string,
    name: string,
    createdAt: int,
    routine: RoutineSuggestion,
    isActive: bool)

  datatype Mood = Great | Good | Okay | Bad

  datatype SkinJournalEntry = SkinJournalEntry(
    id: string,
    date: int,
    imageUri: Option<string>,
    metrics: Option<SkinMetrics>,
    notes: string,
    mood: Mood,
    productsUsed: seq<string>,
    concerns: seq<SkinConcern>)

  /** True when some entry of `concerns` has kind `c` (the source's
      `concerns.some((x) => x.type === c)`). */
  predicate HasKind(concerns: seq<DetectedConcern>, c: SkinConcern) {
    exists i :: 0 <= i < |concerns| && concerns[i].kind == c
  }
}
