/** The deterministic routine template (src/ml/skinModel.ts:378-523): a
    five-step morning, a six-step evening and three weekly treatments, whose
    texts branch on the skin type and on which concern kinds are present. */
module RoutineGeneration {
  import opened Types

  /** The sentence each phrase stands for, as the app displays it. */
  function Text(p: Phrase): string {
    match p
    case FoamingCleanser => "Gentle foaming cleanser"
    case CreamCleanser => "Cream or oil-based cleanser"
    case GelCleanser => "Gentle gel cleanser"
    case CleanserTip => "Use lukewarm water. Massage in circular motions."
    case HydratingToner => "Hydrating toner or essence"
    case TonerTip => "Pat into skin with hands rather than cotton pads to avoid waste."
    case VitaminCSerum => "Vitamin C serum (15-20%)"
    case HyaluronicSerum => "Hyaluronic acid serum"
    case NiacinamideSerum => "Niacinamide serum (5-10%)"
    case MorningSerumTip => "Apply to slightly damp skin for better absorption."
    case GelMoisturizer => "Lightweight gel moisturizer"
    case CeramideMoisturizer => "Rich cream moisturizer with ceramides"
    case LotionMoisturizer => "Balanced lotion moisturizer"
    case MoisturizerTip => "Dont forget your neck and decolletage!"
    case SunscreenText => "Broad-spectrum SPF 50+ sunscreen"
    case SunscreenTip => "Apply generously — most people use far too little. Reapply every 2 hours if outdoors."
    case FirstCleanse => "Oil cleanser or micellar water (first cleanse)"
    case FirstCleanseTip => "This removes makeup and SPF. Essential even if you dont wear makeup."
    case FoamingSecondCleanse => "Gentle foaming cleanser (second cleanse)"
    case GelSecondCleanse => "Gentle gel or cream cleanser (second cleanse)"
    case SecondCleanseTip => "Double cleansing ensures your skin is truly clean."
    case EveningToner => "Hydrating toner"
    case EveningTonerTip => "Preps skin to absorb your treatment products."
    case RetinolSerum => "Retinol serum (start with 0.3%, work up)"
    case AcneTreatment => "Salicylic acid or benzoyl peroxide treatment"
    case AzelaicSerum => "Azelaic acid or alpha arbutin serum"
    case PeptideSerum => "Peptide serum"
    case EveningSerumTip => "If using retinol, start 2-3x per week and build up tolerance."
    case EyeCreamText => "Hydrating eye cream"
    case EyeCreamTip => "Use your ring finger — it applies the least pressure."
    case NightCream => "Rich night cream or sleeping mask"
    case NightMoisturizer => "Night moisturizer"
    case NightTip => "Night is when your skin repairs — dont skip this step."
    case Minute => "60 seconds"
    case HalfMinute => "30 seconds"
    case QuarterMinute => "15 seconds"
    case Exfoliation => "Chemical Exfoliation"
    case ExfoliationFrequency => "2-3x per week"
    case BhaExfoliant => "BHA (salicylic acid) exfoliant to unclog pores"
    case AhaExfoliant => "AHA (glycolic/lactic acid) exfoliant for cell turnover and glow"
    case FaceMask => "Face Mask"
    case MaskFrequency => "1-2x per week"
    case HydratingMask => "Hydrating sheet mask or overnight sleeping mask"
    case ClayMask => "Clay mask to absorb excess oil and minimize pores"
    case BrighteningMask => "Brightening or hydrating mask for overall skin health"
    case FacialMassage => "Facial Massage"
    case MassageFrequency => "3-5x per week"
    case MassageText => "Gua sha or facial roller to boost circulation and reduce puffiness."
  }

  function Step(order: int, category: ProductCategory, description: Phrase,
                duration: Phrase, tips: Phrase, isOptional: bool): RoutineStep
  {
    RoutineStep(order, category, None, description, duration, tips, isOptional)
  }

  function MorningSerum(concerns: seq<DetectedConcern>): Phrase {
    if HasKind(concerns, DarkSpots) || HasKind(concerns, Dullness) then VitaminCSerum
    else if HasKind(concerns, Dryness) then HyaluronicSerum
    else NiacinamideSerum
  }

  function EveningSerum(concerns: seq<DetectedConcern>): Phrase {
    if HasKind(concerns, FineLines) || HasKind(concerns, Wrinkles) then RetinolSerum
    else if HasKind(concerns, Acne) then AcneTreatment
    else if HasKind(concerns, DarkSpots) then AzelaicSerum
    else PeptideSerum
  }

  function Morning(concerns: seq<DetectedConcern>, t: SkinType): seq<RoutineStep> {
    [ Step(1, Cleanser,
           if t == Oily then FoamingCleanser else if t == Dry then CreamCleanser else GelCleanser,
           Minute, CleanserTip, false),
      Step(2, Toner, HydratingToner, HalfMinute, TonerTip, false),
      Step(3, Serum, MorningSerum(concerns), HalfMinute, MorningSerumTip, false),
      Step(4, Moisturizer,
           if t == Oily then GelMoisturizer else if t == Dry then CeramideMoisturizer else LotionMoisturizer,
           HalfMinute, MoisturizerTip, false),
      Step(5, Sunscreen, SunscreenText, HalfMinute, SunscreenTip, false) ]
  }

  function Evening(concerns: seq<DetectedConcern>, t: SkinType): seq<RoutineStep> {
    [ Step(1, Cleanser, FirstCleanse, Minute, FirstCleanseTip, false),
      Step(2, Cleanser, if t == Oily then FoamingSecondCleanse else GelSecondCleanse,
           Minute, SecondCleanseTip, false),
      Step(3, Toner, EveningToner, HalfMinute, EveningTonerTip, false),
      Step(4, Serum, EveningSerum(concerns), HalfMinute, EveningSerumTip, false),
      Step(5, EyeCream, EyeCreamText, QuarterMinute, EyeCreamTip, true),
      Step(6, Moisturizer, if t == Dry then NightCream else NightMoisturizer,
           HalfMinute, NightTip, false) ]
  }

  function Weekly(concerns: seq<DetectedConcern>): seq<WeeklyTreatment> {
    [ WeeklyTreatment(Exfoliation, ExfoliationFrequency,
        if HasKind(concerns, Acne) || HasKind(concerns, Oiliness) then BhaExfoliant else AhaExfoliant,
        None),
      WeeklyTreatment(FaceMask, MaskFrequency,
        if HasKind(concerns, Dryness) then HydratingMask
        else if HasKind(concerns, Oiliness) then ClayMask
        else BrighteningMask,
        None),
      WeeklyTreatment(FacialMassage, MassageFrequency, MassageText, None) ]
  }

  /** `generateRoutine`. */
  function GenerateRoutine(concerns: seq<DetectedConcern>, t: SkinType): RoutineSuggestion {
    RoutineSuggestion(Morning(concerns, t), Evening(concerns, t), Weekly(concerns))
  }

  /** The morning template: five steps numbered 1-5, none optional, the
      serum third and the sunscreen last. */
  lemma MorningShape(concerns: seq<DetectedConcern>, t: SkinType)
    ensures var m := Morning(concerns, t);
      && |m| == 5
      && (forall i :: 0 <= i < 5 ==> m[i].order == i + 1 && !m[i].isOptional)
      && m[2].category == Serum && m[2].description == MorningSerum(concerns)
      && m[4].category == Sunscreen
  {
  }

  /** The evening template: six steps numbered 1-6, the serum fourth, and
      the eye cream as its one optional step. */
  lemma EveningShape(concerns: seq<DetectedConcern>, t: SkinType)
    ensures var e := Evening(concerns, t);
      && |e| == 6
      && (forall i :: 0 <= i < 6 ==> e[i].order == i + 1)
      && (forall i :: 0 <= i < 6 ==> (e[i].isOptional <==> e[i].category == EyeCream))
      && e[3].category == Serum && e[3].description == EveningSerum(concerns)
  {
  }

  /** The morning serum follows its priority list: dark spots or dullness
      beat dryness, and niacinamide is the fallback. */
  lemma MorningSerumPriority(concerns: seq<DetectedConcern>)
    ensures MorningSerum(concerns) == VitaminCSerum
            <==> HasKind(concerns, DarkSpots) || HasKind(concerns, Dullness)
    ensures MorningSerum(concerns) == HyaluronicSerum
            <==> HasKind(concerns, Dryness) && !HasKind(concerns, DarkSpots) && !HasKind(concerns, Dullness)
  {
  }

  /** The evening serum follows its priority list: fine lines or wrinkles
      beat acne, which beats dark spots, and a peptide serum is the
      fallback. */
  lemma EveningSerumPriority(concerns: seq<DetectedConcern>)
    ensures EveningSerum(concerns) == RetinolSerum
            <==> HasKind(concerns, FineLines) || HasKind(concerns, Wrinkles)
    ensures EveningSerum(concerns) == AcneTreatment
            <==> !HasKind(concerns, FineLines) && !HasKind(concerns, Wrinkles) && HasKind(concerns, Acne)
    ensures EveningSerum(concerns) == AzelaicSerum
            <==> !HasKind(concerns, FineLines) && !HasKind(concerns, Wrinkles)
                 && !HasKind(concerns, Acne) && HasKind(concerns, DarkSpots)
    ensures EveningSerum(concerns) == PeptideSerum
            <==> !HasKind(concerns, FineLines) && !HasKind(concerns, Wrinkles)
                 && !HasKind(concerns, Acne) && !HasKind(concerns, DarkSpots)
  {
  }

  /** The weekly plan: exfoliation, a mask and a massage, in that order;
      BHA exfoliation exactly for acne or oiliness, a hydrating mask for
      dryness, a clay mask for oiliness without dryness, and no product
      attached to any of them. */
  lemma WeeklyShape(concerns: seq<DetectedConcern>)
    ensures var w := Weekly(concerns);
      && |w| == 3
      && w[0].name == Exfoliation && w[1].name == FaceMask && w[2].name == FacialMassage
      && w[0].frequency == ExfoliationFrequency && w[1].frequency == MaskFrequency
      && w[2].frequency == MassageFrequency
      && (w[0].description == BhaExfoliant <==> HasKind(concerns, Acne) || HasKind(concerns, Oiliness))
      && (w[0].description != BhaExfoliant ==> w[0].description == AhaExfoliant)
      && (w[1].description == HydratingMask <==> HasKind(concerns, Dryness))
      && (w[1].description == ClayMask <==> !HasKind(concerns, Dryness) && HasKind(concerns, Oiliness))
      && (w[1].description == BrighteningMask
          <==> !HasKind(concerns, Dryness) && !HasKind(concerns, Oiliness))
      && w[2].description == MassageText
      && (forall i :: 0 <= i < 3 ==> w[i].product.None?)
  {
  }

  /** The routine depends on the concern list only through which kinds
      occur in it, so reordering or permuting the list does not change it. */
  lemma {:induction false} DependsOnlyOnKinds(a: seq<DetectedConcern>, b: seq<DetectedConcern>, t: SkinType)
    requires forall c :: HasKind(a, c) <==> HasKind(b, c)
    ensures GenerateRoutine(a, t) == GenerateRoutine(b, t)
  {
    assert MorningSerum(a) == MorningSerum(b);
    assert EveningSerum(a) == EveningSerum(b);
    assert Weekly(a) == Weekly(b);
  }

  /** A permutation has the same kinds. */
  lemma PermutationSameKinds(a: seq<DetectedConcern>, b: seq<DetectedConcern>)
    requires multiset(a) == multiset(b)
    ensures forall c :: HasKind(a, c) <==> HasKind(b, c)
  {
    forall c ensures HasKind(a, c) ==> HasKind(b, c) {
      if HasKind(a, c) {
        var i :| 0 <= i < |a| && a[i].kind == c;
        assert a[i] in multiset(b);
        var j :| 0 <= j < |b| && b[j] == a[i];
      }
    }
    forall c ensures HasKind(b, c) ==> HasKind(a, c) {
      if HasKind(b, c) {
        var i :| 0 <= i < |b| && b[i].kind == c;
        assert b[i] in multiset(a);
        var j :| 0 <= j < |a| && a[j] == b[i];
      }
    }
  }
}
