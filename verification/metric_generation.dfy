/** The stand-in metric extractor (src/ml/skinModel.ts:295-347): eight
    channels drawn from fixed base ranges, biased by the declared skin type and
    age bracket, then clamped to [0, 100] and rounded. The eight
    `Math.random()` draws are the parameter `draws`, in channel order. */
module MetricGeneration {
  import opened Types
  import opened JsMath

  /** Channel positions, in the order of the metrics record's keys. */
  const HydrationChannel := 0
  const OilinessChannel := 1
  const SensitivityChannel := 2
  const ElasticityChannel := 3
  const TextureChannel := 4
  const PigmentationChannel := 5
  const PoreSizeChannel := 6
  const RadianceChannel := 7

  predicate ValidDraws(draws: seq<real>) {
    |draws| == 8 && forall i :: 0 <= i < 8 ==> 0.0 <= draws[i] < 1.0
  }

  /** The unbiased channel values, before clamping. */
  function BaseChannels(draws: seq<real>): (c: seq<real>)
    requires |draws| == 8
    ensures |c| == 8
  {
    [ 45.0 + draws[0] * 40.0,
      25.0 + draws[1] * 50.0,
      15.0 + draws[2] * 50.0,
      50.0 + draws[3] * 40.0,
      40.0 + draws[4] * 45.0,
      45.0 + draws[5] * 45.0,
      40.0 + draws[6] * 45.0,
      35.0 + draws[7] * 50.0 ]
  }

  /** The skin-type adjustment of the `switch`. */
  function SkinTypeBias(c: seq<real>, t: SkinType): (b: seq<real>)
    requires |c| == 8
    ensures |b| == 8
  {
    match t
    case Oily =>
      c[OilinessChannel := Min(100.0, c[OilinessChannel] + 20.0)]
       [PoreSizeChannel := Max(0.0, c[PoreSizeChannel] - 15.0)]
    case Dry =>
      c[HydrationChannel := Max(0.0, c[HydrationChannel] - 20.0)]
       [OilinessChannel := Max(0.0, c[OilinessChannel] - 15.0)]
    case Sensitive =>
      c[SensitivityChannel := Min(100.0, c[SensitivityChannel] + 25.0)]
    case Combination =>
      c[OilinessChannel := Min(100.0, c[OilinessChannel] + 10.0)]
       [HydrationChannel := Max(0.0, c[HydrationChannel] - 10.0)]
    case Normal => c
  }

  /** The age-bracket adjustment. */
  function AgeBias(c: seq<real>, a: AgeRange): (b: seq<real>)
    requires |c| == 8
    ensures |b| == 8
  {
    if a == Age18To22 then
      c[ElasticityChannel := Min(100.0, c[ElasticityChannel] + 15.0)]
       [OilinessChannel := Min(100.0, c[OilinessChannel] + 10.0)]
    else if a == Age33To35 || a == Age36Plus then
      c[ElasticityChannel := Max(0.0, c[ElasticityChannel] - 10.0)]
    else c
  }

  /** The channels after the profile adjustments, before clamping. */
  function Biased(draws: seq<real>, profile: Option<UserProfile>): (c: seq<real>)
    requires |draws| == 8
    ensures |c| == 8
  {
    match profile
    case None => BaseChannels(draws)
    case Some(p) => AgeBias(SkinTypeBias(BaseChannels(draws), p.skinType), p.age)
  }

  /** The channel value stored after the final clamp-and-round. */
  function Clamped(c: seq<real>, k: nat): (v: int)
    requires k < |c|
    ensures InRange(v)
  {
    ClampRound(c[k], 0, 100)
  }

  /** What `generateMetricsFromImage` returns. */
  function Generated(draws: seq<real>, profile: Option<UserProfile>): SkinMetrics
    requires |draws| == 8
  {
    var c := Biased(draws, profile);
    SkinMetrics(Clamped(c, 0), Clamped(c, 1), Clamped(c, 2), Clamped(c, 3),
                Clamped(c, 4), Clamped(c, 5), Clamped(c, 6), Clamped(c, 7))
  }

  /** `generateMetricsFromImage`: the record is built, adjusted field by field
      and then clamped key by key; every channel ends up an integer in
      [0, 100] whatever the draws and the profile. */
  method GenerateMetrics(draws: seq<real>, profile: Option<UserProfile>) returns (m: SkinMetrics)
    requires |draws| == 8
    ensures MetricsInRange(m)
    ensures m == Generated(draws, profile)
  {
    var c := BaseChannels(draws);
    if profile.Some? {
      var p := profile.value;
      match p.skinType {
        case Oily =>
          c := c[OilinessChannel := Min(100.0, c[OilinessChannel] + 20.0)];
          c := c[PoreSizeChannel := Max(0.0, c[PoreSizeChannel] - 15.0)];
        case Dry =>
          c := c[HydrationChannel := Max(0.0, c[HydrationChannel] - 20.0)];
          c := c[OilinessChannel := Max(0.0, c[OilinessChannel] - 15.0)];
        case Sensitive =>
          c := c[SensitivityChannel := Min(100.0, c[SensitivityChannel] + 25.0)];
        case Combination =>
          c := c[OilinessChannel := Min(100.0, c[OilinessChannel] + 10.0)];
          c := c[HydrationChannel := Max(0.0, c[HydrationChannel] - 10.0)];
        case Normal =>
      }
      if p.age == Age18To22 {
        c := c[ElasticityChannel := Min(100.0, c[ElasticityChannel] + 15.0)];
        c := c[OilinessChannel := Min(100.0, c[OilinessChannel] + 10.0)];
      } else if p.age == Age33To35 || p.age == Age36Plus {
        c := c[ElasticityChannel := Max(0.0, c[ElasticityChannel] - 10.0)];
      }
    }
    ghost var adjusted := c;
    assert adjusted == Biased(draws, profile);
    for k := 0 to 8
      invariant |c| == 8
      invariant forall j :: 0 <= j < k ==> c[j] == Clamped(adjusted, j) as real
      invariant forall j :: k <= j < 8 ==> c[j] == adjusted[j]
    {
      c := c[k := Round(Max(0.0, Min(100.0, c[k]))) as real];
    }
    m := SkinMetrics(c[0].Floor, c[1].Floor, c[2].Floor, c[3].Floor,
                     c[4].Floor, c[5].Floor, c[6].Floor, c[7].Floor);
  }

  /** Without a profile every channel stays in its base range: hydration
      45-85, oiliness 25-75, sensitivity 15-65, elasticity 50-90, texture
      40-85, pigmentation 45-90, pore size 40-85, radiance 35-85. */
  lemma {:induction false} UnbiasedRanges(draws: seq<real>)
    requires ValidDraws(draws)
    ensures var m := Generated(draws, None);
      && 45 <= m.hydration <= 85 && 25 <= m.oiliness <= 75
      && 15 <= m.sensitivity <= 65 && 50 <= m.elasticity <= 90
      && 40 <= m.texture <= 85 && 45 <= m.pigmentation <= 90
      && 40 <= m.poreSize <= 85 && 35 <= m.radiance <= 85
  {
    var c := BaseChannels(draws);
    forall k | 0 <= k < 8 ensures 0.0 <= draws[k] < 1.0 { }
    ScaledBelow(draws[0], 40.0); ScaledBelow(draws[1], 50.0);
    ScaledBelow(draws[2], 50.0); ScaledBelow(draws[3], 40.0);
    ScaledBelow(draws[4], 45.0); ScaledBelow(draws[5], 45.0);
    ScaledBelow(draws[6], 45.0); ScaledBelow(draws[7], 50.0);
  }

  lemma ScaledBelow(r: real, w: real)
    requires 0.0 <= r < 1.0 && 0.0 < w
    ensures 0.0 <= r * w < w
  {
  }

  lemma ClampedMonotone(c: seq<real>, d: seq<real>, k: nat)
    requires k < |c| && k < |d| && c[k] <= d[k]
    ensures Clamped(c, k) <= Clamped(d, k)
  {
    RoundMonotone(Max(0.0, Min(100.0, c[k])), Max(0.0, Min(100.0, d[k])));
  }

  /** The declared skin type pushes its channels the stated way compared with
      the same draws and no profile: oily raises oiliness and lowers pore
      size, dry lowers hydration, sensitive raises sensitivity, combination
      raises oiliness and lowers hydration; an 18-22 bracket raises elasticity
      and a 33-35 or 36+ bracket lowers it. */
  lemma {:induction false} BiasDirections(draws: seq<real>, p: UserProfile)
    requires ValidDraws(draws)
    ensures var m, m0 := Generated(draws, Some(p)), Generated(draws, None);
      && (p.skinType == Oily ==> m.oiliness >= m0.oiliness && m.poreSize <= m0.poreSize)
      && (p.skinType == Dry ==> m.hydration <= m0.hydration)
      && (p.skinType == Sensitive ==> m.sensitivity >= m0.sensitivity)
      && (p.skinType == Combination ==> m.oiliness >= m0.oiliness && m.hydration <= m0.hydration)
      && (p.age == Age18To22 ==> m.elasticity >= m0.elasticity)
      && (p.age in {Age33To35, Age36Plus} ==> m.elasticity <= m0.elasticity)
  {
    var c, c0 := Biased(draws, Some(p)), Biased(draws, None);
    forall k | 0 <= k < 8 ensures 0.0 <= draws[k] < 1.0 { }
    ScaledBelow(draws[0], 40.0); ScaledBelow(draws[1], 50.0);
    ScaledBelow(draws[2], 50.0); ScaledBelow(draws[3], 40.0);
    ScaledBelow(draws[6], 45.0);
    if p.skinType == Oily {
      ClampedMonotone(c0, c, OilinessChannel);
      ClampedMonotone(c, c0, PoreSizeChannel);
    } else if p.skinType == Dry {
      ClampedMonotone(c, c0, HydrationChannel);
    } else if p.skinType == Sensitive {
      ClampedMonotone(c0, c, SensitivityChannel);
    } else if p.skinType == Combination {
      ClampedMonotone(c0, c, OilinessChannel);
      ClampedMonotone(c, c0, HydrationChannel);
    }
    if p.age == Age18To22 {
      ClampedMonotone(c0, c, ElasticityChannel);
    } else if p.age in {Age33To35, Age36Plus} {
      ClampedMonotone(c, c0, ElasticityChannel);
    }
  }
}
