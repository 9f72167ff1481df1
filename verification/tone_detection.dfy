/** Skin-tone lookup by average lightness over a table of half-open bands
    (src/ml/skinModel.ts:63-90). */
module ToneDetection {
  import opened Types

  datatype Undertone = Warm | Cool | Neutral

  datatype SkinToneProfile = SkinToneProfile(
    tone: SkinTone,
    lightnessLo: real,
    lightnessHi: real,
    undertone: Undertone,
    fitzpatrickScale: int)

  /** The band [lightnessLo, lightnessHi) contains `l`. */
  predicate InBand(p: SkinToneProfile, l: real) {
    p.lightnessLo <= l < p.lightnessHi
  }

  const SkinToneProfiles: seq<SkinToneProfile> := [
    SkinToneProfile(Fair, 0.78, 1.0, Cool, 1),
    SkinToneProfile(Light, 0.68, 0.78, Neutral, 2),
    SkinToneProfile(Medium, 0.55, 0.68, Warm, 3),
    SkinToneProfile(Olive, 0.45, 0.55, Warm, 3),
    SkinToneProfile(Tan, 0.35, 0.45, Warm, 4),
    SkinToneProfile(Dark, 0.22, 0.35, Warm, 5),
    SkinToneProfile(Deep, 0.0, 0.22, Neutral, 6)
  ]

  /** The first profile of `table` whose band contains `l`, if any. */
  function FirstBand(table: seq<SkinToneProfile>, l: real): (r: Option<nat>)
    ensures r.Some? ==> r.value < |table| && InBand(table[r.value], l)
    ensures r.Some? ==> forall k :: 0 <= k < r.value ==> !InBand(table[k], l)
    ensures r.None? ==> forall k :: 0 <= k < |table| ==> !InBand(table[k], l)
  {
    if table == [] then None
    else if InBand(table[0], l) then Some(0)
    else match FirstBand(table[1..], l)
      case None => None
      case Some(k) => Some(k + 1)
  }

  /** `detectSkinTone`: the first band containing the lightness, or the
      medium profile when none does. */
  function DetectSkinTone(l: real): (p: SkinToneProfile)
    ensures p in SkinToneProfiles
    ensures (exists k :: 0 <= k < |SkinToneProfiles| && InBand(SkinToneProfiles[k], l))
            ==> InBand(p, l)
    ensures (forall k :: 0 <= k < |SkinToneProfiles| ==> !InBand(SkinToneProfiles[k], l))
            ==> p == SkinToneProfiles[2]
  {
    match FirstBand(SkinToneProfiles, l)
    case Some(k) => SkinToneProfiles[k]
    case None => SkinToneProfiles[2]
  }

  /** The lower end of a tone's band: what `analyzeSkin` feeds to the lookup
      when the profile declares a tone (the `find` always succeeds because
      every tone has a row). */
  function DeclaredLightness(t: SkinTone): (l: real)
    ensures exists k :: 0 <= k < |SkinToneProfiles|
                        && SkinToneProfiles[k].tone == t && SkinToneProfiles[k].lightnessLo == l
  {
    match t
    case Fair => assert SkinToneProfiles[0].tone == t; 0.78
    case Light => assert SkinToneProfiles[1].tone == t; 0.68
    case Medium => assert SkinToneProfiles[2].tone == t; 0.55
    case Olive => assert SkinToneProfiles[3].tone == t; 0.45
    case Tan => assert SkinToneProfiles[4].tone == t; 0.35
    case Dark => assert SkinToneProfiles[5].tone == t; 0.22
    case Deep => assert SkinToneProfiles[6].tone == t; 0.0
  }

  /** The bands are contiguous, listed from the lightest down, and together
      cover [0, 1). */
  lemma BandsPartition()
    ensures forall k :: 0 <= k < |SkinToneProfiles| - 1
              ==> SkinToneProfiles[k + 1].lightnessHi == SkinToneProfiles[k].lightnessLo
    ensures SkinToneProfiles[0].lightnessHi == 1.0
    ensures SkinToneProfiles[|SkinToneProfiles| - 1].lightnessLo == 0.0
    ensures forall k :: 0 <= k < |SkinToneProfiles|
              ==> SkinToneProfiles[k].lightnessLo < SkinToneProfiles[k].lightnessHi
  {
  }

  /** Every lightness in [0, 1) falls in exactly one band, and the lookup
      returns that band. */
  lemma {:induction false} LookupInUnitInterval(l: real)
    requires 0.0 <= l < 1.0
    ensures InBand(DetectSkinTone(l), l)
    ensures forall k :: 0 <= k < |SkinToneProfiles| && InBand(SkinToneProfiles[k], l)
              ==> SkinToneProfiles[k] == DetectSkinTone(l)
  {
    var t := SkinToneProfiles;
    if l >= 0.78 { assert InBand(t[0], l); }
    else if l >= 0.68 { assert InBand(t[1], l); }
    else if l >= 0.55 { assert InBand(t[2], l); }
    else if l >= 0.45 { assert InBand(t[3], l); }
    else if l >= 0.35 { assert InBand(t[4], l); }
    else if l >= 0.22 { assert InBand(t[5], l); }
    else { assert InBand(t[6], l); }
  }

  /** A lightness of exactly 1.0 is outside every half-open band and falls
      back to the medium profile. */
  lemma FullLightnessIsMedium()
    ensures DetectSkinTone(1.0).tone == Medium
  {
    assert forall k :: 0 <= k < |SkinToneProfiles| ==> !InBand(SkinToneProfiles[k], 1.0);
  }

  /** Feeding a declared tone's lower bound back into the lookup returns the
      same tone, so a declared tone always wins. */
  lemma DeclaredToneRoundTrip(t: SkinTone)
    ensures DetectSkinTone(DeclaredLightness(t)).tone == t
  {
    LookupInUnitInterval(DeclaredLightness(t));
  }

  /** The synthetic lightness `0.3 + r * 0.5` never reaches the deep band. */
  lemma SyntheticLightnessNeverDeep(r: real)
    requires 0.0 <= r < 1.0
    ensures DetectSkinTone(0.3 + r * 0.5).tone != Deep
  {
    LookupInUnitInterval(0.3 + r * 0.5);
  }
}
