/** `generateMatchReasons` (src/services/recommendations.ts:157-197): why a
    product suits the user, as a list of reasons pushed in a fixed order and
    cut to its first four. The sentence each reason renders to is not
    modelled; the `MatchReason` constructor and its payload stand for it. */
module MatchReasons {
  import opened Types
  import opened JsMath
  import opened ProductScoring

  /** `keyIngredients.filter(...)`: the key ingredients, in product order,
      that mention a hero ingredient of `c`. */
  function Treating(keyIngredients: seq<string>, c: SkinConcern): seq<string> {
    Keep(keyIngredients, ki => Treats(ki, c))
  }

  /** The reason pushed for one concern: the treating ingredients, if any. */
  function HeroReason(p: Product, c: SkinConcern): seq<MatchReason> {
    var matched := Treating(p.keyIngredients, c);
    Opt(|matched| > 0, ContainsHero(matched, c))
  }

  /** The reasons pushed by the loop over the concerns, in concern order. */
  function HeroReasons(p: Product, concerns: seq<SkinConcern>): seq<MatchReason> {
    if concerns == [] then []
    else HeroReasons(p, concerns[..|concerns| - 1]) + HeroReason(p, concerns[|concerns| - 1])
  }

  /** The skin-type reason: from the profile's own type only. */
  function TypeReason(p: Product, profile: Option<UserProfile>): seq<MatchReason> {
    match profile
    case None => []
    case Some(u) => Opt(u.skinType in p.suitableSkinTypes, SuitableFor(u.skinType))
  }

  /** The user asks for cruelty-free products and this one is. */
  predicate CrueltyFreeMet(p: Product, profile: Option<UserProfile>) {
    profile.Some? && profile.value.preferences.preferCrueltyFree && p.isCrueltyFree
  }

  /** The user asks for vegan products and this one is. */
  predicate VeganMet(p: Product, profile: Option<UserProfile>) {
    profile.Some? && profile.value.preferences.preferVegan && p.isVegan
  }

  /** Every reason pushed, in push order, before the cap. */
  function AllReasons(p: Product, concerns: seq<SkinConcern>, profile: Option<UserProfile>): seq<MatchReason> {
    var matched := Matched(concerns, p);
    Opt(|matched| > 0, TargetsConcerns(matched))
    + HeroReasons(p, concerns)
    + TypeReason(p, profile)
    + Opt(p.rating >= 4.5, HighlyRated(p.rating, p.reviewCount))
    + Opt(CrueltyFreeMet(p, profile), CrueltyFree)
    + Opt(VeganMet(p, profile), Vegan)
  }

  /** What `generateMatchReasons` returns: the first four reasons. */
  function Reasons(p: Product, concerns: seq<SkinConcern>, profile: Option<UserProfile>): seq<MatchReason> {
    Take(AllReasons(p, concerns, profile), 4)
  }

  /** The loop over the concerns: pushes one reason per concern that some
      key ingredient treats. */
  method PushHeroReasons(p: Product, concerns: seq<SkinConcern>, reasons: seq<MatchReason>)
    returns (pushed: seq<MatchReason>)
    ensures pushed == reasons + HeroReasons(p, concerns)
  {
    pushed := reasons;
    for k := 0 to |concerns|
      invariant pushed == reasons + HeroReasons(p, concerns[..k])
    {
      var concern := concerns[k];
      var matchedIngredients := Treating(p.keyIngredients, concern);
      if |matchedIngredients| > 0 {
        pushed := pushed + [ContainsHero(matchedIngredients, concern)];
      }
      assert concerns[..k + 1][..k] == concerns[..k];
    }
    assert concerns[..|concerns|] == concerns;
  }

  /** `generateMatchReasons`: pushes the reasons into `reasons`, then keeps
      the first four. */
  method GenerateMatchReasons(p: Product, concerns: seq<SkinConcern>, profile: Option<UserProfile>)
    returns (reasons: seq<MatchReason>)
    ensures reasons == Reasons(p, concerns, profile)
  {
    reasons := [];
    var matchedConcerns := Matched(concerns, p);
    if |matchedConcerns| > 0 {
      reasons := reasons + [TargetsConcerns(matchedConcerns)];
    }
    assert reasons == Opt(|matchedConcerns| > 0, TargetsConcerns(matchedConcerns));
    reasons := PushHeroReasons(p, concerns, reasons);
    ghost var front := reasons;
    if profile.Some? && profile.value.skinType in p.suitableSkinTypes {
      reasons := reasons + [SuitableFor(profile.value.skinType)];
    }
    assert reasons == front + TypeReason(p, profile);
    front := reasons;
    if p.rating >= 4.5 {
      reasons := reasons + [HighlyRated(p.rating, p.reviewCount)];
    }
    assert reasons == front + Opt(p.rating >= 4.5, HighlyRated(p.rating, p.reviewCount));
    front := reasons;
    if profile.Some? && profile.value.preferences.preferCrueltyFree && p.isCrueltyFree {
      reasons := reasons + [CrueltyFree];
    }
    assert reasons == front + Opt(CrueltyFreeMet(p, profile), CrueltyFree);
    front := reasons;
    if profile.Some? && profile.value.preferences.preferVegan && p.isVegan {
      reasons := reasons + [Vegan];
    }
    assert reasons == front + Opt(VeganMet(p, profile), Vegan);
    assert reasons == AllReasons(p, concerns, profile);
    reasons := reasons[..SliceEnd(|reasons|, 4)];
  }

  // ----- Properties -----

  /** The position of a reason's kind in the push order. */
  function Stage(x: MatchReason): nat {
    match x
    case TargetsConcerns(_) => 0
    case ContainsHero(_, _) => 1
    case SuitableFor(_) => 2
    case HighlyRated(_, _) => 3
    case CrueltyFree => 4
    case Vegan => 5
  }

  /** Each hero reason names a concern of the list and the non-empty list of
      key ingredients that treat it. */
  lemma {:induction false} HeroReasonsSound(p: Product, concerns: seq<SkinConcern>, x: MatchReason)
    requires x in HeroReasons(p, concerns)
    ensures x.ContainsHero? && x.concern in concerns
    ensures x.ingredients == Treating(p.keyIngredients, x.concern) && x.ingredients != []
  {
    var init := concerns[..|concerns| - 1];
    if x !in HeroReason(p, concerns[|concerns| - 1]) {
      HeroReasonsSound(p, init, x);
      assert x.concern in init;
    }
  }

  /** The loop pushes one reason for each concern that counts an ingredient
      hit in the score, so there are exactly as many hero reasons as hits. */
  lemma {:induction false} HeroReasonsCountHits(p: Product, concerns: seq<SkinConcern>)
    ensures |HeroReasons(p, concerns)| == IngredientHits(concerns, p)
  {
    if concerns != [] {
      var init, c := concerns[..|concerns| - 1], concerns[|concerns| - 1];
      HeroReasonsCountHits(p, init);
      TreatingIffHero(p.keyIngredients, c);
    }
  }

  /** Some key ingredient treats `c` exactly when the filter keeps one. */
  lemma TreatingIffHero(keyIngredients: seq<string>, c: SkinConcern)
    ensures Treating(keyIngredients, c) != [] <==> HasHero(keyIngredients, c)
  {
    var r := Treating(keyIngredients, c);
    if r != [] {
      assert r[0] in r;
    }
    if HasHero(keyIngredients, c) {
      var i :| 0 <= i < |keyIngredients| && Treats(keyIngredients[i], c);
      assert keyIngredients[i] in r;
    }
  }

  /** The stages along `s` never decrease. */
  predicate Staged(s: seq<MatchReason>) {
    forall i, j :: 0 <= i < j < |s| ==> Stage(s[i]) <= Stage(s[j])
  }

  predicate AtMost(s: seq<MatchReason>, k: nat) {
    forall i :: 0 <= i < |s| ==> Stage(s[i]) <= k
  }

  predicate AtLeast(s: seq<MatchReason>, k: nat) {
    forall i :: 0 <= i < |s| ==> Stage(s[i]) >= k
  }

  /** The hero reasons are all stage 1. */
  lemma {:induction false} HeroReasonsStage(p: Product, concerns: seq<SkinConcern>)
    ensures Staged(HeroReasons(p, concerns))
    ensures AtLeast(HeroReasons(p, concerns), 1) && AtMost(HeroReasons(p, concerns), 1)
  {
    var h := HeroReasons(p, concerns);
    forall i | 0 <= i < |h| ensures Stage(h[i]) == 1 {
      HeroReasonsSound(p, concerns, h[i]);
    }
  }

  /** A staged list ending at or below stage `k`, joined to a staged list
      starting at or above `k`, is staged. */
  lemma Join(a: seq<MatchReason>, b: seq<MatchReason>, k: nat, hi: nat)
    requires Staged(a) && Staged(b) && AtMost(a, k) && AtLeast(b, k) && AtMost(b, hi) && k <= hi
    ensures Staged(a + b) && AtMost(a + b, hi)
  {
  }

  /** Pushing at most one reason of stage `k` onto a staged list ending at
      or below `k` keeps it staged. */
  lemma Extend(s: seq<MatchReason>, x: seq<MatchReason>, k: nat)
    requires Staged(s) && AtMost(s, k)
    requires |x| <= 1 && forall i :: 0 <= i < |x| ==> Stage(x[i]) == k
    ensures Staged(s + x) && AtMost(s + x, k)
  {
  }

  /** The shape of the pushed list: at most one stage-0 reason, stage-1
      reasons, then at most one reason of each of the stages 2 to 5. */
  lemma StagedShape(a: seq<MatchReason>, h: seq<MatchReason>, t: seq<MatchReason>, g: seq<MatchReason>,
                    c: seq<MatchReason>, v: seq<MatchReason>)
    requires |a| <= 1 && forall i :: 0 <= i < |a| ==> Stage(a[i]) == 0
    requires Staged(h) && AtLeast(h, 1) && AtMost(h, 1)
    requires |t| <= 1 && forall i :: 0 <= i < |t| ==> Stage(t[i]) == 2
    requires |g| <= 1 && forall i :: 0 <= i < |g| ==> Stage(g[i]) == 3
    requires |c| <= 1 && forall i :: 0 <= i < |c| ==> Stage(c[i]) == 4
    requires |v| <= 1 && forall i :: 0 <= i < |v| ==> Stage(v[i]) == 5
    ensures Staged(a + h + t + g + c + v)
  {
    Join(a, h, 1, 1);
    Extend(a + h, t, 2);
    Extend(a + h + t, g, 3);
    Extend(a + h + t + g, c, 4);
    Extend(a + h + t + g + c, v, 5);
  }

  /** Every reason pushed keeps the push order of the kinds. */
  lemma {:induction false} AllReasonsStaged(p: Product, concerns: seq<SkinConcern>, profile: Option<UserProfile>)
    ensures Staged(AllReasons(p, concerns, profile))
  {
    HeroReasonsStage(p, concerns);
    StagedAround(p, concerns, profile, HeroReasons(p, concerns));
  }

  /** The single pushes around a run `h` of stage-1 reasons keep the list
      staged. */
  lemma StagedAround(p: Product, concerns: seq<SkinConcern>, profile: Option<UserProfile>, h: seq<MatchReason>)
    requires Staged(h) && AtLeast(h, 1) && AtMost(h, 1)
    ensures var matched := Matched(concerns, p);
      Staged(Opt(|matched| > 0, TargetsConcerns(matched)) + h + TypeReason(p, profile)
             + Opt(p.rating >= 4.5, HighlyRated(p.rating, p.reviewCount))
             + Opt(CrueltyFreeMet(p, profile), CrueltyFree) + Opt(VeganMet(p, profile), Vegan))
  {
    var matched := Matched(concerns, p);
    StagedShape(Opt(|matched| > 0, TargetsConcerns(matched)), h, TypeReason(p, profile),
                Opt(p.rating >= 4.5, HighlyRated(p.rating, p.reviewCount)),
                Opt(CrueltyFreeMet(p, profile), CrueltyFree), Opt(VeganMet(p, profile), Vegan));
  }

  /** The reasons keep the push order: concern match first, then the hero
      ingredients, skin type, rating, cruelty-free, vegan. */
  lemma ReasonsInPushOrder(p: Product, concerns: seq<SkinConcern>, profile: Option<UserProfile>)
    ensures Staged(Reasons(p, concerns, profile))
  {
    AllReasonsStaged(p, concerns, profile);
  }

  /** At most four reasons, the first four pushed. */
  lemma ReasonsCapped(p: Product, concerns: seq<SkinConcern>, profile: Option<UserProfile>)
    ensures var r, all := Reasons(p, concerns, profile), AllReasons(p, concerns, profile);
      && |r| == (if |all| <= 4 then |all| else 4)
      && r == all[..|r|]
  {
  }

  /** What a reason claims holds of the product, the concerns and the
      profile: the concern-match reason carries the non-empty matched
      concerns; a hero reason a concern of the list and the key ingredients
      that treat it; the skin-type reason the profile's type, which the
      product suits; the rating reason a rating of at least 4.5; the
      cruelty-free and vegan reasons both the user's flag and the product's. */
  predicate Justified(x: MatchReason, p: Product, concerns: seq<SkinConcern>, profile: Option<UserProfile>) {
    match x
    case TargetsConcerns(m) => m == Matched(concerns, p) && m != []
    case ContainsHero(ingredients, c) =>
      c in concerns && ingredients != [] && ingredients == Treating(p.keyIngredients, c)
    case SuitableFor(t) => profile.Some? && t == profile.value.skinType && t in p.suitableSkinTypes
    case HighlyRated(r, n) => p.rating >= 4.5 && r == p.rating && n == p.reviewCount
    case CrueltyFree => CrueltyFreeMet(p, profile)
    case Vegan => VeganMet(p, profile)
  }

  /** Each push outside the concern loop is justified. */
  lemma SinglePushesJustified(p: Product, concerns: seq<SkinConcern>, profile: Option<UserProfile>)
    ensures var matched := Matched(concerns, p);
      forall x :: x in Opt(|matched| > 0, TargetsConcerns(matched)) ==> Justified(x, p, concerns, profile)
    ensures forall x :: x in TypeReason(p, profile) ==> Justified(x, p, concerns, profile)
    ensures forall x :: x in Opt(p.rating >= 4.5, HighlyRated(p.rating, p.reviewCount))
                        ==> Justified(x, p, concerns, profile)
    ensures forall x :: x in Opt(CrueltyFreeMet(p, profile), CrueltyFree) ==> Justified(x, p, concerns, profile)
    ensures forall x :: x in Opt(VeganMet(p, profile), Vegan) ==> Justified(x, p, concerns, profile)
  {
  }

  /** Every reason pushed is justified. */
  lemma {:induction false} AllReasonsJustified(p: Product, concerns: seq<SkinConcern>, profile: Option<UserProfile>)
    ensures forall x :: x in AllReasons(p, concerns, profile) ==> Justified(x, p, concerns, profile)
  {
    SinglePushesJustified(p, concerns, profile);
    forall x | x in HeroReasons(p, concerns) ensures Justified(x, p, concerns, profile) {
      HeroReasonsSound(p, concerns, x);
    }
  }

  /** Every kept reason is justified. */
  lemma ReasonsSound(p: Product, concerns: seq<SkinConcern>, profile: Option<UserProfile>, x: MatchReason)
    requires x in Reasons(p, concerns, profile)
    ensures Justified(x, p, concerns, profile)
  {
    InTake(AllReasons(p, concerns, profile), 4, x);
    AllReasonsJustified(p, concerns, profile);
  }

  /** The concern-match reason, when there is one, comes first and is always
      kept. */
  lemma ReasonsLead(p: Product, concerns: seq<SkinConcern>, profile: Option<UserProfile>)
    ensures Matched(concerns, p) != []
            ==> Reasons(p, concerns, profile)[0] == TargetsConcerns(Matched(concerns, p))
  {
  }
}
