/** `analyzeSkin` (src/ml/skinModel.ts:527-601): metrics, tone and type,
    the concern list (rule hits, then self-reported fallbacks, sorted by
    severity then confidence and cut to six), the score, the routine and the
    headline tips. The delay, the id and the timestamp are inputs. */
module SkinAnalysis {
  import opened Types
  import opened JsMath
  import opened Sorting
  import ToneDetection
  import ConcernRules
  import TypeDetection
  import MetricGeneration
  import ScoreAggregation
  import RoutineGeneration
  import TopRecommendations

  /** The `Math.random()` draws one analysis consumes, grouped by use: eight
      for the metrics, one for the synthetic lightness, one per concern rule
      (used only when that rule fires) and one per self-reported concern
      (used only when it is added as a fallback). */
  datatype Draws = Draws(metric: seq<real>, lightness: real, rule: seq<real>, fallback: seq<real>)

  /** The concerns the profile reports; none without a profile. */
  function Declared(profile: Option<UserProfile>): seq<SkinConcern> {
    if profile.Some? then profile.value.concerns else []
  }

  predicate WellSized(d: Draws, profile: Option<UserProfile>) {
    |d.metric| == 8 && |d.rule| == |ConcernRules.Rules| && |d.fallback| == |Declared(profile)|
  }

  /** Every draw lies in [0, 1), as `Math.random()` guarantees. */
  predicate UnitDraws(d: Draws) {
    && (forall i :: 0 <= i < |d.metric| ==> 0.0 <= d.metric[i] < 1.0)
    && 0.0 <= d.lightness < 1.0
    && (forall i :: 0 <= i < |d.rule| ==> 0.0 <= d.rule[i] < 1.0)
    && (forall i :: 0 <= i < |d.fallback| ==> 0.0 <= d.fallback[i] < 1.0)
  }

  /** No concern kind occurs twice. */
  predicate DistinctKinds(s: seq<DetectedConcern>) {
    forall i, j :: 0 <= i < j < |s| ==> s[i].kind != s[j].kind
  }

  /** Appending an entry adds exactly its kind, and keeps the kinds
      distinct when that kind was new. */
  lemma AppendKinds(s: seq<DetectedConcern>, x: DetectedConcern)
    ensures forall c :: HasKind(s + [x], c) <==> HasKind(s, c) || x.kind == c
    ensures DistinctKinds(s) && !HasKind(s, x.kind) ==> DistinctKinds(s + [x])
  {
    var r := s + [x];
    forall c ensures HasKind(r, c) <==> HasKind(s, c) || x.kind == c {
      if HasKind(s, c) {
        var i :| 0 <= i < |s| && s[i].kind == c;
        assert r[i] == s[i];
      }
      assert r[|s|] == x;
    }
  }

  /** Prepending an entry adds exactly its kind, and keeps the kinds
      distinct when that kind was new. */
  lemma ConsKinds(x: DetectedConcern, s: seq<DetectedConcern>)
    ensures forall c :: HasKind([x] + s, c) <==> x.kind == c || HasKind(s, c)
    ensures DistinctKinds(s) && !HasKind(s, x.kind) ==> DistinctKinds([x] + s)
  {
    var r := [x] + s;
    forall c ensures HasKind(r, c) <==> x.kind == c || HasKind(s, c) {
      assert r[0] == x;
      if HasKind(s, c) {
        var i :| 0 <= i < |s| && s[i].kind == c;
        assert r[i + 1] == s[i];
      }
      if HasKind(r, c) {
        var i :| 0 <= i < |r| && r[i].kind == c;
        if i > 0 { assert s[i - 1] == r[i]; }
      }
    }
    if DistinctKinds(s) && !HasKind(s, x.kind) {
      forall i, j | 0 <= i < j < |r| ensures r[i].kind != r[j].kind {
        assert r[j] == s[j - 1];
        if i > 0 { assert r[i] == s[i - 1]; }
      }
    }
  }

  /** The tail of a list with distinct kinds has distinct kinds and lacks
      the head's kind. */
  lemma TailKinds(s: seq<DetectedConcern>)
    requires |s| > 0 && DistinctKinds(s)
    ensures DistinctKinds(s[1..]) && !HasKind(s[1..], s[0].kind)
  {
    var t := s[1..];
    forall i | 0 <= i < |t| ensures t[i].kind != s[0].kind {
      assert t[i] == s[i + 1];
    }
    forall i, j | 0 <= i < j < |t| ensures t[i].kind != t[j].kind {
      assert t[i] == s[i + 1] && t[j] == s[j + 1];
    }
  }

  // ----- Rule hits -----

  /** The concerns the first `k` rules push, in rule order. */
  function Detected(m: SkinMetrics, rd: seq<real>, k: nat): (s: seq<DetectedConcern>)
    requires k <= |ConcernRules.Rules| == |rd|
    ensures |s| <= k
  {
    if k == 0 then []
    else
      var prev := Detected(m, rd, k - 1);
      match ConcernRules.Evaluate(ConcernRules.Rules[k - 1], m, rd[k - 1])
      case None => prev
      case Some(c) => prev + [c]
  }

  /** After the first `k` rules, exactly the concerns of the rules among them
      that fire are present, each once, and no later rule's concern is. */
  lemma {:induction false} DetectedKinds(m: SkinMetrics, rd: seq<real>, k: nat)
    requires k <= |ConcernRules.Rules| == |rd|
    ensures DistinctKinds(Detected(m, rd, k))
    ensures forall j :: 0 <= j < k ==>
              (HasKind(Detected(m, rd, k), ConcernRules.Concern(ConcernRules.Rules[j]))
               <==> ConcernRules.RuleSeverity(ConcernRules.Rules[j], m).Some?)
    ensures forall j :: k <= j < |ConcernRules.Rules| ==>
              !HasKind(Detected(m, rd, k), ConcernRules.Concern(ConcernRules.Rules[j]))
  {
    ConcernRules.RulesDistinct();
    if k > 0 {
      DetectedKinds(m, rd, k - 1);
      var prev := Detected(m, rd, k - 1);
      var rule := ConcernRules.Rules[k - 1];
      match ConcernRules.Evaluate(rule, m, rd[k - 1])
      case None =>
      case Some(c) =>
        AppendKinds(prev, c);
    }
  }

  /** Every rule hit has a confidence in [0.55, 0.9). */
  lemma {:induction false} DetectedConfidence(m: SkinMetrics, rd: seq<real>, k: nat)
    requires k <= |ConcernRules.Rules| == |rd|
    requires forall i :: 0 <= i < |rd| ==> 0.0 <= rd[i] < 1.0
    ensures forall i :: 0 <= i < |Detected(m, rd, k)| ==>
              0.55 <= Detected(m, rd, k)[i].confidence < 0.9
  {
    if k > 0 {
      DetectedConfidence(m, rd, k - 1);
      var rule := ConcernRules.Rules[k - 1];
      if ConcernRules.Evaluate(rule, m, rd[k - 1]).Some? {
        ConcernRules.ConfidenceRange(rule, m, rd[k - 1]);
      }
    }
  }

  // ----- Self-reported fallbacks -----

  /** The concern's identifier as the app spells it. */
  function ConcernId(c: SkinConcern): string {
    match c
    case Acne => "acne"
    case DarkSpots => "dark-spots"
    case FineLines => "fine-lines"
    case Wrinkles => "wrinkles"
    case LargePores => "large-pores"
    case UnevenTone => "uneven-tone"
    case Dullness => "dullness"
    case Dryness => "dryness"
    case Oiliness => "oiliness"
    case Redness => "redness"
    case Sensitivity => "sensitivity"
    case DarkCircles => "dark-circles"
    case Hyperpigmentation => "hyperpigmentation"
    case Texture => "texture"
    case Blackheads => "blackheads"
    case Whiteheads => "whiteheads"
    case SunDamage => "sun-damage"
    case Scarring => "scarring"
    case Eczema => "eczema"
    case Rosacea => "rosacea"
    case Melasma => "melasma"
  }

  /** Every hyphen replaced by a space. */
  function Spaced(s: string): (r: string)
    ensures |r| == |s|
    ensures forall i :: 0 <= i < |s| ==> r[i] == (if s[i] == '-' then ' ' else s[i])
    ensures '-' !in r
  {
    seq(|s|, i requires 0 <= i < |s| => if s[i] == '-' then ' ' else s[i])
  }

  /** The texts of a fallback entry, naming the concern with its hyphens
      turned into spaces. */
  function ReportedDescription(c: SkinConcern): string {
    "Mild signs of " + Spaced(ConcernId(c)) + " detected, consistent with your reported concerns."
  }

  const ReportedArea := "Various areas"

  function ReportedAdvice(c: SkinConcern): string {
    "We've included targeted treatments for " + Spaced(ConcernId(c)) + " in your routine."
  }

  /** The description text a wording stands for. */
  function DescriptionText(w: Wording): string {
    match w
    case RuleWording(rule, s) => ConcernRules.Description(rule, s)
    case ReportedWording(c) => ReportedDescription(c)
  }

  /** The affected-area text a wording stands for. */
  function AreaText(w: Wording): string {
    match w
    case RuleWording(rule, _) => ConcernRules.AffectedArea(rule)
    case ReportedWording(_) => ReportedArea
  }

  /** The recommendation text a wording stands for. */
  function AdviceText(w: Wording): string {
    match w
    case RuleWording(rule, _) => ConcernRules.Advice(rule)
    case ReportedWording(c) => ReportedAdvice(c)
  }

  /** The mild entry added for a self-reported concern no rule produced;
      `r` is its confidence draw. */
  function Fallback(c: SkinConcern, r: real): (d: DetectedConcern)
    ensures d.kind == c && d.severity == Mild && d.confidence == 0.55 + r * 0.2
  {
    DetectedConcern(c, Mild, 0.55 + r * 0.2, ReportedWording(c))
  }

  /** The list after the first `k` self-reported concerns were checked: each
      one whose kind is not yet present is appended as a fallback. */
  function WithFallbacks(base: seq<DetectedConcern>, declared: seq<SkinConcern>, fd: seq<real>, k: nat)
    : (s: seq<DetectedConcern>)
    requires k <= |declared| == |fd|
    ensures |base| <= |s| <= |base| + k
  {
    if k == 0 then base
    else
      var prev := WithFallbacks(base, declared, fd, k - 1);
      if HasKind(prev, declared[k - 1]) then prev
      else prev + [Fallback(declared[k - 1], fd[k - 1])]
  }

  /** The fallbacks keep the rule hits as a prefix and append only mild
      entries whose kind no rule produced. */
  lemma {:induction false} FallbacksAppend(base: seq<DetectedConcern>, declared: seq<SkinConcern>,
                                           fd: seq<real>, k: nat)
    requires k <= |declared| == |fd|
    ensures WithFallbacks(base, declared, fd, k)[..|base|] == base
    ensures forall i :: |base| <= i < |WithFallbacks(base, declared, fd, k)| ==>
              WithFallbacks(base, declared, fd, k)[i].severity == Mild
              && !HasKind(base, WithFallbacks(base, declared, fd, k)[i].kind)
  {
    if k > 0 {
      FallbacksAppend(base, declared, fd, k - 1);
      var prev := WithFallbacks(base, declared, fd, k - 1);
      var c := declared[k - 1];
      if !HasKind(prev, c) {
        var s := prev + [Fallback(c, fd[k - 1])];
        assert s[..|base|] == prev[..|base|];
        assert !HasKind(base, c) by {
          forall j | 0 <= j < |base| ensures base[j].kind != c {
            assert prev[j] == base[j];
          }
        }
        forall i | |base| <= i < |s| ensures s[i].severity == Mild && !HasKind(base, s[i].kind) {
          if i < |prev| { assert s[i] == prev[i]; }
        }
      }
    }
  }

  /** The fallbacks keep the kinds distinct. */
  lemma {:induction false} FallbacksDistinct(base: seq<DetectedConcern>, declared: seq<SkinConcern>,
                                             fd: seq<real>, k: nat)
    requires k <= |declared| == |fd|
    requires DistinctKinds(base)
    ensures DistinctKinds(WithFallbacks(base, declared, fd, k))
  {
    if k > 0 {
      FallbacksDistinct(base, declared, fd, k - 1);
      var prev := WithFallbacks(base, declared, fd, k - 1);
      AppendKinds(prev, Fallback(declared[k - 1], fd[k - 1]));
    }
  }

  /** After the fallbacks every checked self-reported concern is present. */
  lemma {:induction false} FallbacksCover(base: seq<DetectedConcern>, declared: seq<SkinConcern>,
                                          fd: seq<real>, k: nat)
    requires k <= |declared| == |fd|
    ensures forall i :: 0 <= i < k ==> HasKind(WithFallbacks(base, declared, fd, k), declared[i])
  {
    if k > 0 {
      FallbacksCover(base, declared, fd, k - 1);
      var prev := WithFallbacks(base, declared, fd, k - 1);
      AppendKinds(prev, Fallback(declared[k - 1], fd[k - 1]));
    }
  }

  /** Every fallback has a confidence in [0.55, 0.75). */
  lemma {:induction false} FallbackConfidence(base: seq<DetectedConcern>, declared: seq<SkinConcern>,
                                              fd: seq<real>, k: nat)
    requires k <= |declared| == |fd|
    requires forall i :: 0 <= i < |fd| ==> 0.0 <= fd[i] < 1.0
    requires forall i :: 0 <= i < |base| ==> 0.55 <= base[i].confidence < 0.9
    ensures forall i :: 0 <= i < |WithFallbacks(base, declared, fd, k)| ==>
              0.55 <= WithFallbacks(base, declared, fd, k)[i].confidence < 0.9
  {
    if k > 0 {
      FallbackConfidence(base, declared, fd, k - 1);
      var prev := WithFallbacks(base, declared, fd, k - 1);
      if !HasKind(prev, declared[k - 1]) {
        var x := Fallback(declared[k - 1], fd[k - 1]);
        ConcernRules.ScaledDraw(fd[k - 1], 0.2);
        var s := prev + [x];
        assert s == WithFallbacks(base, declared, fd, k);
        forall i | 0 <= i < |s| ensures 0.55 <= s[i].confidence < 0.9 {
          if i < |prev| { assert s[i] == prev[i]; }
        }
      }
    }
  }

  // ----- Ordering -----

  /** severe before moderate before mild. */
  function SeverityRank(s: Severity): nat {
    match s
    case Severe => 0
    case Moderate => 1
    case Mild => 2
  }

  /** The sort's comparator: `a` may precede `b` when its severity ranks
      lower, or ranks the same with at least `b`'s confidence. */
  predicate ConcernOrder(a: DetectedConcern, b: DetectedConcern) {
    SeverityRank(a.severity) < SeverityRank(b.severity)
    || (SeverityRank(a.severity) == SeverityRank(b.severity) && a.confidence >= b.confidence)
  }

  lemma ConcernOrderIsPreorder()
    ensures TotalPreorder(ConcernOrder)
  {
  }

  /** Inserting an entry of a new kind keeps the kinds distinct. */
  lemma {:induction false} InsertDistinct(x: DetectedConcern, s: seq<DetectedConcern>,
                                          le: (DetectedConcern, DetectedConcern) -> bool)
    requires DistinctKinds(s) && !HasKind(s, x.kind)
    ensures DistinctKinds(Insert(x, s, le))
  {
    if s == [] || le(x, s[0]) {
      ConsKinds(x, s);
    } else {
      var t := s[1..];
      assert s == [s[0]] + t;
      ConsKinds(s[0], t);
      TailKinds(s);
      InsertDistinct(x, t, le);
      var u := Insert(x, t, le);
      assert multiset(u) == multiset([x] + t);
      RoutineGeneration.PermutationSameKinds(u, [x] + t);
      ConsKinds(x, t);
      ConsKinds(s[0], u);
    }
  }

  /** Sorting keeps the kinds distinct. */
  lemma {:induction false} SortDistinct(s: seq<DetectedConcern>, le: (DetectedConcern, DetectedConcern) -> bool)
    requires DistinctKinds(s)
    ensures DistinctKinds(SortBy(s, le))
  {
    if s != [] {
      var t := s[1..];
      TailKinds(s);
      SortDistinct(t, le);
      RoutineGeneration.PermutationSameKinds(SortBy(t, le), t);
      InsertDistinct(s[0], SortBy(t, le), le);
    }
  }

  // ----- The pipeline -----

  /** The concern list before sorting: the rule hits in rule order, then the
      fallbacks in the order the concerns were reported. */
  function AllConcerns(m: SkinMetrics, profile: Option<UserProfile>, d: Draws): seq<DetectedConcern>
    requires WellSized(d, profile)
  {
    WithFallbacks(Detected(m, d.rule, |d.rule|), Declared(profile), d.fallback, |d.fallback|)
  }

  /** The concern list after the sort, before the cap. */
  function Ranked(m: SkinMetrics, profile: Option<UserProfile>, d: Draws): seq<DetectedConcern>
    requires WellSized(d, profile)
  {
    SortBy(AllConcerns(m, profile, d), ConcernOrder)
  }

  /** The lightness fed to the tone lookup: the declared tone's lower bound,
      or the synthetic `0.3 + r * 0.5`. */
  function Lightness(profile: Option<UserProfile>, d: Draws): real {
    if profile.Some? then ToneDetection.DeclaredLightness(profile.value.skinTone)
    else 0.3 + d.lightness * 0.5
  }

  /** The declared skin type, or the one detected from the metrics. */
  function AnalysisType(profile: Option<UserProfile>, m: SkinMetrics): SkinType {
    if profile.Some? then profile.value.skinType else TypeDetection.DetectSkinType(m)
  }

  /** The two loops of `analyzeSkin` that fill `detectedConcerns`: every
      rule's hit in rule order, then a fallback for each self-reported
      concern whose kind is still missing. */
  method DetectConcerns(metrics: SkinMetrics, profile: Option<UserProfile>, d: Draws)
    returns (detected: seq<DetectedConcern>)
    requires WellSized(d, profile)
    ensures detected == AllConcerns(metrics, profile, d)
  {
    detected := [];
    for k := 0 to |ConcernRules.Rules|
      invariant detected == Detected(metrics, d.rule, k)
    {
      var result := ConcernRules.Evaluate(ConcernRules.Rules[k], metrics, d.rule[k]);
      if result.Some? {
        detected := detected + [result.value];
      }
    }
    ghost var hits := detected;
    var declared := Declared(profile);
    for k := 0 to |declared|
      invariant detected == WithFallbacks(hits, declared, d.fallback, k)
    {
      var concern := declared[k];
      if !exists i :: 0 <= i < |detected| && detected[i].kind == concern {
        detected := detected + [Fallback(concern, d.fallback[k])];
      }
    }
  }

  /** The detection loops followed by the sort. */
  method RankConcerns(metrics: SkinMetrics, profile: Option<UserProfile>, d: Draws)
    returns (sorted: seq<DetectedConcern>)
    requires WellSized(d, profile)
    ensures sorted == Ranked(metrics, profile, d)
  {
    var detected := DetectConcerns(metrics, profile, d);
    sorted := SortBy(detected, ConcernOrder);
  }

  /** What `analyzeSkin` returns for the given draws, id and timestamp. */
  function Analysis(imageUri: string, profile: Option<UserProfile>, d: Draws, id: string, timestamp: int)
    : SkinAnalysisResult
    requires WellSized(d, profile)
  {
    var m := MetricGeneration.Generated(d.metric, profile);
    var t := AnalysisType(profile, m);
    var r := Ranked(m, profile, d);
    SkinAnalysisResult(id, imageUri, timestamp, ScoreAggregation.OverallScore(m),
                       ToneDetection.DetectSkinTone(Lightness(profile, d)).tone, t, Take(r, 6), m,
                       TopRecommendations.TopTips(r, m, t), RoutineGeneration.GenerateRoutine(r, t))
  }

  /** `analyzeSkin`. */
  method AnalyzeSkin(imageUri: string, profile: Option<UserProfile>, d: Draws, id: string, timestamp: int)
    returns (res: SkinAnalysisResult)
    requires WellSized(d, profile)
    ensures res == Analysis(imageUri, profile, d, id, timestamp)
  {
    var metrics := MetricGeneration.GenerateMetrics(d.metric, profile);
    var averageLightness := 0.3 + d.lightness * 0.5;
    var toneProfile := ToneDetection.DetectSkinTone(
      if profile.Some? then ToneDetection.DeclaredLightness(profile.value.skinTone) else averageLightness);
    var skinType := if profile.Some? then profile.value.skinType else TypeDetection.DetectSkinType(metrics);
    var sorted := RankConcerns(metrics, profile, d);
    var overallScore := ScoreAggregation.CalculateOverallScore(metrics);
    var routine := RoutineGeneration.GenerateRoutine(sorted, skinType);
    var recommendations := TopRecommendations.GenerateTopRecommendations(sorted, metrics, skinType);
    res := SkinAnalysisResult(id, imageUri, timestamp, overallScore, toneProfile.tone, skinType,
                              sorted[..SliceEnd(|sorted|, 6)], metrics, recommendations, routine);
  }

  // ----- Properties of the result -----

  /** A profile's declared tone and type always win; without a profile the
      synthetic lightness never yields the deep tone. */
  lemma DeclaredWins(profile: Option<UserProfile>, d: Draws, m: SkinMetrics)
    requires UnitDraws(d)
    ensures profile.Some? ==> ToneDetection.DetectSkinTone(Lightness(profile, d)).tone
                              == profile.value.skinTone
    ensures profile.Some? ==> AnalysisType(profile, m) == profile.value.skinType
    ensures profile.None? ==> ToneDetection.DetectSkinTone(Lightness(profile, d)).tone != Deep
  {
    if profile.Some? {
      ToneDetection.DeclaredToneRoundTrip(profile.value.skinTone);
    } else {
      ToneDetection.SyntheticLightnessNeverDeep(d.lightness);
    }
  }

  /** Before the sort: no kind occurs twice, every self-reported concern
      is present, and so is the concern of every rule that fires. */
  lemma {:induction false} AllConcernsKinds(m: SkinMetrics, profile: Option<UserProfile>, d: Draws)
    requires WellSized(d, profile)
    ensures var all := AllConcerns(m, profile, d);
      && DistinctKinds(all)
      && (forall c :: c in Declared(profile) ==> HasKind(all, c))
      && (forall rule :: rule in ConcernRules.Rules && ConcernRules.RuleSeverity(rule, m).Some?
            ==> HasKind(all, ConcernRules.Concern(rule)))
  {
    var rules := ConcernRules.Rules;
    var base := Detected(m, d.rule, |d.rule|);
    DetectedKinds(m, d.rule, |d.rule|);
    var declared := Declared(profile);
    FallbacksAppend(base, declared, d.fallback, |declared|);
    FallbacksDistinct(base, declared, d.fallback, |declared|);
    FallbacksCover(base, declared, d.fallback, |declared|);
    var all := AllConcerns(m, profile, d);
    forall rule | rule in rules && ConcernRules.RuleSeverity(rule, m).Some?
      ensures HasKind(all, ConcernRules.Concern(rule))
    {
      var j :| 0 <= j < |rules| && rules[j] == rule;
      var i :| 0 <= i < |base| && base[i].kind == ConcernRules.Concern(rule);
      assert all[..|base|][i] == base[i];
    }
  }

  /** After the sort: the list is a permutation of the unsorted one, ordered
      by severity then descending confidence, and it keeps distinct kinds,
      every self-reported concern and every rule hit. */
  lemma {:induction false} RankedConcerns(m: SkinMetrics, profile: Option<UserProfile>, d: Draws)
    requires WellSized(d, profile)
    ensures var all, r := AllConcerns(m, profile, d), Ranked(m, profile, d);
      && multiset(r) == multiset(all)
      && SortedBy(r, ConcernOrder)
      && DistinctKinds(r)
      && (forall c :: c in Declared(profile) ==> HasKind(r, c))
      && (forall rule :: rule in ConcernRules.Rules && ConcernRules.RuleSeverity(rule, m).Some?
            ==> HasKind(r, ConcernRules.Concern(rule)))
  {
    var all := AllConcerns(m, profile, d);
    AllConcernsKinds(m, profile, d);
    ConcernOrderIsPreorder();
    SortBySorted(all, ConcernOrder);
    SortDistinct(all, ConcernOrder);
    RoutineGeneration.PermutationSameKinds(all, Ranked(m, profile, d));
  }

  /** A self-reported concern no rule produced appears exactly once before
      the cap, as a mild entry. */
  lemma {:induction false} FallbackAppearsOnce(m: SkinMetrics, profile: Option<UserProfile>, d: Draws,
                                               c: SkinConcern)
    requires WellSized(d, profile)
    requires c in Declared(profile)
    requires !HasKind(Detected(m, d.rule, |d.rule|), c)
    ensures var all := AllConcerns(m, profile, d);
      exists i :: 0 <= i < |all| && all[i].kind == c && all[i].severity == Mild
                  && forall j :: 0 <= j < |all| && j != i ==> all[j].kind != c
  {
    var base := Detected(m, d.rule, |d.rule|);
    DetectedKinds(m, d.rule, |d.rule|);
    var declared := Declared(profile);
    FallbacksAppend(base, declared, d.fallback, |declared|);
    FallbacksDistinct(base, declared, d.fallback, |declared|);
    FallbacksCover(base, declared, d.fallback, |declared|);
    var all := AllConcerns(m, profile, d);
    assert all == WithFallbacks(base, declared, d.fallback, |d.fallback|);
    var k :| 0 <= k < |declared| && declared[k] == c;
    assert HasKind(all, c);
    var i :| 0 <= i < |all| && all[i].kind == c;
    assert i >= |base| by {
      forall j | 0 <= j < |base| ensures all[j].kind != c {
        assert all[..|base|][j] == base[j];
      }
    }
    assert all[i].severity == Mild;
    assert forall j :: 0 <= j < |all| && j != i ==> all[j].kind != c;
  }

  /** Every confidence lies in [0.55, 0.9), inside [0, 1]. */
  lemma ConfidencesInRange(m: SkinMetrics, profile: Option<UserProfile>, d: Draws)
    requires WellSized(d, profile) && UnitDraws(d)
    ensures forall i :: 0 <= i < |AllConcerns(m, profile, d)| ==>
              0.55 <= AllConcerns(m, profile, d)[i].confidence < 0.9
  {
    var base := Detected(m, d.rule, |d.rule|);
    DetectedConfidence(m, d.rule, |d.rule|);
    FallbackConfidence(base, Declared(profile), d.fallback, |d.fallback|);
  }

  /** The routine and the headline tips see the whole concern list, not the
      capped one, and the sort does not change them: both depend only on
      which kinds occur. */
  lemma SortDoesNotMatter(m: SkinMetrics, profile: Option<UserProfile>, d: Draws, t: SkinType)
    requires WellSized(d, profile)
    ensures RoutineGeneration.GenerateRoutine(Ranked(m, profile, d), t)
            == RoutineGeneration.GenerateRoutine(AllConcerns(m, profile, d), t)
    ensures TopRecommendations.TopTips(Ranked(m, profile, d), m, t)
            == TopRecommendations.TopTips(AllConcerns(m, profile, d), m, t)
  {
    var all, r := AllConcerns(m, profile, d), Ranked(m, profile, d);
    RoutineGeneration.PermutationSameKinds(r, all);
    RoutineGeneration.DependsOnlyOnKinds(r, all, t);
    assert HasKind(r, Acne) == HasKind(all, Acne);
    assert HasKind(r, FineLines) == HasKind(all, FineLines);
  }

  /** The header of an analysis: the given id, image and timestamp; metrics
      as generated, each in [0, 100]; the score computed from them, in
      [0, 100]. A profile's declared tone and type win; without one the tone
      is never deep and the type is the one read off the metrics. */
  lemma {:induction false} AnalysisHeader(imageUri: string, profile: Option<UserProfile>, d: Draws,
                                          id: string, timestamp: int)
    requires WellSized(d, profile) && UnitDraws(d)
    ensures var a := Analysis(imageUri, profile, d, id, timestamp);
      && a.id == id && a.imageUri == imageUri && a.timestamp == timestamp
      && a.metrics == MetricGeneration.Generated(d.metric, profile) && MetricsInRange(a.metrics)
      && a.overallScore == ScoreAggregation.OverallScore(a.metrics) && 0 <= a.overallScore <= 100
      && (profile.Some? ==> a.skinToneDetected == profile.value.skinTone
                            && a.skinTypeDetected == profile.value.skinType)
      && (profile.None? ==> a.skinToneDetected != Deep
                            && a.skinTypeDetected == TypeDetection.DetectSkinType(a.metrics))
  {
    DeclaredWins(profile, d, MetricGeneration.Generated(d.metric, profile));
  }

  /** The concern list of an analysis is the top of the ranked list, at
      most six entries, still ordered and with distinct kinds; when no more
      than six concerns were found nothing is cut, so every self-reported
      concern and every fired rule's concern is listed. */
  lemma {:induction false} AnalysisConcerns(imageUri: string, profile: Option<UserProfile>, d: Draws,
                                            id: string, timestamp: int)
    requires WellSized(d, profile)
    ensures var a := Analysis(imageUri, profile, d, id, timestamp);
            var r := Ranked(a.metrics, profile, d);
      && |a.concerns| == (if |r| < 6 then |r| else 6)
      && a.concerns == r[..|a.concerns|]
      && SortedBy(a.concerns, ConcernOrder)
      && DistinctKinds(a.concerns)
      && (|r| <= 6 ==> a.concerns == r)
      && (|r| <= 6 ==> forall c :: c in Declared(profile) ==> HasKind(a.concerns, c))
  {
    var m := MetricGeneration.Generated(d.metric, profile);
    var r := Ranked(m, profile, d);
    var cut := Take(r, 6);
    RankedConcerns(m, profile, d);
    assert cut == r[..|cut|];
    PrefixSorted(r, |cut|, ConcernOrder);
    forall i, j | 0 <= i < j < |cut| ensures cut[i].kind != cut[j].kind {
      assert cut[i] == r[i] && cut[j] == r[j];
    }
  }

  /** The routine and the headline tips of an analysis are computed from
      every detected concern, not only the six kept, and in any order; there
      are two to five tips and the sunscreen reminder is always one of them. */
  lemma {:induction false} AnalysisAdvice(imageUri: string, profile: Option<UserProfile>, d: Draws,
                                          id: string, timestamp: int)
    requires WellSized(d, profile)
    ensures var a := Analysis(imageUri, profile, d, id, timestamp);
            var all := AllConcerns(a.metrics, profile, d);
      && a.routineSuggestion == RoutineGeneration.GenerateRoutine(all, a.skinTypeDetected)
      && a.recommendations == TopRecommendations.TopTips(all, a.metrics, a.skinTypeDetected)
      && 2 <= |a.recommendations| <= 5
      && NeverSkipSunscreen in a.recommendations
  {
    var m := MetricGeneration.Generated(d.metric, profile);
    var t := AnalysisType(profile, m);
    SortDoesNotMatter(m, profile, d, t);
    TopRecommendations.SunscreenAlwaysKept(AllConcerns(m, profile, d), m, t);
  }
}
