/** The app-wide state store (src/services/store.ts): one mutable record of
    onboarding, profile, quiz, analysis, routine, journal and UI state,
    replaced field by field by its actions. The store is a `Store`
    object whose fields are that record; the clock is a `now` argument. */
module AppStore {
  import opened Types
  import opened JsMath

  /** How many past analyses the history keeps. */
  const MaxHistory: nat := 50

  // ─── Partial records ──────────────────────────────────────────

  /** One key of a `Partial<...>` object: missing, present but `undefined`,
      or present with a value. Spreading copies a present key even when it
      holds `undefined`; `??` treats `undefined` like a missing key. */
  datatype Slot<T> = Absent | Undefined | Given(value: T) {
    /** `x ?? fallback`. */
    function Or(fallback: T): (r: T)
      ensures Given? ==> r == value
      ensures !Given? ==> r == fallback
    {
      if Given? then value else fallback
    }
  }

  /** The key as it stands after `{ ...base, ...upd }`: a key present in
      `upd` wins, otherwise `base` is kept. */
  function Over<T>(base: Slot<T>, upd: Slot<T>): (r: Slot<T>)
    ensures upd.Absent? ==> r == base
    ensures !upd.Absent? ==> r == upd
  {
    if upd.Absent? then base else upd
  }

  /** `Partial<QuizData>`: the answers gathered so far by the skin quiz. */
  datatype QuizDraft = QuizDraft(
    name: Slot<string>,
    age: Slot<AgeRange>,
    gender: Slot<Gender>,
    skinType: Slot<SkinType>,
    skinTone: Slot<SkinTone>,
    concerns: Slot<seq<SkinConcern>>,
    allergies: Slot<seq<string>>,
    budgetRange: Slot<PriceRange>,
    preferNatural: Slot<bool>,
    preferFragranceFree: Slot<bool>,
    preferCrueltyFree: Slot<bool>,
    preferVegan: Slot<bool>,
    stylePreferences: Slot<seq<StylePreference>>,
    skinGoals: Slot<seq<string>>)

  /** The empty object `{}`. */
  const EmptyDraft := QuizDraft(Absent, Absent, Absent, Absent, Absent, Absent, Absent,
                                Absent, Absent, Absent, Absent, Absent, Absent, Absent)

  /** `{ ...base, ...upd }` over quiz drafts. */
  function MergeQuiz(base: QuizDraft, upd: QuizDraft): QuizDraft {
    QuizDraft(
      Over(base.name, upd.name),
      Over(base.age, upd.age),
      Over(base.gender, upd.gender),
      Over(base.skinType, upd.skinType),
      Over(base.skinTone, upd.skinTone),
      Over(base.concerns, upd.concerns),
      Over(base.allergies, upd.allergies),
      Over(base.budgetRange, upd.budgetRange),
      Over(base.preferNatural, upd.preferNatural),
      Over(base.preferFragranceFree, upd.preferFragranceFree),
      Over(base.preferCrueltyFree, upd.preferCrueltyFree),
      Over(base.preferVegan, upd.preferVegan),
      Over(base.stylePreferences, upd.stylePreferences),
      Over(base.skinGoals, upd.skinGoals))
  }

  /** The empty draft is a unit of merging, merging again with the same
      answers changes nothing, and two successive merges are one merge with
      the later answers laid over the earlier ones. */
  lemma MergeQuizLaws(a: QuizDraft, b: QuizDraft, c: QuizDraft)
    ensures MergeQuiz(a, EmptyDraft) == a && MergeQuiz(EmptyDraft, a) == a
    ensures MergeQuiz(MergeQuiz(a, b), b) == MergeQuiz(a, b)
    ensures MergeQuiz(MergeQuiz(a, b), c) == MergeQuiz(a, MergeQuiz(b, c))
  {
  }

  // ─── Finalizing the quiz ──────────────────────────────────────

  /** The decimal digits of `n`, as template-literal interpolation of a
      non-negative integer prints them. */
  function Decimal(n: nat): (s: string)
    ensures |s| >= 1
    ensures forall i :: 0 <= i < |s| ==> '0' <= s[i] <= '9'
  {
    var d := ('0' as int + n % 10) as char;
    if n < 10 then [d] else Decimal(n / 10) + [d]
  }

  /** The number a string of decimal digits denotes. */
  function DecimalValue(s: string): nat
    requires forall i :: 0 <= i < |s| ==> '0' <= s[i] <= '9'
  {
    if s == [] then 0
    else DecimalValue(s[..|s| - 1]) * 10 + (s[|s| - 1] as int - '0' as int)
  }

  lemma {:induction false} DecimalRoundTrip(n: nat)
    ensures DecimalValue(Decimal(n)) == n
  {
    var s := Decimal(n);
    var d := ('0' as int + n % 10) as char;
    if n >= 10 {
      DecimalRoundTrip(n / 10);
      assert s[..|s| - 1] == Decimal(n / 10);
    }
    assert s[|s| - 1] == d;
  }

  /** `user_${Date.now()}`. */
  function UserId(now: nat): string {
    "user_" + Decimal(now)
  }

  /** Profiles finalized at different instants get different ids. */
  lemma UserIdInjective(t1: nat, t2: nat)
    ensures UserId(t1) == UserId(t2) <==> t1 == t2
  {
    if UserId(t1) == UserId(t2) {
      assert Decimal(t1) == UserId(t1)[5..];
      assert Decimal(t2) == UserId(t2)[5..];
      DecimalRoundTrip(t1);
      DecimalRoundTrip(t2);
    }
  }

  /** The profile `finalizeQuiz` builds from a draft: each answer the quiz
      did not give falls back to its default. */
  function FinalizedProfile(q: QuizDraft, now: nat): UserProfile {
    UserProfile(
      UserId(now),
      q.name.Or("Beautiful"),
      q.age.Or(Age23To27),
      q.gender.Or(PreferNotToSay),
      q.skinType.Or(Normal),
      q.skinTone.Or(Medium),
      q.concerns.Or([]),
      q.allergies.Or([]),
      UserPreferences(
        q.budgetRange.Or(MidRange),
        q.preferNatural.Or(false),
        q.preferFragranceFree.Or(false),
        q.preferCrueltyFree.Or(false),
        q.preferVegan.Or(false),
        q.stylePreferences.Or([]),
        q.skinGoals.Or([])),
      now,
      now)
  }

  /** The profile of a user who answered nothing. */
  function DefaultProfile(now: nat): UserProfile {
    UserProfile(UserId(now), "Beautiful", Age23To27, PreferNotToSay, Normal, Medium, [], [],
                UserPreferences(MidRange, false, false, false, false, [], []), now, now)
  }

  /** The field `got` of a finalized profile honours the quiz slot `slot`:
      the answer when one was given, `fallback` otherwise. */
  predicate Answered<T(==)>(slot: Slot<T>, got: T, fallback: T) {
    (slot.Given? ==> got == slot.value) && (!slot.Given? ==> got == fallback)
  }

  /** Every given answer is kept; every other field is the default one; the
      id carries the instant of finalizing. */
  lemma FinalizedProfileSpec(q: QuizDraft, now: nat)
    ensures FinalizedProfile(EmptyDraft, now) == DefaultProfile(now)
    ensures var p := FinalizedProfile(q, now);
      var d := DefaultProfile(now);
      && p.id[..5] == "user_" && DecimalValue(p.id[5..]) == now
      && p.createdAt == now && p.updatedAt == now
      && Answered(q.name, p.name, d.name)
      && Answered(q.age, p.age, d.age)
      && Answered(q.gender, p.gender, d.gender)
      && Answered(q.skinType, p.skinType, d.skinType)
      && Answered(q.skinTone, p.skinTone, d.skinTone)
      && Answered(q.concerns, p.concerns, [])
      && Answered(q.allergies, p.allergies, [])
      && Answered(q.budgetRange, p.preferences.budgetRange, MidRange)
      && Answered(q.preferNatural, p.preferences.preferNatural, false)
      && Answered(q.preferFragranceFree, p.preferences.preferFragranceFree, false)
      && Answered(q.preferCrueltyFree, p.preferences.preferCrueltyFree, false)
      && Answered(q.preferVegan, p.preferences.preferVegan, false)
      && Answered(q.stylePreferences, p.preferences.stylePreferences, [])
      && Answered(q.skinGoals, p.preferences.skinGoals, [])
  {
    var p := FinalizedProfile(q, now);
    assert p.id[5..] == Decimal(now);
    DecimalRoundTrip(now);
  }

  // ─── Updating the profile ─────────────────────────────────────

  /** `Partial<UserProfile>`: the fields an update replaces. */
  datatype ProfilePatch = ProfilePatch(
    id: Option<string>,
    name: Option<string>,
    age: Option<AgeRange>,
    gender: Option<Gender>,
    skinType: Option<SkinType>,
    skinTone: Option<SkinTone>,
    concerns: Option<seq<SkinConcern>>,
    allergies: Option<seq<string>>,
    preferences: Option<UserPreferences>,
    createdAt: Option<int>,
    updatedAt: Option<int>)

  const EmptyPatch := ProfilePatch(None, None, None, None, None, None, None, None, None, None, None)

  /** `{ ...current, ...updates, updatedAt: new Date() }`. */
  function Overlay(p: UserProfile, u: ProfilePatch, now: int): UserProfile {
    UserProfile(
      u.id.GetOr(p.id),
      u.name.GetOr(p.name),
      u.age.GetOr(p.age),
      u.gender.GetOr(p.gender),
      u.skinType.GetOr(p.skinType),
      u.skinTone.GetOr(p.skinTone),
      u.concerns.GetOr(p.concerns),
      u.allergies.GetOr(p.allergies),
      u.preferences.GetOr(p.preferences),
      u.createdAt.GetOr(p.createdAt),
      now)
  }

  /** Two patches applied one after the other: the later one wins. */
  function ThenPatch(a: ProfilePatch, b: ProfilePatch): ProfilePatch {
    ProfilePatch(
      if b.id.Some? then b.id else a.id,
      if b.name.Some? then b.name else a.name,
      if b.age.Some? then b.age else a.age,
      if b.gender.Some? then b.gender else a.gender,
      if b.skinType.Some? then b.skinType else a.skinType,
      if b.skinTone.Some? then b.skinTone else a.skinTone,
      if b.concerns.Some? then b.concerns else a.concerns,
      if b.allergies.Some? then b.allergies else a.allergies,
      if b.preferences.Some? then b.preferences else a.preferences,
      if b.createdAt.Some? then b.createdAt else a.createdAt,
      if b.updatedAt.Some? then b.updatedAt else a.updatedAt)
  }

  /** The field `got` of an updated profile honours the patch entry `entry`:
      the patched value when there is one, the field's old value `kept`
      otherwise. */
  predicate Patched<T(==)>(entry: Option<T>, got: T, kept: T) {
    (entry.Some? ==> got == entry.value) && (entry.None? ==> got == kept)
  }

  /** An update replaces the given fields, keeps the others and always
      stamps `updatedAt` with the clock, even over a given `updatedAt`; an
      empty update only refreshes the stamp; two updates are one update with
      the later fields winning. */
  lemma OverlaySpec(p: UserProfile, u: ProfilePatch, v: ProfilePatch, t1: int, t2: int)
    ensures Overlay(p, EmptyPatch, t1) == p.(updatedAt := t1)
    ensures var r := Overlay(p, u, t1);
      && r.updatedAt == t1
      && Patched(u.id, r.id, p.id)
      && Patched(u.name, r.name, p.name)
      && Patched(u.age, r.age, p.age)
      && Patched(u.gender, r.gender, p.gender)
      && Patched(u.skinType, r.skinType, p.skinType)
      && Patched(u.skinTone, r.skinTone, p.skinTone)
      && Patched(u.concerns, r.concerns, p.concerns)
      && Patched(u.allergies, r.allergies, p.allergies)
      && Patched(u.preferences, r.preferences, p.preferences)
      && Patched(u.createdAt, r.createdAt, p.createdAt)
    ensures Overlay(Overlay(p, u, t1), v, t2) == Overlay(p, ThenPatch(u, v), t2)
  {
  }

  // ─── Analysis history ─────────────────────────────────────────

  /** `[result, ...history].slice(0, 50)`. */
  function PushHistory(history: seq<SkinAnalysisResult>, result: SkinAnalysisResult): seq<SkinAnalysisResult> {
    Take([result] + history, MaxHistory)
  }

  /** The newest result comes first, the older ones follow in their order,
      and only the oldest is dropped once fifty are kept. */
  lemma PushHistorySpec(history: seq<SkinAnalysisResult>, result: SkinAnalysisResult)
    ensures var h := PushHistory(history, result);
      && |h| <= MaxHistory
      && |h| == (if |history| < MaxHistory then |history| + 1 else MaxHistory)
      && h[0] == result
      && h[1..] == history[..|h| - 1]
  {
    var h := PushHistory(history, result);
    assert forall i :: 0 <= i < |h| - 1 ==> h[1..][i] == history[i];
  }

  /** Pushing the results one after another. */
  function PushAll(history: seq<SkinAnalysisResult>, results: seq<SkinAnalysisResult>): seq<SkinAnalysisResult>
    decreases |results|
  {
    if results == [] then history
    else PushAll(PushHistory(history, results[0]), results[1..])
  }

  function Reversed<T>(s: seq<T>): (r: seq<T>)
    ensures |r| == |s|
    ensures forall i :: 0 <= i < |s| ==> r[i] == s[|s| - 1 - i]
  {
    if s == [] then [] else Reversed(s[1..]) + [s[0]]
  }

  /** After any run of analyses, a history within the cap holds the most
      recent results, newest first, followed by what was there before, cut
      to fifty. */
  lemma {:induction false} PushAllKeepsLatest(history: seq<SkinAnalysisResult>, results: seq<SkinAnalysisResult>)
    requires |history| <= MaxHistory
    ensures PushAll(history, results) == Take(Reversed(results) + history, MaxHistory)
    decreases |results|
  {
    if results != [] {
      var x, rest := results[0], results[1..];
      PushAllKeepsLatest(PushHistory(history, x), rest);
      TakeAfterPrefix(Reversed(rest), [x] + history, MaxHistory);
      assert Reversed(results) == Reversed(rest) + [x];
      assert Reversed(rest) + ([x] + history) == Reversed(results) + history;
    }
  }

  /** Cutting a list to `n` and then putting a prefix in front of it
      before cutting again loses nothing the second cut would keep. */
  lemma TakeAfterPrefix<T>(p: seq<T>, s: seq<T>, n: nat)
    ensures Take(p + Take(s, n), n) == Take(p + s, n)
  {
    var l, r := Take(p + Take(s, n), n), Take(p + s, n);
    assert |l| == |r|;
    forall i | 0 <= i < |l|
      ensures l[i] == r[i]
    {
      if i >= |p| {
        assert l[i] == Take(s, n)[i - |p|];
      }
    }
  }

  // ─── The store ────────────────────────────────────────────────

  /** A snapshot of every field of the store. */
  datatype StoreState = StoreState(
    hasCompletedOnboarding: bool,
    userProfile: Option<UserProfile>,
    quizStep: int,
    quizData: QuizDraft,
    currentAnalysis: Option<SkinAnalysisResult>,
    analysisHistory: seq<SkinAnalysisResult>,
    activeRoutine: Option<SavedRoutine>,
    savedRoutines: seq<SavedRoutine>,
    journalEntries: seq<SkinJournalEntry>,
    isAnalyzing: bool)

  /** The state the app starts in. */
  const InitialState := StoreState(false, None, 0, EmptyDraft, None, [], None, [], [], false)

  class Store {
    var hasCompletedOnboarding: bool
    var userProfile: Option<UserProfile>
    var quizStep: int
    var quizData: QuizDraft
    var currentAnalysis: Option<SkinAnalysisResult>
    var analysisHistory: seq<SkinAnalysisResult>
    var activeRoutine: Option<SavedRoutine>
    var savedRoutines: seq<SavedRoutine>
    var journalEntries: seq<SkinJournalEntry>
    var isAnalyzing: bool

    function State(): StoreState
      reads this
    {
      StoreState(hasCompletedOnboarding, userProfile, quizStep, quizData, currentAnalysis,
                 analysisHistory, activeRoutine, savedRoutines, journalEntries, isAnalyzing)
    }

    /** The history never holds more than fifty analyses. */
    ghost predicate Valid()
      reads this
    {
      |analysisHistory| <= MaxHistory
    }

    constructor ()
      ensures Valid() && State() == InitialState
    {
      hasCompletedOnboarding := false;
      userProfile := None;
      quizStep := 0;
      quizData := EmptyDraft;
      currentAnalysis := None;
      analysisHistory := [];
      activeRoutine := None;
      savedRoutines := [];
      journalEntries := [];
      isAnalyzing := false;
    }

    method SetOnboardingComplete()
      requires Valid()
      modifies this
      ensures Valid() && State() == old(State()).(hasCompletedOnboarding := true)
    {
      hasCompletedOnboarding := true;
    }

    method SetUserProfile(profile: UserProfile)
      requires Valid()
      modifies this
      ensures Valid() && State() == old(State()).(userProfile := Some(profile))
    {
      userProfile := Some(profile);
    }

    /** Without a profile nothing happens; otherwise the patch is laid over
        the profile and the profile is stamped with `now`. */
    method UpdateProfile(updates: ProfilePatch, now: int)
      requires Valid()
      modifies this
      ensures Valid()
      ensures old(userProfile).None? ==> State() == old(State())
      ensures old(userProfile).Some? ==>
        State() == old(State()).(userProfile := Some(Overlay(old(userProfile).value, updates, now)))
    {
      if userProfile.Some? {
        userProfile := Some(Overlay(userProfile.value, updates, now));
      }
    }

    method SetQuizStep(step: int)
      requires Valid()
      modifies this
      ensures Valid() && State() == old(State()).(quizStep := step)
    {
      quizStep := step;
    }

    method SetQuizData(data: QuizDraft)
      requires Valid()
      modifies this
      ensures Valid() && State() == old(State()).(quizData := MergeQuiz(old(quizData), data))
    {
      quizData := MergeQuiz(quizData, data);
    }

    /** Builds the profile from the quiz answers, marks onboarding complete
        and resets the quiz. */
    method FinalizeQuiz(now: nat)
      requires Valid()
      modifies this
      ensures Valid()
      ensures State() == old(State()).(userProfile := Some(FinalizedProfile(old(quizData), now)),
                                       hasCompletedOnboarding := true,
                                       quizStep := 0,
                                       quizData := EmptyDraft)
    {
      var profile := FinalizedProfile(quizData, now);
      userProfile := Some(profile);
      hasCompletedOnboarding := true;
      quizStep := 0;
      quizData := EmptyDraft;
    }

    /** Makes `result` the current analysis and records it first in the
        history, which keeps its fifty most recent entries. */
    method SetCurrentAnalysis(result: SkinAnalysisResult)
      requires Valid()
      modifies this
      ensures Valid()
      ensures State() == old(State()).(currentAnalysis := Some(result),
                                       analysisHistory := PushHistory(old(analysisHistory), result))
    {
      currentAnalysis := Some(result);
      analysisHistory := PushHistory(analysisHistory, result);
    }

    method ClearCurrentAnalysis()
      requires Valid()
      modifies this
      ensures Valid() && State() == old(State()).(currentAnalysis := None)
    {
      currentAnalysis := None;
    }

    method SetActiveRoutine(routine: SavedRoutine)
      requires Valid()
      modifies this
      ensures Valid() && State() == old(State()).(activeRoutine := Some(routine))
    {
      activeRoutine := Some(routine);
    }

    /** Saves `routine` first among the saved routines and makes it active. */
    method SaveRoutine(routine: SavedRoutine)
      requires Valid()
      modifies this
      ensures Valid()
      ensures State() == old(State()).(savedRoutines := [routine] + old(savedRoutines),
                                       activeRoutine := Some(routine))
    {
      savedRoutines := [routine] + savedRoutines;
      activeRoutine := Some(routine);
    }

    method AddJournalEntry(entry: SkinJournalEntry)
      requires Valid()
      modifies this
      ensures Valid() && State() == old(State()).(journalEntries := [entry] + old(journalEntries))
    {
      journalEntries := [entry] + journalEntries;
    }

    method SetIsAnalyzing(v: bool)
      requires Valid()
      modifies this
      ensures Valid() && State() == old(State()).(isAnalyzing := v)
    {
      isAnalyzing := v;
    }
  }
}
