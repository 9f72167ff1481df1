# Glow AI skin analysis, product recommendations and app store, in Dafny

This project models three parts of Glow AI, a skincare app:

- **The simulated skin analysis** (`src/ml/skinModel.ts`). From a user profile and a set of random draws it:
  - generates eight skin metrics;
  - runs ten threshold rules that detect concerns;
  - adds a mild entry for each concern the user reported that no rule found;
  - sorts the concerns by severity, then by confidence, and keeps the first six;
  - looks up the skin tone from a lightness value;
  - classifies the skin type;
  - computes a weighted overall score;
  - builds a morning, evening and weekly routine;
  - picks up to five headline tips.
- **The product recommendation engine** (`src/services/recommendations.ts`):
  - scores each catalogue product out of 100 with seven weighted terms;
  - explains the match with at most four reasons;
  - ranks products by score with a stable sort;
  - attaches up to two same-category alternatives to each recommendation;
  - builds the per-category lists a routine uses.
- **The app state store** (`src/services/store.ts`). It is a single mutable record of onboarding, profile, quiz, analysis, routine, journal and UI state. Each action replaces some of its fields.

The analysis and recommendation code is pure functions, plus loops that push into local arrays. The pure parts are Dafny functions. Each loop is a Dafny method that is proved equal to a specification function, and the lemmas state what that function promises. The store is the class `AppStore.Store`, with one method per action. Each method states the whole new state of the store and keeps the invariant that the history holds at most fifty analyses.

Modules:

- `Types`: the records and enumerations of `src/types/index.ts`.
- `JsMath`: `Math.round`, `slice(0, n)` and `filter`.
- `Text`: `toLowerCase` and `includes`.
- `Sorting`: a stable sort, with sortedness, permutation and stability lemmas.
- `ToneDetection`, `ConcernRules`, `TypeDetection`, `MetricGeneration`, `ScoreAggregation`, `RoutineGeneration`, `TopRecommendations` and `SkinAnalysis`: the analysis.
- `ProductScoring`, `MatchReasons` and `Recommendations`: the recommendation engine.
- `AppStore`: the store.

## Model

| member | source | states |
|---|---|---|
| `JsMath.Round` | src/ml/skinModel.ts:373 | `Math.round` returns the integer within one half of its argument, with halves rounded up. |
| `JsMath.ClampRound` | src/ml/skinModel.ts:343 | Clamping to [lo, hi] and then rounding gives an integer in [lo, hi]. Inside the range it is plain rounding. |
| `JsMath.Take` | src/services/recommendations.ts:196 | `slice(0, end)` keeps the first `end` elements, or all when fewer. A negative end counts from the back. |
| `JsMath.Keep` | src/services/recommendations.ts:220-224 | `filter` keeps exactly the elements that satisfy the predicate and never adds elements. Its order and multiplicities are stated by the four lemmas below. |
| `JsMath.KeepAppend` | src/services/recommendations.ts:220-224 | Filtering a concatenation is the concatenation of the filtered parts, so `filter` keeps the original order. |
| `JsMath.KeepSingle` | src/services/recommendations.ts:220-224 | Filtering one element keeps it exactly when it satisfies the predicate. |
| `JsMath.KeepMultiset` | src/services/recommendations.ts:220-224 | Every copy of a satisfying element is kept, and no copy of any other element. |
| `JsMath.KeepNone` | src/services/recommendations.ts:220-224 | A list with no satisfying element filters to the empty list. |
| `JsMath.KeepFirstTwo` | src/services/recommendations.ts:220-224 | When positions i < k hold the first two satisfying elements, the first two kept elements are exactly those two, in that order. |
| `Text.LowerIdempotent` | src/services/recommendations.ts:144 | Lower-casing an already lower-cased ingredient name changes nothing. |
| `Text.LowerConcat` | src/services/recommendations.ts:173 | Lower-casing works letter by letter, so it distributes over concatenation. |
| `Text.ContainsMiddle` | src/services/recommendations.ts:144 | `includes` finds a string wherever it sits inside another. |
| `Sorting.SortBy` | src/services/recommendations.ts:215 | The sort returns a permutation of its input: same length, same multiset. |
| `Sorting.SortBySorted` | src/services/recommendations.ts:215 | Under a total preorder the sort's output is ordered. |
| `Sorting.SortByStable` | src/ml/skinModel.ts:572-578 | The sort keeps the input order of elements that compare equal, as `Array.prototype.sort` does. |
| `ToneDetection.FirstBand` | src/ml/skinModel.ts:81-88 | The scan returns the first profile whose half-open band contains the lightness, or reports that none does. |
| `ToneDetection.DetectSkinTone` | src/ml/skinModel.ts:80-90 | The result is the first matching band when one exists. Otherwise it is the medium profile. |
| `ToneDetection.DeclaredLightness` | src/ml/skinModel.ts:541 | For a declared tone, the `find` succeeds and yields the lower end of that tone's band. |
| `ToneDetection.BandsPartition` | src/ml/skinModel.ts:70-78 | The seven bands are contiguous, ordered from lightest to darkest, and together cover [0, 1). |
| `ToneDetection.LookupInUnitInterval` | src/ml/skinModel.ts:80-90 | Every lightness in [0, 1) lies in exactly one band, and the lookup returns that band. |
| `ToneDetection.FullLightnessIsMedium` | src/ml/skinModel.ts:89 | A lightness of exactly 1.0 lies in no band and falls back to medium. |
| `ToneDetection.DeclaredToneRoundTrip` | src/ml/skinModel.ts:539-543 | Looking up a declared tone's lower bound returns that same tone. |
| `ToneDetection.SyntheticLightnessNeverDeep` | src/ml/skinModel.ts:538 | The synthetic lightness `0.3 + r * 0.5` never selects the deep tone. |
| `ConcernRules.Evaluate` | src/ml/skinModel.ts:99-279 | A rule reports a concern exactly when its ladder yields a severity. The report has the rule's concern, that severity, the confidence `base + r * spread`, and the wording for that severity. |
| `ConcernRules.RulesDistinct` | src/ml/skinModel.ts:99-279 | The ten rules report ten different concerns. |
| `ConcernRules.FiringThresholds` | src/ml/skinModel.ts:99-279 | Each rule fires exactly when its outermost threshold holds, in both directions. |
| `ConcernRules.SeverityLadders` | src/ml/skinModel.ts:103-110 | Each rule yields each severity on exactly its thresholds: acne's three nested bands, dryness's three bands, and each moderate cut-off. |
| `ConcernRules.SeverityCeilings` | src/ml/skinModel.ts:200-279 | Only acne and dryness can be severe. Uneven tone and dark circles are only ever mild. |
| `ConcernRules.ConfidenceRange` | src/ml/skinModel.ts:116 | For a draw in [0, 1), a confidence lies in [base, base + spread), and so inside [0.55, 0.9). |
| `ConcernRules.RuleSeverity` | src/ml/skinModel.ts:99-279 | No contract of its own. When each rule fires is stated by `FiringThresholds`, its severities by `SeverityLadders` and `SeverityCeilings`. |
| `TypeDetection.DetectSkinType` | src/ml/skinModel.ts:283-291 | No contract of its own. Its bands are stated by `SkinTypeThresholds` and its agreement with the rules by `TypeAgreesWithRules`. |
| `TypeDetection.TypeAgreesWithRules` | src/ml/skinModel.ts:283-291 | The classification agrees with the rules run on the same metrics. Sensitive implies redness. Combination or dry implies dryness. Oily or combination with texture below 70 implies acne. The type is sensitive exactly when sensitivity exceeds 70. It is normal exactly when sensitivity is at most 70, oiliness at most 60 and hydration at least 40. |
| `TypeDetection.SkinTypeThresholds` | src/ml/skinModel.ts:283-291 | The five types partition the metrics. Each type is chosen exactly on its own band, where every earlier test in the priority order has failed. |
| `MetricGeneration.Clamped` | src/ml/skinModel.ts:342-344 | Each stored channel value is an integer in [0, 100]. |
| `MetricGeneration.GenerateMetrics` | src/ml/skinModel.ts:295-347 | For any draws and any profile, or none, the method returns the specified record and every channel is an integer in [0, 100]. |
| `MetricGeneration.UnbiasedRanges` | src/ml/skinModel.ts:301-310 | Without a profile, every channel stays in its base range, such as hydration 45-85 and oiliness 25-75. |
| `MetricGeneration.ClampedMonotone` | src/ml/skinModel.ts:343 | Clamping and rounding never reverse the order of two values. |
| `MetricGeneration.BiasDirections` | src/ml/skinModel.ts:313-339 | Compared with no profile, the declared skin type and age move their channels the stated way. Oily raises oiliness and lowers pore size. Dry and combination lower hydration. Sensitive raises sensitivity. Ages 18-22 raise elasticity and ages 33+ lower it. |
| `ScoreAggregation.CalculateOverallScore` | src/ml/skinModel.ts:351-374 | The accumulated score equals the specified weighted score and is an integer in [0, 100]. |
| `ScoreAggregation.SumBounds` | src/ml/skinModel.ts:352-373 | For in-range metrics the weights sum to 1 and the oiliness term is at least 3.6, so the sum lies in [3.6, 100]. The clamp therefore never acts, and the score is in [4, 100]. |
| `ScoreAggregation.Monotone` | src/ml/skinModel.ts:364-371 | Raising any channel other than oiliness and sensitivity, or lowering sensitivity, never lowers the sum or the score. |
| `ScoreAggregation.OilinessPeak` | src/ml/skinModel.ts:365 | The oiliness contribution peaks at 45 and falls off on both sides. |
| `ScoreAggregation.Extremes` | src/ml/skinModel.ts:351-374 | The all-0 vector scores 14 and the all-100 vector scores 86. |
| `RoutineGeneration.GenerateRoutine` | src/ml/skinModel.ts:378-523 | No contract of its own. It is the morning, evening and weekly lists below; `DependsOnlyOnKinds` states what it depends on. |
| `RoutineGeneration.Morning` | src/ml/skinModel.ts:382-435 | No contract of its own. Its shape is stated by `MorningShape`. |
| `RoutineGeneration.Evening` | src/ml/skinModel.ts:437-496 | No contract of its own. Its shape is stated by `EveningShape`. |
| `RoutineGeneration.Weekly` | src/ml/skinModel.ts:498-520 | No contract of its own. Its shape is stated by `WeeklyShape`. |
| `RoutineGeneration.MorningSerum` | src/ml/skinModel.ts:404-414 | No contract of its own. Its choices are stated by `MorningSerumPriority`. |
| `RoutineGeneration.EveningSerum` | src/ml/skinModel.ts:465-477 | No contract of its own. Its choices are stated by `EveningSerumPriority`. |
| `RoutineGeneration.MorningShape` | src/ml/skinModel.ts:382-435 | The morning routine has five steps numbered 1-5. None is optional, the serum is third and sunscreen is last. |
| `RoutineGeneration.EveningShape` | src/ml/skinModel.ts:437-496 | The evening routine has six steps numbered 1-6. The serum is fourth, and the eye cream is the only optional step. |
| `RoutineGeneration.MorningSerumPriority` | src/ml/skinModel.ts:404-414 | The morning serum is vitamin C exactly when dark spots or dullness are present. It is hyaluronic acid exactly when only dryness is present. |
| `RoutineGeneration.EveningSerumPriority` | src/ml/skinModel.ts:465-477 | The evening serum is retinol exactly when fine lines or wrinkles are present. It is the acne treatment exactly when acne is present without fine lines or wrinkles. It is azelaic acid exactly when dark spots are present without fine lines, wrinkles or acne. It is peptides exactly when none of the four is present. |
| `RoutineGeneration.WeeklyShape` | src/ml/skinModel.ts:498-520 | The weekly plan is exfoliation, a face mask and a facial massage, in that order, each with its frequency and no product. Exfoliation is BHA exactly when acne or oiliness is present, and AHA otherwise. The mask is hydrating exactly when dryness is present. It is clay exactly for oiliness without dryness, and brightening when neither is present. |
| `RoutineGeneration.DependsOnlyOnKinds` | src/ml/skinModel.ts:378-523 | Two concern lists with the same set of kinds give the same routine. |
| `RoutineGeneration.PermutationSameKinds` | src/ml/skinModel.ts:572-584 | A permutation of a concern list has the same kinds, so sorting cannot change the routine. |
| `TopRecommendations.GenerateTopRecommendations` | src/ml/skinModel.ts:603-632 | The pushes followed by the cut to five give the specified tip list. |
| `TopRecommendations.FrontLayout` | src/ml/skinModel.ts:610-617 | The hydration tip comes first when hydration is below 50, then the vitamin C tip when radiance is below 50, then the sunscreen tip. |
| `TopRecommendations.BackLayout` | src/ml/skinModel.ts:619-629 | After sunscreen come the acne, patch-test and retinol tips, each exactly when its condition holds. The consistency reminder always comes last and occurs only there. |
| `TopRecommendations.CapKeepsEarlyTips` | src/ml/skinModel.ts:610-631 | The cut to five never drops the sunscreen, hydration, vitamin C, acne or patch-test tips. |
| `TopRecommendations.CapDropsRetinol` | src/ml/skinModel.ts:625-631 | The retinol tip survives exactly when fewer than four conditional tips precede it. |
| `TopRecommendations.CapDropsConsistency` | src/ml/skinModel.ts:629-631 | The consistency reminder is cut exactly when more than three conditional tips were pushed. |
| `TopRecommendations.SunscreenAlwaysKept` | src/ml/skinModel.ts:603-632 | Every analysis gets two to five tips, always including the sunscreen tip. |
| `SkinAnalysis.Detected` | src/ml/skinModel.ts:548-553 | The rule loop pushes at most one concern per rule. |
| `SkinAnalysis.DetectedKinds` | src/ml/skinModel.ts:548-553 | After the rule loop, a rule's concern is present exactly when that rule fires, present at most once, and never from a later rule. |
| `SkinAnalysis.DetectedConfidence` | src/ml/skinModel.ts:548-553 | Every rule hit has a confidence in [0.55, 0.9). |
| `SkinAnalysis.Spaced` | src/ml/skinModel.ts:563 | `replace(/-/g, ' ')` turns every hyphen into a space and changes nothing else. |
| `SkinAnalysis.Fallback` | src/ml/skinModel.ts:559-566 | A fallback entry has the reported concern, mild severity and confidence `0.55 + r * 0.2`. |
| `SkinAnalysis.WithFallbacks` | src/ml/skinModel.ts:556-569 | The fallback loop appends at most one entry per reported concern. |
| `SkinAnalysis.FallbacksAppend` | src/ml/skinModel.ts:556-569 | The rule hits stay a prefix. Each appended entry is mild and has a kind no rule produced. |
| `SkinAnalysis.FallbacksDistinct` | src/ml/skinModel.ts:558 | The `find` guard keeps every kind distinct. |
| `SkinAnalysis.FallbacksCover` | src/ml/skinModel.ts:556-569 | After the loop, every reported concern is present. |
| `SkinAnalysis.FallbackConfidence` | src/ml/skinModel.ts:562 | Fallback confidences lie in [0.55, 0.75), so every confidence stays in [0.55, 0.9). |
| `SkinAnalysis.ConcernOrderIsPreorder` | src/ml/skinModel.ts:572-578 | The comparator (severity rank, then descending confidence) is a total preorder. |
| `SkinAnalysis.SortDistinct` | src/ml/skinModel.ts:572-578 | Sorting keeps the kinds distinct. |
| `SkinAnalysis.DetectConcerns` | src/ml/skinModel.ts:547-569 | The two loops produce the rule hits in rule order, followed by the fallbacks in reported order. |
| `SkinAnalysis.RankConcerns` | src/ml/skinModel.ts:547-578 | The loops followed by the sort give the ranked list. |
| `SkinAnalysis.AnalyzeSkin` | src/ml/skinModel.ts:527-601 | Given the draws, id and timestamp, the method returns the specified analysis record. |
| `SkinAnalysis.DeclaredWins` | src/ml/skinModel.ts:539-544 | A profile's declared tone and type are always the detected ones. Without a profile the tone is never deep. |
| `SkinAnalysis.AllConcernsKinds` | src/ml/skinModel.ts:547-569 | Before the sort, kinds are distinct, every reported concern is present, and every firing rule's concern is present. |
| `SkinAnalysis.RankedConcerns` | src/ml/skinModel.ts:572-578 | The sorted list is a permutation of the unsorted one, ordered by severity and then by descending confidence, and keeps the previous facts. |
| `SkinAnalysis.FallbackAppearsOnce` | src/ml/skinModel.ts:556-569 | A reported concern that no rule produced appears exactly once, as a mild entry. |
| `SkinAnalysis.ConfidencesInRange` | src/ml/skinModel.ts:116 | Every confidence lies in [0.55, 0.9). |
| `SkinAnalysis.SortDoesNotMatter` | src/ml/skinModel.ts:584-587 | The routine and the tips computed from the sorted list equal those computed from the unsorted list. |
| `SkinAnalysis.AnalysisHeader` | src/ml/skinModel.ts:589-600 | The analysis carries the given id, image and timestamp. Its metrics are in range and its score is computed from them and lies in [0, 100]. It reports the declared tone and type, or, without a profile, the detected type and a tone other than deep. |
| `SkinAnalysis.AnalysisConcerns` | src/ml/skinModel.ts:596 | The analysis keeps at most six concerns: the top of the ranked list, still ordered and distinct. Every reported concern survives when no more than six were found. |
| `SkinAnalysis.AnalysisAdvice` | src/ml/skinModel.ts:584-587 | The routine and tips use every detected concern, not only the six kept. The analysis has two to five tips, including sunscreen. |
| `ProductScoring.WeightsSumTo100` | src/services/recommendations.ts:21-29 | The seven weights sum to 100. |
| `ProductScoring.MatchIgnoresCase` | src/services/recommendations.ts:144 | Hero matching ignores the case of the ingredient's letters. |
| `ProductScoring.LabelledIngredientTreats` | src/services/recommendations.ts:42-64 | An ingredient whose label contains a hero name for a concern treats that concern, whatever the surrounding text and letter case. |
| `ProductScoring.ScanIngredients` | src/services/recommendations.ts:143-148 | The inner loop with `break` finds a treating key ingredient exactly when one exists. |
| `ProductScoring.IngredientHitsBound` | src/services/recommendations.ts:140-149 | There are at most as many hits as concerns, and none when no concern has a hero ingredient. |
| `ProductScoring.IngredientHitsStep` | src/services/recommendations.ts:141-149 | Each concern adds one hit exactly when some key ingredient is its hero. |
| `ProductScoring.CountIngredientHits` | src/services/recommendations.ts:140-149 | The nested loops count the specified hits. |
| `ProductScoring.CountPreferences` | src/services/recommendations.ts:92-110 | The preference block counts the set flags and, among them, the ones the product meets. |
| `ProductScoring.ScoreProduct` | src/services/recommendations.ts:68-155 | The accumulated score equals the specified score. |
| `ProductScoring.TermBounds` | src/services/recommendations.ts:74-152 | With a rating in [0, 5] and a non-negative log, each term lies between 0 and its weight. |
| `ProductScoring.ScoreBounds` | src/services/recommendations.ts:68-155 | Under the same conditions the score is an integer in [0, 100]. |
| `ProductScoring.NoConcernsNoConcernTerms` | src/services/recommendations.ts:80-82 | Without concerns, the concern term and the ingredient term add nothing. |
| `ProductScoring.SkinTypeTermCases` | src/services/recommendations.ts:85-88 | The analysis's skin type takes precedence over the profile's. The term is the full 20 exactly when that type suits the product, and 0 otherwise. |
| `ProductScoring.PreferenceTermCases` | src/services/recommendations.ts:91-117 | With no profile the term is 0. With no flags set it is 7.5. With every set flag met it is 15. With none met it is 0. |
| `ProductScoring.BudgetTermCases` | src/services/recommendations.ts:119-130 | The term is 10 exactly when the price is within the tier's ceiling (always, for luxury). Over budget it is 3, so an over-budget product is never excluded. With no profile it is 5. |
| `MatchReasons.PushHeroReasons` | src/services/recommendations.ts:170-178 | The concern loop appends the specified hero reasons to what was already pushed. |
| `MatchReasons.GenerateMatchReasons` | src/services/recommendations.ts:157-197 | The pushes followed by the cut to four give the specified reasons. |
| `MatchReasons.HeroReasonsSound` | src/services/recommendations.ts:170-178 | Each hero reason names a listed concern and the non-empty list of key ingredients that treat it. |
| `MatchReasons.HeroReasonsCountHits` | src/services/recommendations.ts:140-178 | There are exactly as many hero reasons as ingredient hits in the score. |
| `MatchReasons.TreatingIffHero` | src/services/recommendations.ts:172-175 | The ingredient filter is non-empty exactly when some key ingredient is a hero. |
| `MatchReasons.AllReasonsStaged` | src/services/recommendations.ts:162-194 | The pushed reasons follow the push order of the kinds. |
| `MatchReasons.ReasonsInPushOrder` | src/services/recommendations.ts:162-196 | The kept reasons run in this order: concern match, hero ingredients, skin type, rating, cruelty-free, vegan. |
| `MatchReasons.ReasonsCapped` | src/services/recommendations.ts:196 | At most four reasons are kept, and they are the first four pushed. |
| `MatchReasons.AllReasonsJustified` | src/services/recommendations.ts:162-194 | Every pushed reason is true of the product, the concerns and the profile. |
| `MatchReasons.ReasonsSound` | src/services/recommendations.ts:157-197 | Every returned reason is justified in the same way. |
| `MatchReasons.ReasonsLead` | src/services/recommendations.ts:164-168 | When some concern is targeted, the concern-match reason comes first and is always kept. |
| `Recommendations.ByScoreIsPreorder` | src/services/recommendations.ts:215 | Descending match score is a total preorder. |
| `Recommendations.ScoreAll` | src/services/recommendations.ts:207-212 | The `map` gives each product, in catalogue order, its score, its reasons and no alternatives. |
| `Recommendations.ScoreOne` | src/services/recommendations.ts:207-212 | The `map` callback builds one product's entry: the scorer's score, the reason generator's reasons, and no alternatives. |
| `Recommendations.GetRecommendations` | src/services/recommendations.ts:201-230 | The scoring, the sort, the alternatives loop and the cut to `limit` give the specified list. |
| `Recommendations.ScoredAllMembers` | src/services/recommendations.ts:207-212 | Every scored entry comes from a catalogue product, and every product has its entry. |
| `Recommendations.RankedMembers` | src/services/recommendations.ts:207-215 | The ranking has one entry per product and holds exactly the scored entries. |
| `Recommendations.RankedSorted` | src/services/recommendations.ts:215 | Scores are non-increasing along the ranking. |
| `Recommendations.RankedStable` | src/services/recommendations.ts:215 | Entries with equal scores keep their catalogue order. |
| `Recommendations.AlternativesShape` | src/services/recommendations.ts:219-226 | At most two alternatives are picked. Each is another product of the same category from the ranking. There are none exactly when no such product exists. |
| `Recommendations.AlternativesLead` | src/services/recommendations.ts:219-226 | The first alternative is the best-ranked other product of the same category. |
| `Recommendations.AlternativesSecond` | src/services/recommendations.ts:219-226 | When positions i < k hold the first two other products of the same category in the ranking, the alternatives are exactly their ids, in that order. |
| `Recommendations.RecommendationsSpec` | src/services/recommendations.ts:201-230 | The result has `min(limit, catalogue size)` entries, with non-increasing scores. Each entry is a catalogue product with its score, its reasons and its alternatives from the whole ranking. |
| `Recommendations.RecommendationsComplete` | src/services/recommendations.ts:229 | When the limit covers the catalogue, every product is recommended. |
| `Recommendations.CategoryProducts` | src/services/recommendations.ts:238 | The filter keeps exactly the catalogue products of the category. |
| `Recommendations.CategoryProductsIsFilter` | src/services/recommendations.ts:238 | The selection is `filter` by category, so the `Keep` lemmas apply to it. |
| `Recommendations.CategoryProductsAppend` | src/services/recommendations.ts:238 | Selecting from a concatenation selects from each part in turn, so catalogue order is kept. |
| `Recommendations.CategoryProductsMultiset` | src/services/recommendations.ts:238 | Every copy of a product of the category is kept, and no copy of any other product. |
| `Recommendations.GetRecommendationsByCategory` | src/services/recommendations.ts:232-250 | The filter, the `map` and the sort give the specified category list. |
| `Recommendations.ByCategorySpec` | src/services/recommendations.ts:232-250 | Every entry is a product of the category with its score and reasons and no alternatives. Every such product is listed, and scores are non-increasing. |
| `Recommendations.GetRoutineRecommendations` | src/services/recommendations.ts:252-273 | The record has exactly the six routine categories as keys, each mapped to that category's list. |
| `AppStore.Slot.Or` | src/services/store.ts:101-119 | `??` yields a given value and falls back on a missing or `undefined` one. |
| `AppStore.Over` | src/services/store.ts:97 | After a spread, a key present in the update wins, even when it holds `undefined`. Otherwise the old value stays. |
| `AppStore.MergeQuiz` | src/services/store.ts:96-97 | No contract of its own. Its laws are stated by `MergeQuizLaws`, and what it does to each key by `Over`. |
| `AppStore.MergeQuizLaws` | src/services/store.ts:96-97 | Merging quiz data has the empty draft as unit, is idempotent for a repeated update, and two successive merges equal one merge of the combined update. |
| `AppStore.Decimal` | src/services/store.ts:100 | An instant prints as a non-empty string of decimal digits. |
| `AppStore.DecimalRoundTrip` | src/services/store.ts:100 | Reading the printed digits back gives the instant. |
| `AppStore.UserIdInjective` | src/services/store.ts:100 | Profiles finalized at different instants get different `user_` ids, and only those do. |
| `AppStore.FinalizedProfile` | src/services/store.ts:98-122 | No contract of its own. What it builds is stated by `FinalizedProfileSpec`. |
| `AppStore.FinalizedProfileSpec` | src/services/store.ts:98-122 | For each of the fourteen quiz keys, the finalized profile holds the given answer, or the key's default when none was given. The defaults are: name Beautiful, age 23-27, gender prefer-not-to-say, skin type normal, tone medium, budget mid-range, the four flags false, and the four lists empty. An empty quiz gives the all-default profile. The id is `user_` plus the instant, and both stamps are the instant. |
| `AppStore.Overlay` | src/services/store.ts:85-90 | No contract of its own. What it builds is stated by `OverlaySpec`. |
| `AppStore.OverlaySpec` | src/services/store.ts:85-90 | For each of the ten fields other than `updatedAt`, the updated profile holds the patched value when the update gives one, and the old value otherwise. `updatedAt` is always the clock, even when the update gives one. An empty update only refreshes the stamp. Two updates equal one update in which the later fields win. |
| `AppStore.PushHistory` | src/services/store.ts:132-136 | No contract of its own. What it builds is stated by `PushHistorySpec`. |
| `AppStore.PushHistorySpec` | src/services/store.ts:132-136 | The new result comes first and the older ones follow in order. The history grows by one until it holds fifty, then the oldest entry is dropped. |
| `AppStore.PushAllKeepsLatest` | src/services/store.ts:132-136 | After any run of analyses, the history is the newest results, newest first, followed by the earlier history, cut to fifty. |
| `AppStore.Store.constructor` | src/services/store.ts:77-158 | The store starts with no profile, step 0, an empty quiz, no analysis and empty lists, and satisfies the cap. |
| `AppStore.Store.SetOnboardingComplete` | src/services/store.ts:80 | The action sets the onboarding flag and nothing else. |
| `AppStore.Store.SetUserProfile` | src/services/store.ts:84 | The action sets the profile and nothing else. |
| `AppStore.Store.UpdateProfile` | src/services/store.ts:85-90 | Without a profile nothing changes. Otherwise only the profile changes, to the stamped overlay. |
| `AppStore.Store.SetQuizStep` | src/services/store.ts:95 | The action sets the quiz step and nothing else. |
| `AppStore.Store.SetQuizData` | src/services/store.ts:96-97 | Only the quiz data changes, to the right-biased merge. |
| `AppStore.Store.FinalizeQuiz` | src/services/store.ts:98-127 | The profile becomes the finalized one, onboarding is complete, the step is 0, the quiz is empty, and nothing else changes. |
| `AppStore.Store.SetCurrentAnalysis` | src/services/store.ts:132-136 | The current analysis becomes the result and the history becomes the capped push. The history stays within fifty entries. |
| `AppStore.Store.ClearCurrentAnalysis` | src/services/store.ts:137 | Only the current analysis is cleared. The history and every other field are unchanged. |
| `AppStore.Store.SetActiveRoutine` | src/services/store.ts:142 | The action sets the active routine and nothing else. |
| `AppStore.Store.SaveRoutine` | src/services/store.ts:143-147 | The routine is prepended to the saved routines and made active, and nothing else changes. |
| `AppStore.Store.AddJournalEntry` | src/services/store.ts:151-154 | The entry is prepended to the journal, and nothing else changes. |
| `AppStore.Store.SetIsAnalyzing` | src/services/store.ts:158 | The action sets the analyzing flag and nothing else. |

## Left out

- **Numbers.** Arithmetic is exact over reals, not IEEE doubles. Rounding differences of floating point are not modelled.
- **`Math.log10`.** It is a function parameter, and the bound lemmas assume it is non-negative at `reviewCount + 1`.
- **Randomness.** Every `Math.random()` draw is an explicit input in [0, 1). Each concern rule gets its own draw, indexed by the rule's position.
- **Time and ids.**
  - The analysis id and timestamp are inputs.
  - The store's clock is one `now` argument. `finalizeQuiz` reads the clock three times and may see different milliseconds; the model uses a single instant.
- **Simulated work.** The simulated delays (`setTimeout`), the model loading flag, `initializeModel`, `isReady` and the unused `rgbToHsl` are not modelled.
- **Texts.** Descriptions, tips, routine phrases and match reasons are keys (`Wording`, `Phrase`, `Tip`, `MatchReason`) rendered by text functions. The exact formatting of numbers in a reason (`toLocaleString`) and the string joins are not modelled.
- **The product catalogue.** `src/data/products` is not part of this model. The catalogue is a parameter.
- **Defaults and dead code.**
  - The default `limit` of 10 is left to the caller.
  - The `?? []` fallback on the hero table never applies, because the table covers every concern.
- **Sorting.** `Array.prototype.sort` is modelled by a stable insertion sort on values. Modern engines sort stably, so the order is the same, but the sort happens on a copy rather than in place.
- **Extracted loops.** Some inner loops are separate methods, each proved against the same specification as the surrounding code: `ScanIngredients`, `CountIngredientHits`, `CountPreferences`, `PushHeroReasons`, `ScoreAll`, `DetectConcerns` and `RankConcerns`.
- **Profile shape.** The types make `preferences` and its `budgetRange` mandatory, so the optional-chaining branches for a profile without them coincide with "no profile".
- `Recommendations.GetRoutineRecommendations`: the record holds only the six routine categories. The source declares a record over every category but fills only these six.
- `AppStore.OverlaySpec`: a profile patch models a field as either present with a value or absent. An explicit `undefined` in `Partial<UserProfile>`, which the spread would copy over a field, is not modelled. Quiz drafts do model it.
- `ProductScoring.MatchIgnoresCase`: case folding (`Text.LowerChar`, `Text.Lower`, and so `Text.LowerConcat`) maps only the ASCII letters A-Z. JavaScript's `toLowerCase` folds all of Unicode and depends on context. For example, U+212A KELVIN SIGN lowers to `k`, and a Greek capital sigma lowers to a final sigma at the end of a word. The lemma holds for ASCII ingredient names only.
- `ProductScoring.LabelledIngredientTreats`: it relies on the same ASCII-only case folding. A label whose hero name matches only under Unicode case folding is not covered.
- **Outside the model.** The Zustand subscription and rendering machinery, every screen and component, Firebase and the other services are not modelled.
