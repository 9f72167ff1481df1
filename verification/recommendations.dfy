/** The public API of the recommendation engine
    (src/services/recommendations.ts:201-273): every catalogue product is
    scored and explained, the list is sorted by score, each entry gets up to
    two same-category alternatives, and the list is cut to a limit. The
    catalogue (`PRODUCTS`) is a parameter. */
module Recommendations {
  import opened Types
  import opened JsMath
  import opened Sorting
  import ProductScoring
  import MatchReasons

  /** The comparator `b.matchScore - a.matchScore`: `a` may stay in front of
      `b` when its score is at least `b`'s. */
  predicate ByScore(a: ProductRecommendation, b: ProductRecommendation) {
    a.matchScore >= b.matchScore
  }

  lemma ByScoreIsPreorder()
    ensures TotalPreorder(ByScore)
  {
  }

  /** The entry built for one product before sorting: its score, its
      reasons and no alternatives yet. */
  function Scored(p: Product, concerns: seq<SkinConcern>, profile: Option<UserProfile>,
                  analysis: Option<SkinAnalysisResult>, log10: real -> real): ProductRecommendation
  {
    ProductRecommendation(p, ProductScoring.Score(p, concerns, profile, analysis, log10),
                          MatchReasons.Reasons(p, concerns, profile), [])
  }

  /** `products.map(product => ({ product, matchScore, matchReasons, alternativeIds: [] }))`. */
  function ScoredAll(products: seq<Product>, concerns: seq<SkinConcern>, profile: Option<UserProfile>,
                     analysis: Option<SkinAnalysisResult>, log10: real -> real): seq<ProductRecommendation>
  {
    seq(|products|, i requires 0 <= i < |products| => Scored(products[i], concerns, profile, analysis, log10))
  }

  /** The scored catalogue after `scored.sort(...)`. */
  function Ranked(catalog: seq<Product>, concerns: seq<SkinConcern>, profile: Option<UserProfile>,
                  analysis: Option<SkinAnalysisResult>, log10: real -> real): seq<ProductRecommendation>
  {
    SortBy(ScoredAll(catalog, concerns, profile, analysis, log10), ByScore)
  }

  function Products(recs: seq<ProductRecommendation>): seq<Product> {
    seq(|recs|, i requires 0 <= i < |recs| => recs[i].product)
  }

  function Ids(products: seq<Product>): seq<string> {
    seq(|products|, i requires 0 <= i < |products| => products[i].id)
  }

  /** `alt` can stand in for `p`: another product of the same category. */
  predicate IsAlternative(p: Product, alt: Product) {
    alt.id != p.id && alt.category == p.category
  }

  /** `rec.alternativeIds` for the product `p`: the ids of the first two
      alternatives in ranking order. */
  function Alternatives(ranking: seq<Product>, p: Product): seq<string> {
    Ids(Take(Keep(ranking, alt => IsAlternative(p, alt)), 2))
  }

  /** The ranked list once the alternatives loop has run over it. */
  function WithAlternatives(ranked: seq<ProductRecommendation>): seq<ProductRecommendation> {
    seq(|ranked|, i requires 0 <= i < |ranked| =>
      ranked[i].(alternativeIds := Alternatives(Products(ranked), ranked[i].product)))
  }

  /** What `getRecommendations` returns. */
  function Recommendations(catalog: seq<Product>, concerns: seq<SkinConcern>, profile: Option<UserProfile>,
                           analysis: Option<SkinAnalysisResult>, limit: int, log10: real -> real)
    : seq<ProductRecommendation>
  {
    Take(WithAlternatives(Ranked(catalog, concerns, profile, analysis, log10)), limit)
  }

  /** The `map` that scores and explains every product, calling the scorer
      and the reason generator once per product. */
  method ScoreAll(products: seq<Product>, concerns: seq<SkinConcern>, profile: Option<UserProfile>,
                  analysis: Option<SkinAnalysisResult>, log10: real -> real)
    returns (scored: seq<ProductRecommendation>)
    ensures scored == ScoredAll(products, concerns, profile, analysis, log10)
  {
    scored := [];
    for i := 0 to |products|
      invariant |scored| == i
      invariant forall j :: 0 <= j < i ==> scored[j] == Scored(products[j], concerns, profile, analysis, log10)
    {
      var rec := ScoreOne(products[i], concerns, profile, analysis, log10);
      scored := scored + [rec];
    }
  }

  /** The body of the `map`: one product's entry. */
  method ScoreOne(product: Product, concerns: seq<SkinConcern>, profile: Option<UserProfile>,
                  analysis: Option<SkinAnalysisResult>, log10: real -> real)
    returns (rec: ProductRecommendation)
    ensures rec == Scored(product, concerns, profile, analysis, log10)
  {
    var matchScore := ProductScoring.ScoreProduct(product, concerns, profile, analysis, log10);
    var matchReasons := MatchReasons.GenerateMatchReasons(product, concerns, profile);
    rec := ProductRecommendation(product, matchScore, matchReasons, []);
  }

  /** `getRecommendations`: score, sort by descending score, attach the
      alternatives and keep the first `limit` entries. */
  method GetRecommendations(catalog: seq<Product>, concerns: seq<SkinConcern>, profile: Option<UserProfile>,
                            analysis: Option<SkinAnalysisResult>, limit: int, log10: real -> real)
    returns (recs: seq<ProductRecommendation>)
    ensures recs == Recommendations(catalog, concerns, profile, analysis, limit, log10)
  {
    var scored := ScoreAll(catalog, concerns, profile, analysis, log10);
    scored := SortBy(scored, ByScore);
    ghost var ranked := scored;
    for i := 0 to |scored|
      invariant |scored| == |ranked|
      invariant Products(scored) == Products(ranked)
      invariant forall j :: 0 <= j < i ==> scored[j] == WithAlternatives(ranked)[j]
      invariant forall j :: i <= j < |scored| ==> scored[j] == ranked[j]
    {
      var rec := scored[i];
      var updated := rec.(alternativeIds := Alternatives(Products(scored), rec.product));
      scored := scored[i := updated];
    }
    assert scored == WithAlternatives(ranked);
    recs := scored[..SliceEnd(|scored|, limit)];
  }

  /** The scored list holds exactly one scored entry per product. */
  lemma ScoredAllMembers(products: seq<Product>, concerns: seq<SkinConcern>, profile: Option<UserProfile>,
                         analysis: Option<SkinAnalysisResult>, log10: real -> real)
    ensures forall r :: r in ScoredAll(products, concerns, profile, analysis, log10)
              ==> r.product in products && r == Scored(r.product, concerns, profile, analysis, log10)
    ensures forall p :: p in products ==>
              Scored(p, concerns, profile, analysis, log10) in ScoredAll(products, concerns, profile, analysis, log10)
  {
    var s := ScoredAll(products, concerns, profile, analysis, log10);
    forall p | p in products ensures Scored(p, concerns, profile, analysis, log10) in s {
      var i :| 0 <= i < |products| && products[i] == p;
      assert s[i] == Scored(p, concerns, profile, analysis, log10);
    }
  }

  /** Sorting keeps every scored entry: a product is in the ranking exactly
      when it is in the catalogue, with its own score and reasons. */
  lemma {:induction false} RankedMembers(catalog: seq<Product>, concerns: seq<SkinConcern>,
                                         profile: Option<UserProfile>,
                                         analysis: Option<SkinAnalysisResult>, log10: real -> real)
    ensures var r := Ranked(catalog, concerns, profile, analysis, log10);
      && |r| == |catalog|
      && (forall x :: x in r ==> x.product in catalog && x == Scored(x.product, concerns, profile, analysis, log10))
      && (forall p :: p in catalog ==> Scored(p, concerns, profile, analysis, log10) in r)
  {
    var s := ScoredAll(catalog, concerns, profile, analysis, log10);
    var r := Ranked(catalog, concerns, profile, analysis, log10);
    ScoredAllMembers(catalog, concerns, profile, analysis, log10);
    assert forall x :: x in r <==> x in s by {
      forall x ensures x in r <==> x in s {
        assert x in r <==> x in multiset(r);
        assert x in s <==> x in multiset(s);
      }
    }
  }

  /** The ranking is in non-increasing score order. */
  lemma {:induction false} RankedSorted(catalog: seq<Product>, concerns: seq<SkinConcern>,
                                        profile: Option<UserProfile>,
                                        analysis: Option<SkinAnalysisResult>, log10: real -> real)
    ensures var r := Ranked(catalog, concerns, profile, analysis, log10);
      forall i, j :: 0 <= i < j < |r| ==> r[i].matchScore >= r[j].matchScore
  {
    ByScoreIsPreorder();
    SortBySorted(ScoredAll(catalog, concerns, profile, analysis, log10), ByScore);
  }

  /** Products with equal scores keep their catalogue order: for every
      entry `x`, the entries scoring the same as `x` appear in the ranking
      in the order they had in the catalogue. */
  lemma {:induction false} RankedStable(catalog: seq<Product>, concerns: seq<SkinConcern>,
                                        profile: Option<UserProfile>,
                                        analysis: Option<SkinAnalysisResult>, log10: real -> real,
                                        x: ProductRecommendation)
    ensures Ties(Ranked(catalog, concerns, profile, analysis, log10), x, ByScore)
         == Ties(ScoredAll(catalog, concerns, profile, analysis, log10), x, ByScore)
  {
    ByScoreIsPreorder();
    SortByStable(ScoredAll(catalog, concerns, profile, analysis, log10), x, ByScore);
  }

  /** At most two alternatives, fewer only when fewer exist; none is the
      product itself, each is a product of the same category from the
      ranking, and there are none exactly when no such product exists. */
  lemma AlternativesShape(ranking: seq<Product>, p: Product)
    ensures var a := Alternatives(ranking, p);
      && |a| == SliceEnd(|Keep(ranking, alt => IsAlternative(p, alt))|, 2)
      && (forall id :: id in a ==>
            id != p.id && exists q :: q in ranking && q.id == id && q.category == p.category)
      && (a == [] <==> forall q :: q in ranking ==> !IsAlternative(p, q))
  {
    var k := Keep(ranking, alt => IsAlternative(p, alt));
    var t := Take(k, 2);
    var a := Alternatives(ranking, p);
    forall id | id in a
      ensures id != p.id && exists q :: q in ranking && q.id == id && q.category == p.category
    {
      var i :| 0 <= i < |a| && a[i] == id;
      assert t[i] in t;
      InTake(k, 2, t[i]);
    }
    if a != [] {
      assert t[0] in t;
      InTake(k, 2, t[0]);
    }
  }

  /** The first alternative is the best-ranked product that can stand in
      for `p`. */
  lemma AlternativesLead(ranking: seq<Product>, p: Product, i: nat)
    requires i < |ranking| && IsAlternative(p, ranking[i])
    requires forall j :: 0 <= j < i ==> !IsAlternative(p, ranking[j])
    ensures Alternatives(ranking, p) != [] && Alternatives(ranking, p)[0] == ranking[i].id
  {
    KeepFirst(ranking, alt => IsAlternative(p, alt), i);
  }

  /** The alternatives are the first two products, in ranking order, that
      can stand in for `p`. */
  lemma {:induction false} AlternativesSecond(ranking: seq<Product>, p: Product, i: nat, k: nat)
    requires i < k < |ranking|
    requires IsAlternative(p, ranking[i]) && IsAlternative(p, ranking[k])
    requires forall j :: 0 <= j < k && j != i ==> !IsAlternative(p, ranking[j])
    ensures Alternatives(ranking, p) == [ranking[i].id, ranking[k].id]
  {
    KeepFirstTwo(ranking, alt => IsAlternative(p, alt), i, k);
  }

  /** `getRecommendations` returns the first `limit` entries of the ranking
      (`slice` semantics for a negative limit), in non-increasing score
      order; each entry carries its own product's score and reasons, that
      product is in the catalogue, and its alternatives are drawn from the
      whole ranking, not only from the returned entries. */
  lemma {:induction false} RecommendationsSpec(catalog: seq<Product>, concerns: seq<SkinConcern>,
                                               profile: Option<UserProfile>,
                                               analysis: Option<SkinAnalysisResult>, limit: int,
                                               log10: real -> real)
    ensures var r := Ranked(catalog, concerns, profile, analysis, log10);
      var recs := Recommendations(catalog, concerns, profile, analysis, limit, log10);
      && |recs| == SliceEnd(|catalog|, limit)
      && (forall i, j :: 0 <= i < j < |recs| ==> recs[i].matchScore >= recs[j].matchScore)
      && (forall i :: 0 <= i < |recs| ==>
            && recs[i].product == r[i].product
            && recs[i].product in catalog
            && recs[i].matchScore == ProductScoring.Score(recs[i].product, concerns, profile, analysis, log10)
            && recs[i].matchReasons == MatchReasons.Reasons(recs[i].product, concerns, profile)
            && recs[i].alternativeIds == Alternatives(Products(r), recs[i].product))
  {
    var r := Ranked(catalog, concerns, profile, analysis, log10);
    var recs := Recommendations(catalog, concerns, profile, analysis, limit, log10);
    RankedMembers(catalog, concerns, profile, analysis, log10);
    RankedSorted(catalog, concerns, profile, analysis, log10);
    forall i | 0 <= i < |recs|
      ensures recs[i].product in catalog
      ensures recs[i].matchScore == ProductScoring.Score(recs[i].product, concerns, profile, analysis, log10)
    {
      assert recs[i].product == r[i].product && recs[i].matchScore == r[i].matchScore;
      assert r[i] in r;
    }
  }

  /** With a limit covering the catalogue, every catalogue product is
      recommended. */
  lemma {:induction false} RecommendationsComplete(catalog: seq<Product>, concerns: seq<SkinConcern>,
                                                   profile: Option<UserProfile>,
                                                   analysis: Option<SkinAnalysisResult>, limit: int,
                                                   log10: real -> real, p: Product)
    requires limit >= |catalog| && p in catalog
    ensures exists i :: 0 <= i < |Recommendations(catalog, concerns, profile, analysis, limit, log10)|
              && Recommendations(catalog, concerns, profile, analysis, limit, log10)[i].product == p
  {
    var r := Ranked(catalog, concerns, profile, analysis, log10);
    var recs := Recommendations(catalog, concerns, profile, analysis, limit, log10);
    RankedMembers(catalog, concerns, profile, analysis, log10);
    var x := Scored(p, concerns, profile, analysis, log10);
    assert x in r;
    var i :| 0 <= i < |r| && r[i] == x;
    assert recs[i].product == p;
  }

  /** `products.filter(p => p.category === category)`. */
  function CategoryProducts(catalog: seq<Product>, category: ProductCategory): (r: seq<Product>)
    ensures forall p :: p in r <==> p in catalog && p.category == category
  {
    if catalog == [] then []
    else (if catalog[0].category == category then [catalog[0]] else []) + CategoryProducts(catalog[1..], category)
  }

  /** Selecting a category is filtering the catalogue by it. */
  lemma {:induction false} CategoryProductsIsFilter(catalog: seq<Product>, category: ProductCategory)
    ensures CategoryProducts(catalog, category) == Keep(catalog, (p: Product) => p.category == category)
  {
    if catalog != [] {
      CategoryProductsIsFilter(catalog[1..], category);
    }
  }

  /** Selecting from a concatenation selects from each part in turn: the
      selection keeps catalogue order. */
  lemma CategoryProductsAppend(catalog: seq<Product>, more: seq<Product>, category: ProductCategory)
    ensures CategoryProducts(catalog + more, category)
            == CategoryProducts(catalog, category) + CategoryProducts(more, category)
  {
    CategoryProductsIsFilter(catalog + more, category);
    CategoryProductsIsFilter(catalog, category);
    CategoryProductsIsFilter(more, category);
    KeepAppend(catalog, more, (p: Product) => p.category == category);
  }

  /** The selection keeps every copy of each product of the category and no
      copy of any other product. */
  lemma CategoryProductsMultiset(catalog: seq<Product>, category: ProductCategory)
    ensures forall q :: multiset(CategoryProducts(catalog, category))[q]
                        == if q.category == category then multiset(catalog)[q] else 0
  {
    CategoryProductsIsFilter(catalog, category);
    KeepMultiset(catalog, (p: Product) => p.category == category);
  }

  /** What `getRecommendationsByCategory` returns. */
  function ByCategory(catalog: seq<Product>, category: ProductCategory, concerns: seq<SkinConcern>,
                      profile: Option<UserProfile>, analysis: Option<SkinAnalysisResult>,
                      log10: real -> real): seq<ProductRecommendation>
  {
    SortBy(ScoredAll(CategoryProducts(catalog, category), concerns, profile, analysis, log10), ByScore)
  }

  /** `getRecommendationsByCategory`: the category's products, scored and
      sorted, with no alternatives and no limit. */
  method GetRecommendationsByCategory(catalog: seq<Product>, category: ProductCategory,
                                      concerns: seq<SkinConcern>, profile: Option<UserProfile>,
                                      analysis: Option<SkinAnalysisResult>, log10: real -> real)
    returns (recs: seq<ProductRecommendation>)
    ensures recs == ByCategory(catalog, category, concerns, profile, analysis, log10)
  {
    var categoryProducts := CategoryProducts(catalog, category);
    var scored := ScoreAll(categoryProducts, concerns, profile, analysis, log10);
    recs := SortBy(scored, ByScore);
  }

  /** The category list holds exactly the scored products of that category,
      in non-increasing score order, none with alternatives. */
  lemma {:induction false} ByCategorySpec(catalog: seq<Product>, category: ProductCategory,
                                          concerns: seq<SkinConcern>, profile: Option<UserProfile>,
                                          analysis: Option<SkinAnalysisResult>, log10: real -> real)
    ensures var b := ByCategory(catalog, category, concerns, profile, analysis, log10);
      && (forall x :: x in b ==>
            && x.product in catalog && x.product.category == category
            && x == Scored(x.product, concerns, profile, analysis, log10) && x.alternativeIds == [])
      && (forall p :: p in catalog && p.category == category ==> Scored(p, concerns, profile, analysis, log10) in b)
      && (forall i, j :: 0 <= i < j < |b| ==> b[i].matchScore >= b[j].matchScore)
  {
    var products := CategoryProducts(catalog, category);
    RankedMembers(products, concerns, profile, analysis, log10);
    RankedSorted(products, concerns, profile, analysis, log10);
  }

  /** The six categories of a routine, in routine order. */
  const RoutineCategories: seq<ProductCategory> := [Cleanser, Toner, Serum, Moisturizer, Sunscreen, EyeCream]

  /** One step of a loop that stores `f(k)` under each key `k` of `keys`
      in turn. */
  lemma StoreStep<K, V>(m: map<K, V>, keys: seq<K>, i: nat, f: K -> V, v: V, stored: map<K, V>)
    requires i < |keys| && stored == m[keys[i] := v]
    requires forall k :: k in m <==> k in keys[..i]
    requires forall k :: k in m ==> m[k] == f(k)
    requires v == f(keys[i])
    ensures forall k :: k in stored <==> k in keys[..i + 1]
    ensures forall k :: k in stored ==> stored[k] == f(k)
  {
    assert keys[..i + 1] == keys[..i] + [keys[i]];
  }

  /** `getRoutineRecommendations`: one category list per routine category.
      The record holds those six keys and no other, although the source
      declares a record over every category. */
  method GetRoutineRecommendations(catalog: seq<Product>, concerns: seq<SkinConcern>,
                                   profile: Option<UserProfile>, analysis: Option<SkinAnalysisResult>,
                                   log10: real -> real)
    returns (result: map<ProductCategory, seq<ProductRecommendation>>)
    ensures forall c :: c in result <==> c in RoutineCategories
    ensures forall c :: c in result ==> result[c] == ByCategory(catalog, c, concerns, profile, analysis, log10)
  {
    ghost var lists := c => ByCategory(catalog, c, concerns, profile, analysis, log10);
    result := map[];
    for i := 0 to |RoutineCategories|
      invariant forall c :: c in result <==> c in RoutineCategories[..i]
      invariant forall c :: c in result ==> result[c] == lists(c)
    {
      var category := RoutineCategories[i];
      var recs := GetRecommendationsByCategory(catalog, category, concerns, profile, analysis, log10);
      StoreStep(result, RoutineCategories, i, lists, recs, result[category := recs]);
      result := result[category := recs];
    }
    assert RoutineCategories[..|RoutineCategories|] == RoutineCategories;
  }
}
