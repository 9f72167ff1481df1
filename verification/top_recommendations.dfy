/** The short list of headline tips attached to an analysis
    (src/ml/skinModel.ts:603-632): tips are pushed in a fixed order, each
    behind its own condition, and the list is cut to its first five. */
module TopRecommendations {
  import opened Types
  import opened JsMath

  /** Every tip whose condition holds, in push order, before the cap; the
      flags are the five conditions in push order. */
  function Pushed(hydration: bool, radiance: bool, acne: bool, sensitive: bool, lines: bool): seq<Tip> {
    Opt(hydration, BoostHydration)
    + Opt(radiance, AddVitaminC)
    + [NeverSkipSunscreen]
    + Opt(acne, AvoidTouchingFace)
    + Opt(sensitive, PatchTest)
    + Opt(lines, StartRetinol)
    + [ConsistencyOverCost]
  }

  /** The tips pushed up to and including the sunscreen reminder. */
  function Front(hydration: bool, radiance: bool): seq<Tip> {
    Opt(hydration, BoostHydration) + Opt(radiance, AddVitaminC) + [NeverSkipSunscreen]
  }

  /** The tips pushed after the sunscreen reminder. */
  function Back(acne: bool, sensitive: bool, lines: bool): seq<Tip> {
    Opt(acne, AvoidTouchingFace) + Opt(sensitive, PatchTest) + Opt(lines, StartRetinol)
    + [ConsistencyOverCost]
  }

  lemma PushedSplit(hydration: bool, radiance: bool, acne: bool, sensitive: bool, lines: bool)
    ensures Pushed(hydration, radiance, acne, sensitive, lines)
            == Front(hydration, radiance) + Back(acne, sensitive, lines)
  {
  }

  function Candidates(concerns: seq<DetectedConcern>, m: SkinMetrics, t: SkinType): seq<Tip> {
    Pushed(m.hydration < 50, m.radiance < 50, HasKind(concerns, Acne), t == Sensitive,
           HasKind(concerns, FineLines))
  }

  /** The list the source returns: the candidates cut to five. */
  function TopTips(concerns: seq<DetectedConcern>, m: SkinMetrics, t: SkinType): seq<Tip> {
    Take(Candidates(concerns, m, t), 5)
  }

  /** `generateTopRecommendations`: pushes the applicable tips into `recs`,
      then keeps its first five entries. */
  method GenerateTopRecommendations(concerns: seq<DetectedConcern>, m: SkinMetrics, t: SkinType)
    returns (recs: seq<Tip>)
    ensures recs == TopTips(concerns, m, t)
  {
    var pushed: seq<Tip> := [];
    if m.hydration < 50 {
      pushed := pushed + [BoostHydration];
    }
    assert pushed == Opt(m.hydration < 50, BoostHydration);
    ghost var before := pushed;
    if m.radiance < 50 {
      pushed := pushed + [AddVitaminC];
    }
    assert pushed == before + Opt(m.radiance < 50, AddVitaminC);
    pushed := pushed + [NeverSkipSunscreen];
    before := pushed;
    if HasKind(concerns, Acne) {
      pushed := pushed + [AvoidTouchingFace];
    }
    assert pushed == before + Opt(HasKind(concerns, Acne), AvoidTouchingFace);
    before := pushed;
    if t == Sensitive {
      pushed := pushed + [PatchTest];
    }
    assert pushed == before + Opt(t == Sensitive, PatchTest);
    before := pushed;
    if HasKind(concerns, FineLines) {
      pushed := pushed + [StartRetinol];
    }
    assert pushed == before + Opt(HasKind(concerns, FineLines), StartRetinol);
    pushed := pushed + [ConsistencyOverCost];
    recs := pushed[..SliceEnd(|pushed|, 5)];
  }

  /** Layout of the front part: the optional hydration and vitamin C tips,
      then sunscreen. */
  lemma FrontLayout(hydration: bool, radiance: bool)
    ensures var c, h, v := Front(hydration, radiance), Count(hydration), Count(radiance);
      && |c| == 1 + h + v
      && (hydration ==> c[0] == BoostHydration)
      && (radiance ==> c[h] == AddVitaminC)
      && c[h + v] == NeverSkipSunscreen
      && (BoostHydration in c <==> hydration)
      && (AddVitaminC in c <==> radiance)
      && AvoidTouchingFace !in c && PatchTest !in c && StartRetinol !in c
      && ConsistencyOverCost !in c
  {
  }

  /** Layout of the back part: the optional acne, patch-test and retinol
      tips, then the consistency reminder, which occurs only last. */
  lemma BackLayout(acne: bool, sensitive: bool, lines: bool)
    ensures var c, a, s, f := Back(acne, sensitive, lines), Count(acne), Count(sensitive), Count(lines);
      && |c| == 1 + a + s + f
      && (acne ==> c[0] == AvoidTouchingFace)
      && (sensitive ==> c[a] == PatchTest)
      && (lines ==> c[a + s] == StartRetinol)
      && c[|c| - 1] == ConsistencyOverCost
      && (forall i :: 0 <= i < |c| - 1 ==> c[i] != ConsistencyOverCost)
      && (forall i :: 0 <= i < |c| && c[i] == StartRetinol ==> i == a + s)
      && (AvoidTouchingFace in c <==> acne)
      && (PatchTest in c <==> sensitive)
      && (StartRetinol in c <==> lines)
      && BoostHydration !in c && AddVitaminC !in c && NeverSkipSunscreen !in c
  {
  }

  /** An element at a position below the cap survives it; one that survives
      was a candidate. */
  lemma TakeMembers(c: seq<Tip>, x: Tip)
    ensures x in Take(c, 5) ==> x in c
    ensures forall i :: 0 <= i < |c| && i < 5 && c[i] == x ==> x in Take(c, 5)
  {
    var r := Take(c, 5);
    forall i | 0 <= i < |c| && i < 5 && c[i] == x ensures x in r {
      assert r[i] == x;
    }
  }

  /** The conditional tips before the retinol tip are kept exactly when
      their condition holds, since at most four entries precede each of
      them, and the sunscreen tip is always kept, at position 0, 1 or 2. */
  lemma {:induction false} CapKeepsEarlyTips(hyd: bool, rad: bool, acne: bool, sens: bool, lines: bool)
    ensures var r := Take(Pushed(hyd, rad, acne, sens, lines), 5);
      && 2 <= |r| <= 5
      && r[Count(hyd) + Count(rad)] == NeverSkipSunscreen
      && (BoostHydration in r <==> hyd)
      && (AddVitaminC in r <==> rad)
      && (AvoidTouchingFace in r <==> acne)
      && (PatchTest in r <==> sens)
  {
    var front, back := Front(hyd, rad), Back(acne, sens, lines);
    var c := front + back;
    PushedSplit(hyd, rad, acne, sens, lines);
    var r := Take(c, 5);
    FrontLayout(hyd, rad);
    BackLayout(acne, sens, lines);
    var h, v, a := Count(hyd), Count(rad), Count(acne);
    var k := |front|;
    forall x | x in r ensures x in front || x in back {
      TakeMembers(c, x);
    }
    assert r[h + v] == NeverSkipSunscreen;
    if hyd { assert r[0] == BoostHydration; }
    if rad { assert r[h] == AddVitaminC; }
    if acne { assert c[k] == back[0]; assert r[k] == AvoidTouchingFace; }
    if sens { assert c[k + a] == back[a]; assert r[k + a] == PatchTest; }
  }

  /** The retinol tip is lost exactly when all four conditional tips before
      it were pushed. */
  lemma {:induction false} CapDropsRetinol(hyd: bool, rad: bool, acne: bool, sens: bool, lines: bool)
    ensures StartRetinol in Take(Pushed(hyd, rad, acne, sens, lines), 5)
            <==> lines && Count(hyd) + Count(rad) + Count(acne) + Count(sens) < 4
  {
    var front, back := Front(hyd, rad), Back(acne, sens, lines);
    var c := front + back;
    PushedSplit(hyd, rad, acne, sens, lines);
    var r := Take(c, 5);
    FrontLayout(hyd, rad);
    BackLayout(acne, sens, lines);
    var a, s := Count(acne), Count(sens);
    var k := |front|;
    if lines && k + a + s < 5 {
      assert c[k + a + s] == back[a + s];
      assert r[k + a + s] == StartRetinol;
    }
    if StartRetinol in r {
      var i :| 0 <= i < |r| && r[i] == StartRetinol;
      assert c[i] == StartRetinol;
      assert i >= k && back[i - k] == StartRetinol;
    }
  }

  /** The closing consistency reminder is lost exactly when more than three
      conditional tips were pushed. */
  lemma {:induction false} CapDropsConsistency(hyd: bool, rad: bool, acne: bool, sens: bool, lines: bool)
    ensures |Pushed(hyd, rad, acne, sens, lines)|
            == 2 + Count(hyd) + Count(rad) + Count(acne) + Count(sens) + Count(lines)
    ensures ConsistencyOverCost in Take(Pushed(hyd, rad, acne, sens, lines), 5)
            <==> Count(hyd) + Count(rad) + Count(acne) + Count(sens) + Count(lines) <= 3
  {
    var front, back := Front(hyd, rad), Back(acne, sens, lines);
    var c := front + back;
    PushedSplit(hyd, rad, acne, sens, lines);
    var r := Take(c, 5);
    FrontLayout(hyd, rad);
    BackLayout(acne, sens, lines);
    var k := |front|;
    if |c| <= 5 {
      assert r[|c| - 1] == ConsistencyOverCost;
    }
    if ConsistencyOverCost in r {
      var i :| 0 <= i < |r| && r[i] == ConsistencyOverCost;
      assert c[i] == ConsistencyOverCost;
      assert i >= k && back[i - k] == ConsistencyOverCost;
    }
  }

  /** Whatever the analysis, the returned list has two to five tips and
      always includes the sunscreen reminder. */
  lemma SunscreenAlwaysKept(concerns: seq<DetectedConcern>, m: SkinMetrics, t: SkinType)
    ensures 2 <= |TopTips(concerns, m, t)| <= 5
    ensures NeverSkipSunscreen in TopTips(concerns, m, t)
  {
    CapKeepsEarlyTips(m.hydration < 50, m.radiance < 50, HasKind(concerns, Acne), t == Sensitive,
                      HasKind(concerns, FineLines));
  }
}
