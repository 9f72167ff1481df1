/** The string operations the recommendation engine matches ingredients
    with: `toLowerCase` (on ASCII letters) and `includes` (substring). */
module Text {

  function LowerChar(c: char): (r: char)
    ensures 'A' <= c <= 'Z' ==> 'a' <= r <= 'z'
    ensures !('A' <= c <= 'Z') ==> r == c
  {
    if 'A' <= c <= 'Z' then (c as int + 32) as char else c
  }

  function Lower(s: string): (r: string)
    ensures |r| == |s|
    ensures forall i :: 0 <= i < |s| ==> r[i] == LowerChar(s[i])
  {
    seq(|s|, i requires 0 <= i < |s| => LowerChar(s[i]))
  }

  /** Lowering twice is lowering once. */
  lemma LowerIdempotent(s: string)
    ensures Lower(Lower(s)) == Lower(s)
  {
    var l := Lower(s);
    assert forall i :: 0 <= i < |l| ==> LowerChar(l[i]) == l[i];
  }

  /** `t` occurs in `s` starting at position `i`. */
  predicate OccursAt(s: string, t: string, i: nat) {
    i + |t| <= |s| && s[i..i + |t|] == t
  }

  /** `s.includes(t)`: `t` occurs in `s` at some position. */
  predicate Contains(s: string, t: string) {
    exists i: nat :: i <= |s| && OccursAt(s, t, i)
  }

  /** Lowering works letter by letter, so it distributes over joining. */
  lemma LowerConcat(s: string, t: string)
    ensures Lower(s + t) == Lower(s) + Lower(t)
  {
    var l, r := Lower(s + t), Lower(s) + Lower(t);
    assert forall i :: 0 <= i < |l| ==> l[i] == r[i];
  }

  /** A string contains every string it is made around. */
  lemma ContainsMiddle(before: string, t: string, after: string)
    ensures Contains(before + t + after, t)
  {
    var s := before + t + after;
    assert s[|before|..|before| + |t|] == t;
    assert OccursAt(s, t, |before|);
  }
}
