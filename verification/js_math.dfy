/** The JavaScript number and array helpers the engines rely on, over exact
    reals: `Math.round`, `Math.min`/`Math.max` and the end index of
    `Array.prototype.slice(0, end)`. */
module JsMath {

  function Min(a: real, b: real): real { if a <= b then a else b }
  function Max(a: real, b: real): real { if a >= b then a else b }

  /** 1 when `b` holds, else 0. */
  function Count(b: bool): nat { if b then 1 else 0 }

  /** `[x]` when `b` holds, else nothing: one conditional `push`. */
  function Opt<T>(b: bool, x: T): (r: seq<T>)
    ensures |r| == Count(b) && (b ==> r == [x])
  {
    if b then [x] else []
  }

  /** `Math.round`: the nearest integer, halves rounded up. */
  function Round(x: real): (r: int)
    ensures x - 0.5 < r as real <= x + 0.5
  {
    (x + 0.5).Floor
  }

  /** `Math.round(Math.max(lo, Math.min(hi, x)))` for integer bounds. */
  function ClampRound(x: real, lo: int, hi: int): (r: int)
    requires lo <= hi
    ensures lo <= r <= hi
    ensures lo as real <= x <= hi as real ==> r == Round(x)
  {
    Round(Max(lo as real, Min(hi as real, x)))
  }

  lemma RoundMonotone(x: real, y: real)
    requires x <= y
    ensures Round(x) <= Round(y)
  {
  }

  /** The number of elements `s.slice(0, end)` keeps from a list of `len`
      elements: a negative end counts from the back. */
  function SliceEnd(len: nat, end: int): (k: nat)
    ensures k <= len
    ensures 0 <= end ==> k == if end <= len then end else len
    ensures end < 0 ==> k + (if -end <= len then -end else len) == len
  {
    if end < 0 then (if len + end < 0 then 0 else len + end)
    else if end <= len then end
    else len
  }

  /** `s.slice(0, end)`. */
  function Take<T>(s: seq<T>, end: int): (r: seq<T>)
    ensures |r| == SliceEnd(|s|, end)
    ensures forall i :: 0 <= i < |r| ==> r[i] == s[i]
  {
    s[..SliceEnd(|s|, end)]
  }

  /** `s.filter(f)`: the elements satisfying `f`, in order. */
  function Keep<T(!new)>(s: seq<T>, f: T -> bool): (r: seq<T>)
    ensures |r| <= |s|
    ensures forall x :: x in r <==> x in s && f(x)
  {
    if s == [] then []
    else
      var rest := Keep(s[1..], f);
      assert forall i :: 1 <= i < |s| ==> s[i] == s[1..][i - 1];
      if f(s[0]) then [s[0]] + rest else rest
  }

  /** What `s.slice(0, end)` keeps was in `s`. */
  lemma InTake<T>(s: seq<T>, end: int, x: T)
    requires x in Take(s, end)
    ensures x in s
  {
    var i :| 0 <= i < |Take(s, end)| && Take(s, end)[i] == x;
    assert s[i] == x;
  }

  /** The first element `s.filter(f)` keeps is the first element of `s`
      that satisfies `f`. */
  lemma {:induction false} KeepFirst<T(!new)>(s: seq<T>, f: T -> bool, i: nat)
    requires i < |s| && f(s[i])
    requires forall j :: 0 <= j < i ==> !f(s[j])
    ensures Keep(s, f) != [] && Keep(s, f)[0] == s[i]
  {
    if i > 0 {
      assert forall j :: 0 <= j < i - 1 ==> s[1..][j] == s[j + 1];
      KeepFirst(s[1..], f, i - 1);
    }
  }

  /** Filtering a concatenation filters each part in turn: `filter` keeps
      the order of what it keeps. */
  lemma {:induction false} KeepAppend<T(!new)>(s: seq<T>, t: seq<T>, f: T -> bool)
    ensures Keep(s + t, f) == Keep(s, f) + Keep(t, f)
  {
    if s == [] {
      assert s + t == t;
    } else {
      assert (s + t)[1..] == s[1..] + t;
      KeepAppend(s[1..], t, f);
    }
  }

  /** Filtering one element keeps it exactly when it satisfies `f`. */
  lemma KeepSingle<T(!new)>(x: T, f: T -> bool)
    ensures Keep([x], f) == Opt(f(x), x)
  {
    assert [x][1..] == [];
  }

  /** `filter` keeps every copy of each element that satisfies `f` and no
      copy of the others. */
  lemma {:induction false} KeepMultiset<T(!new)>(s: seq<T>, f: T -> bool)
    ensures forall x :: multiset(Keep(s, f))[x] == if f(x) then multiset(s)[x] else 0
  {
    if s != [] {
      KeepMultiset(s[1..], f);
      assert s == [s[0]] + s[1..];
      assert multiset(s) == multiset{s[0]} + multiset(s[1..]);
    }
  }

  /** Nothing is kept from a list none of whose elements satisfies `f`. */
  lemma {:induction false} KeepNone<T(!new)>(s: seq<T>, f: T -> bool)
    requires forall j :: 0 <= j < |s| ==> !f(s[j])
    ensures Keep(s, f) == []
  {
    if s != [] {
      assert forall j :: 0 <= j < |s| - 1 ==> s[1..][j] == s[j + 1];
      KeepNone(s[1..], f);
    }
  }

  /** When `s[i]` and `s[k]` are the first two elements satisfying `f`,
      they open the filtered list, in that order. */
  lemma {:induction false} KeepFirstTwo<T(!new)>(s: seq<T>, f: T -> bool, i: nat, k: nat)
    requires i < k < |s| && f(s[i]) && f(s[k])
    requires forall j :: 0 <= j < k && j != i ==> !f(s[j])
    ensures Take(Keep(s, f), 2) == [s[i], s[k]]
  {
    var t := s[1..];
    assert forall j :: 0 <= j < |t| ==> t[j] == s[j + 1];
    if i == 0 {
      KeepFirst(t, f, k - 1);
      assert Keep(s, f) == [s[0]] + Keep(t, f);
    } else {
      KeepFirstTwo(t, f, i - 1, k - 1);
    }
  }
}
