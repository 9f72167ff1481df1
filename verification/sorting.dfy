/** A stable sort by a comparator, standing for the engine's
    `Array.prototype.sort` (stable since ECMAScript 2019). A comparator
    `cmp(a, b)` of the source becomes the relation `le(a, b)` that holds when
    `cmp(a, b) <= 0`, i.e. when `a` may stay in front of `b`. */
module Sorting {

  ghost predicate Total<T(!new)>(le: (T, T) -> bool) {
    forall a, b :: le(a, b) || le(b, a)
  }

  ghost predicate Transitive<T(!new)>(le: (T, T) -> bool) {
    forall a, b, c :: le(a, b) && le(b, c) ==> le(a, c)
  }

  /** The relations a comparator-based sort can work with. */
  ghost predicate TotalPreorder<T(!new)>(le: (T, T) -> bool) {
    Total(le) && Transitive(le)
  }

  ghost predicate SortedBy<T>(s: seq<T>, le: (T, T) -> bool) {
    forall i, j :: 0 <= i < j < |s| ==> le(s[i], s[j])
  }

  /** Places `x` in front of the first element it may precede, so it stays
      ahead of every element it ties with. */
  function Insert<T>(x: T, s: seq<T>, le: (T, T) -> bool): (r: seq<T>)
    ensures |r| == |s| + 1
    ensures multiset(r) == multiset(s) + multiset{x}
  {
    if s == [] || le(x, s[0]) then [x] + s
    else
      assert s == [s[0]] + s[1..];
      [s[0]] + Insert(x, s[1..], le)
  }

  /** Insertion sort: the first element is inserted into the sorted rest. */
  function SortBy<T>(s: seq<T>, le: (T, T) -> bool): (r: seq<T>)
    ensures |r| == |s|
    ensures multiset(r) == multiset(s)
  {
    if s == [] then []
    else
      assert s == [s[0]] + s[1..];
      Insert(s[0], SortBy(s[1..], le), le)
  }

  lemma {:induction false} InsertSorted<T(!new)>(x: T, s: seq<T>, le: (T, T) -> bool)
    requires TotalPreorder(le)
    requires SortedBy(s, le)
    ensures SortedBy(Insert(x, s, le), le)
  {
    if s == [] || le(x, s[0]) {
      var r := [x] + s;
      forall i, j | 0 <= i < j < |r| ensures le(r[i], r[j]) {
        if i > 0 {
          assert r[i] == s[i - 1] && r[j] == s[j - 1];
        } else if j > 1 {
          assert le(x, s[0]) && le(s[0], s[j - 1]);
        }
      }
    } else {
      assert le(s[0], x);
      InsertSorted(x, s[1..], le);
      var t := Insert(x, s[1..], le);
      assert forall k :: 0 <= k < |t| ==> le(s[0], t[k]) by {
        forall k | 0 <= k < |t| ensures le(s[0], t[k]) {
          assert t[k] in multiset(t);
          assert t[k] in multiset(s[1..]) + multiset{x};
          if t[k] != x {
            assert t[k] in s[1..];
            var m :| 0 <= m < |s[1..]| && s[1..][m] == t[k];
            assert s[m + 1] == t[k];
          }
        }
      }
      var r := [s[0]] + t;
      forall i, j | 0 <= i < j < |r| ensures le(r[i], r[j]) {
        if i > 0 {
          assert r[i] == t[i - 1] && r[j] == t[j - 1];
        } else {
          assert r[j] == t[j - 1];
        }
      }
    }
  }

  lemma {:induction false} SortBySorted<T(!new)>(s: seq<T>, le: (T, T) -> bool)
    requires TotalPreorder(le)
    ensures SortedBy(SortBy(s, le), le)
  {
    if s != [] {
      SortBySorted(s[1..], le);
      InsertSorted(s[0], SortBy(s[1..], le), le);
    }
  }

  /** A prefix of a sorted sequence is sorted. */
  lemma PrefixSorted<T>(s: seq<T>, k: nat, le: (T, T) -> bool)
    requires SortedBy(s, le) && k <= |s|
    ensures SortedBy(s[..k], le)
  {
  }

  /** `a` and `b` tie: the comparator returns 0 for them. */
  predicate Tie<T>(a: T, b: T, le: (T, T) -> bool) {
    le(a, b) && le(b, a)
  }

  /** The elements of `s` that tie with `x`, in their order in `s`. */
  function Ties<T>(s: seq<T>, x: T, le: (T, T) -> bool): (r: seq<T>)
    ensures |r| <= |s|
  {
    if s == [] then []
    else (if Tie(s[0], x, le) then [s[0]] else []) + Ties(s[1..], x, le)
  }

  lemma TiesCons<T>(a: T, t: seq<T>, x: T, le: (T, T) -> bool)
    ensures Ties([a] + t, x, le) == (if Tie(a, x, le) then [a] else []) + Ties(t, x, le)
  {
    assert ([a] + t)[1..] == t;
  }

  /** Two elements the comparator orders strictly cannot both tie with
      the same `x`. */
  lemma NotBothTie<T(!new)>(h: T, y: T, x: T, le: (T, T) -> bool)
    requires Transitive(le) && !le(y, h)
    ensures !(Tie(h, x, le) && Tie(y, x, le))
  {
  }

  /** At most one of two optional singletons is present, so they commute. */
  lemma SwapOptional<T>(a: seq<T>, b: seq<T>, rest: seq<T>)
    requires a == [] || b == []
    ensures a + (b + rest) == b + (a + rest)
  {
  }

  lemma {:induction false} InsertTies<T(!new)>(y: T, s: seq<T>, x: T, le: (T, T) -> bool)
    requires TotalPreorder(le)
    ensures Ties(Insert(y, s, le), x, le)
         == (if Tie(y, x, le) then [y] else []) + Ties(s, x, le)
  {
    if s == [] || le(y, s[0]) {
      assert Insert(y, s, le) == [y] + s;
      TiesCons(y, s, x, le);
    } else {
      var h, t := s[0], Insert(y, s[1..], le);
      assert Insert(y, s, le) == [h] + t;
      InsertTies(y, s[1..], x, le);
      TiesCons(h, t, x, le);
      TiesCons(h, s[1..], x, le);
      assert s == [h] + s[1..];
      // h is strictly ahead of y, so h and y cannot both tie with x
      NotBothTie(h, y, x, le);
      SwapOptional(if Tie(h, x, le) then [h] else [], if Tie(y, x, le) then [y] else [],
                   Ties(s[1..], x, le));
    }
  }

  /** Stability: the sort keeps the relative order of every class of tied
      elements. */
  lemma {:induction false} SortByStable<T(!new)>(s: seq<T>, x: T, le: (T, T) -> bool)
    requires TotalPreorder(le)
    ensures Ties(SortBy(s, le), x, le) == Ties(s, x, le)
  {
    if s != [] {
      SortByStable(s[1..], x, le);
      InsertTies(s[0], SortBy(s[1..], le), x, le);
    }
  }
}
