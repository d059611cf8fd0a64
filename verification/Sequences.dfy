/** Duplicate-free sequences of indices, used as logs and schedules. */
module Sequences {

  ghost predicate NoDup<T>(s: seq<T>) {
    forall i, j :: 0 <= i < j < |s| ==> s[i] != s[j]
  }

  ghost function Elements<T>(s: seq<T>): set<T> {
    set x | x in s
  }

  lemma {:induction false} NoDupCardinality<T>(s: seq<T>)
    requires NoDup(s)
    ensures |Elements(s)| == |s|
  {
    if s == [] {
      assert Elements(s) == {};
    } else {
      var rest := s[..|s| - 1];
      NoDupCardinality(rest);
      assert s[|s| - 1] !in rest;
      assert Elements(s) == Elements(rest) + {s[|s| - 1]};
    }
  }

  lemma {:induction false} CardinalityMonotone<T>(a: set<T>, b: set<T>)
    requires a <= b
    ensures |a| <= |b|
  {
    if a == {} {
    } else {
      var x :| x in a;
      CardinalityMonotone(a - {x}, b - {x});
    }
  }

  lemma NoDupInclusion<T>(a: seq<T>, b: seq<T>)
    requires NoDup(a) && NoDup(b)
    requires forall x :: x in a ==> x in b
    ensures |a| <= |b|
    ensures |a| == |b| ==> forall x :: x in b ==> x in a
  {
    NoDupCardinality(a);
    NoDupCardinality(b);
    CardinalityMonotone(Elements(a), Elements(b));
    if |a| == |b| {
      forall x | x in b
        ensures x in a
      {
        if x !in a {
          CardinalityMonotone(Elements(a), Elements(b) - {x});
        }
      }
    }
  }

  /** A duplicate-free log of indices below `n` has at most `n` entries. */
  lemma NoDupBounded(s: seq<nat>, n: nat)
    requires NoDup(s)
    requires forall i :: i in s ==> i < n
    ensures |s| <= n
  {
    var all: seq<nat> := seq(n, k => k);
    forall i | i in s
      ensures i in all
    {
      assert all[i] == i;
    }
    NoDupInclusion(s, all);
  }

  lemma NoDupAppend<T>(s: seq<T>, x: T)
    requires NoDup(s) && x !in s
    ensures NoDup(s + [x])
  {
  }

  /** Some element satisfies the predicate. */
  ghost predicate Any<T(!new)>(s: seq<T>, f: T -> bool) {
    exists k :: 0 <= k < |s| && f(s[k])
  }

  lemma AnyAt<T(!new)>(s: seq<T>, f: T -> bool, k: nat)
    requires k < |s| && f(s[k])
    ensures Any(s, f)
  {
  }

  lemma AnyLast<T(!new)>(s: seq<T>, f: T -> bool)
    requires s != []
    ensures Any(s, f) <==> Any(s[..|s| - 1], f) || f(s[|s| - 1])
  {
    var init := s[..|s| - 1];
    if k :| 0 <= k < |s| && f(s[k]) {
      assert k < |init| ==> init[k] == s[k];
    }
    if k :| 0 <= k < |init| && f(init[k]) {
      assert s[k] == init[k];
    }
  }
}
