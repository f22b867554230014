/**
 The "median" of the oracle network: the element of rank n/2. It is characterised by
 counting, and read off a sorted permutation.
 */
module Medians {
  import opened Seqs

  function Below<T>(key: T -> int, m: int): T -> bool {
    x => key(x) < m
  }

  function AtMost<T>(key: T -> int, m: int): T -> bool {
    x => key(x) <= m
  }

  /** m is the key of rank |s| / 2 when the elements are put in key order. */
  ghost predicate IsMedian<T>(m: int, s: seq<T>, key: T -> int) {
    Count(s, Below(key, m)) <= |s| / 2 < Count(s, AtMost(key, m))
  }

  ghost predicate SortedBy<T>(s: seq<T>, key: T -> int) {
    forall i, j :: 0 <= i < j < |s| ==> key(s[i]) <= key(s[j])
  }

  /** Elements in key order; elements with equal keys may come in any order. */
  ghost predicate IsSorting<T>(p: seq<T>, s: seq<T>, key: T -> int) {
    multiset(p) == multiset(s) && SortedBy(p, key)
  }

  lemma {:induction false} CountSplit<T>(s: seq<T>, p: T -> bool, i: nat)
    requires i <= |s|
    ensures Count(s, p) == Count(s[..i], p) + Count(s[i..], p)
  {
    assert s == s[..i] + s[i..];
    CountAppend(s[..i], s[i..], p);
  }

  lemma {:induction false} CountAll<T>(s: seq<T>, p: T -> bool)
    ensures (forall x :: x in s ==> p(x)) ==> Count(s, p) == |s|
    ensures (forall x :: x in s ==> !p(x)) ==> Count(s, p) == 0
  {
    if |s| > 0 {
      CountAll(s[..|s| - 1], p);
    }
  }

  /** The middle element of any sorting is the median. */
  lemma MiddleIsMedian<T>(p: seq<T>, s: seq<T>, key: T -> int)
    requires IsSorting(p, s, key) && |p| > 0
    ensures |p| == |s| && IsMedian(key(p[|p| / 2]), s, key)
  {
    var k := |p| / 2;
    var m := key(p[k]);
    assert |p| == |multiset(p)| == |multiset(s)| == |s|;
    CountPermutation(p, s, Below(key, m));
    CountPermutation(p, s, AtMost(key, m));
    CountSplit(p, Below(key, m), k);
    CountAll(p[k..], Below(key, m));
    CountSplit(p, AtMost(key, m), k + 1);
    CountAll(p[..k + 1], AtMost(key, m));
  }

  /** There is only one median. */
  lemma MedianIsUnique<T>(m: int, m': int, s: seq<T>, key: T -> int)
    requires IsMedian(m, s, key) && IsMedian(m', s, key)
    ensures m == m'
  {
    if m < m' {
      CountMonotone(s, AtMost(key, m), Below(key, m'));
    } else if m' < m {
      CountMonotone(s, AtMost(key, m'), Below(key, m));
    }
  }

  lemma {:induction false} CountMonotone<T>(s: seq<T>, p: T -> bool, q: T -> bool)
    requires forall x :: x in s && p(x) ==> q(x)
    ensures Count(s, p) <= Count(s, q)
  {
    if |s| > 0 {
      CountMonotone(s[..|s| - 1], p, q);
    }
  }

  /** m lies between the keys of two honest elements. */
  ghost predicate Between<T>(m: int, s: seq<T>, key: T -> int, honest: set<nat>) {
    exists i, j :: i in honest && j in honest && i < |s| && j < |s| && key(s[i]) <= m <= key(s[j])
  }

  /**
   When at most f of n >= 2f + 1 elements are arbitrary, the median lies between the keys
   of two honest elements.
   */
  lemma MedianBetweenHonest<T>(m: int, s: seq<T>, key: T -> int, honest: set<nat>, f: nat)
    requires IsMedian(m, s, key)
    requires forall i :: i in honest ==> i < |s|
    requires |s| >= 2 * f + 1 && |honest| >= |s| - f
    ensures Between(m, s, key, honest)
  {
    if forall i :: i in honest ==> key(s[i]) > m {
      var above := (x: T) => !(key(x) <= m);
      CountAtLeast(s, above, honest);
      CountComplement(s, AtMost(key, m), above);
      assert false;
    }
    if forall j :: j in honest ==> key(s[j]) < m {
      CountAtLeast(s, Below(key, m), honest);
      assert false;
    }
    var i :| i in honest && key(s[i]) <= m;
    var j :| j in honest && m <= key(s[j]);
  }
}
