/**
 Sequences shared by several parts of the model: counting, permutations, the byte-wise order in
 which contract storage is iterated, and the sorted sequence of the keys of a map.
 */
module Seqs {
  import opened Bytes

  function Count<T>(s: seq<T>, p: T -> bool): (n: nat)
    ensures n <= |s|
  {
    if |s| == 0 then 0 else Count(s[..|s| - 1], p) + (if p(s[|s| - 1]) then 1 else 0)
  }

  lemma {:induction false} CountAppend<T>(a: seq<T>, b: seq<T>, p: T -> bool)
    ensures Count(a + b, p) == Count(a, p) + Count(b, p)
  {
    if |b| == 0 {
      assert a + b == a;
    } else {
      assert (a + b)[..|a + b| - 1] == a + b[..|b| - 1];
      CountAppend(a, b[..|b| - 1], p);
    }
  }

  function Without<T>(s: seq<T>, i: nat): (r: seq<T>)
    requires i < |s|
    ensures |r| == |s| - 1
  {
    s[..i] + s[i + 1..]
  }

  lemma WithoutMultiset<T>(s: seq<T>, i: nat)
    requires i < |s|
    ensures multiset(Without(s, i)) == multiset(s) - multiset{s[i]}
  {
    assert s == s[..i] + [s[i]] + s[i + 1..];
    assert multiset(s) == multiset(Without(s, i)) + multiset{s[i]};
  }

  lemma CountOne<T>(x: T, p: T -> bool)
    ensures Count([x], p) == if p(x) then 1 else 0
  {
  }

  lemma CountAround<T>(a: seq<T>, x: T, b: seq<T>, p: T -> bool)
    ensures Count(a + [x] + b, p) == Count(a + b, p) + (if p(x) then 1 else 0)
  {
    hide Count;
    CountOne(x, p);
    CountAppend(a + [x], b, p);
    CountAppend(a, [x], p);
    CountAppend(a, b, p);
  }

  lemma SplitAround<T>(s: seq<T>, i: nat)
    requires i < |s|
    ensures s == s[..i] + [s[i]] + s[i + 1..]
  {
  }

  lemma WithoutCount<T>(s: seq<T>, i: nat, p: T -> bool)
    requires i < |s|
    ensures Count(s, p) == Count(Without(s, i), p) + (if p(s[i]) then 1 else 0)
  {
    hide Count;
    SplitAround(s, i);
    CountAround(s[..i], s[i], s[i + 1..], p);
  }

  /** Counting does not depend on the order of the elements. */
  lemma {:induction false} CountPermutation<T>(a: seq<T>, b: seq<T>, p: T -> bool)
    requires multiset(a) == multiset(b)
    ensures Count(a, p) == Count(b, p)
  {
    if |a| == 0 {
      assert |b| == |multiset(b)| == 0;
    } else {
      var last := |a| - 1;
      assert a[last] in multiset(b);
      var i :| 0 <= i < |b| && b[i] == a[last];
      WithoutMultiset(a, last);
      WithoutMultiset(b, i);
      assert Without(a, last) == a[..last];
      CountPermutation(a[..last], Without(b, i), p);
      WithoutCount(b, i, p);
    }
  }

  function Map<T, U>(s: seq<T>, f: T -> U): (r: seq<U>)
    ensures |r| == |s| && forall i :: 0 <= i < |s| ==> r[i] == f(s[i])
  {
    seq(|s|, i requires 0 <= i < |s| => f(s[i]))
  }

  lemma {:induction false} MapCount<T, U>(s: seq<T>, f: T -> U, u: U)
    ensures multiset(Map(s, f))[u] == Count(s, x => f(x) == u)
  {
    if |s| > 0 {
      var front, last := s[..|s| - 1], s[|s| - 1];
      MapCount(front, f, u);
      assert Map(s, f) == Map(front, f) + [f(last)];
    }
  }

  /** Mapping keeps permutations. */
  lemma MapPermutation<T, U(!new)>(a: seq<T>, b: seq<T>, f: T -> U)
    requires multiset(a) == multiset(b)
    ensures multiset(Map(a, f)) == multiset(Map(b, f))
  {
    forall u: U ensures multiset(Map(a, f))[u] == multiset(Map(b, f))[u] {
      MapCount(a, f, u);
      MapCount(b, f, u);
      CountPermutation(a, b, x => f(x) == u);
    }
  }

  lemma {:induction false} CountComplement<T>(s: seq<T>, p: T -> bool, q: T -> bool)
    requires forall x :: x in s ==> q(x) == !p(x)
    ensures Count(s, p) + Count(s, q) == |s|
  {
    if |s| > 0 {
      CountComplement(s[..|s| - 1], p, q);
    }
  }

  /** A set of positions that all satisfy p is no larger than the count of p. */
  lemma {:induction false} CountAtLeast<T>(s: seq<T>, p: T -> bool, positions: set<nat>)
    requires forall i :: i in positions ==> i < |s| && p(s[i])
    ensures |positions| <= Count(s, p)
  {
    if |s| == 0 {
      assert positions == {};
    } else {
      var last := |s| - 1;
      CountAtLeast(s[..last], p, positions - {last});
    }
  }

  ghost predicate Distinct<T>(s: seq<T>) {
    forall i, j :: 0 <= i < j < |s| ==> s[i] != s[j]
  }

  // ---------- byte-wise lexicographic order ----------

  predicate LexLess(a: seq<byte>, b: seq<byte>) {
    if |b| == 0 then false
    else if |a| == 0 then true
    else a[0] < b[0] || (a[0] == b[0] && LexLess(a[1..], b[1..]))
  }

  lemma {:induction false} LexTrichotomy(a: seq<byte>, b: seq<byte>)
    ensures a == b || LexLess(a, b) || LexLess(b, a)
    ensures !(LexLess(a, b) && LexLess(b, a))
    ensures !LexLess(a, a)
  {
    if |a| > 0 {
      LexTrichotomy(a[1..], a[1..]);
      if |b| > 0 {
        LexTrichotomy(a[1..], b[1..]);
        assert a == [a[0]] + a[1..] && b == [b[0]] + b[1..];
      }
    }
  }

  lemma {:induction false} LexTransitive(a: seq<byte>, b: seq<byte>, c: seq<byte>)
    requires LexLess(a, b) && LexLess(b, c)
    ensures LexLess(a, c)
  {
    if |a| > 0 && a[0] == b[0] == c[0] {
      LexTransitive(a[1..], b[1..], c[1..]);
    }
  }

  ghost predicate StrictlySorted(s: seq<seq<byte>>) {
    forall i, j :: 0 <= i < j < |s| ==> LexLess(s[i], s[j])
  }

  // ---------- the keys of a storage map in iteration order ----------

  predicate IsLeast(m: seq<byte>, s: set<seq<byte>>) {
    m in s && forall x :: x in s && x != m ==> LexLess(m, x)
  }

  lemma {:induction false} LeastExists(s: set<seq<byte>>)
    requires s != {}
    ensures exists m :: IsLeast(m, s)
  {
    var a :| a in s;
    if s == {a} {
      assert IsLeast(a, s);
    } else {
      LeastExists(s - {a});
      var b :| IsLeast(b, s - {a});
      LexTrichotomy(a, b);
      if LexLess(a, b) {
        forall x | x in s && x != a ensures LexLess(a, x) {
          if x != b { LexTransitive(a, b, x); }
        }
        assert IsLeast(a, s);
      } else {
        assert IsLeast(b, s);
      }
    }
  }

  ghost predicate Lists(keys: seq<seq<byte>>, s: set<seq<byte>>) {
    StrictlySorted(keys) && forall k :: k in keys <==> k in s
  }

  /** The members of s in ascending order. */
  ghost function SortedKeys(s: set<seq<byte>>): (keys: seq<seq<byte>>)
    ensures forall k :: k in keys <==> k in s
  {
    ListingExists(s);
    var keys :| Lists(keys, s);
    keys
  }

  lemma {:induction false} ListingExists(s: set<seq<byte>>)
    ensures exists keys :: Lists(keys, s)
  {
    if s == {} {
      assert Lists([], s);
    } else {
      LeastExists(s);
      var m :| IsLeast(m, s);
      ListingExists(s - {m});
      var rest :| Lists(rest, s - {m});
      assert Lists([m] + rest, s);
    }
  }

  lemma FirstIsLeast(keys: seq<seq<byte>>, s: set<seq<byte>>)
    requires Lists(keys, s) && |keys| > 0
    ensures IsLeast(keys[0], s)
    ensures Lists(keys[1..], s - {keys[0]})
  {
    forall x | x in s && x != keys[0] ensures LexLess(keys[0], x) {
      assert x in keys;
    }
    forall k | k in keys[1..] ensures k in s && k != keys[0] {
      LexTrichotomy(keys[0], k);
    }
  }

  lemma {:induction false} ListingIsUnique(a: seq<seq<byte>>, b: seq<seq<byte>>, s: set<seq<byte>>)
    requires Lists(a, s) && Lists(b, s)
    ensures a == b
  {
    assert |a| > 0 ==> a[0] in a && a[0] in s;
    assert |b| > 0 ==> b[0] in b && b[0] in s;
    if |a| > 0 && |b| > 0 {
      FirstIsLeast(a, s);
      FirstIsLeast(b, s);
      LexTrichotomy(a[0], b[0]);
      ListingIsUnique(a[1..], b[1..], s - {a[0]});
      assert a == [a[0]] + a[1..] && b == [b[0]] + b[1..];
    }
  }

  lemma {:induction false} ListingSize(keys: seq<seq<byte>>, s: set<seq<byte>>)
    requires Lists(keys, s)
    ensures |keys| == |s|
  {
    if |keys| == 0 {
      assert s == {};
    } else {
      FirstIsLeast(keys, s);
      ListingSize(keys[1..], s - {keys[0]});
    }
  }

  lemma ListingLength(s: set<seq<byte>>)
    ensures |SortedKeys(s)| == |s|
  {
    SortedKeysAscend(s);
    ListingSize(SortedKeys(s), s);
  }

  lemma SortedKeysAscend(s: set<seq<byte>>)
    ensures Lists(SortedKeys(s), s)
  {
    ListingExists(s);
  }

  method LeastOf(s: set<seq<byte>>) returns (m: seq<byte>)
    requires s != {}
    ensures IsLeast(m, s)
  {
    LeastExists(s);
    m :| m in s && IsLeast(m, s);
  }

  /** Reads the keys of a storage map in ascending order. */
  method RangeKeys(s: set<seq<byte>>) returns (keys: seq<seq<byte>>)
    ensures keys == SortedKeys(s)
  {
    keys := [];
    var rest := s;
    while rest != {}
      invariant rest <= s
      invariant Lists(keys, s - rest)
      invariant forall k, x :: k in keys && x in rest ==> LexLess(k, x)
      decreases rest
    {
      var m := LeastOf(rest);
      keys, rest := keys + [m], rest - {m};
    }
    assert s - rest == s;
    SortedKeysAscend(s);
    ListingIsUnique(keys, SortedKeys(s), s);
  }

  lemma SortedIsDistinct(s: seq<seq<byte>>)
    requires StrictlySorted(s)
    ensures Distinct(s)
  {
    forall i, j | 0 <= i < j < |s| ensures s[i] != s[j] {
      LexTrichotomy(s[i], s[j]);
    }
  }

  lemma InsertedOnce<T>(s: seq<T>, i: nat, x: T)
    requires i <= |s|
    ensures multiset(s[..i] + [x] + s[i..]) == multiset(s) + multiset{x}
  {
    assert s == s[..i] + s[i..];
  }

  lemma {:induction false} SubsetSize<T>(a: set<T>, b: set<T>)
    requires a <= b
    ensures |a| <= |b|
  {
    if a != {} {
      var x :| x in a;
      SubsetSize(a - {x}, b - {x});
    }
  }
}
