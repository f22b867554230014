/**
 The signature check of a transmission: each signature entry is looked up among the
 configured signers and inserted, by binary search, into a sorted list of public keys.
 */
module Quorum {
  import opened Wrappers
  import opened Bytes
  import opened Seqs

  type Key = seq<byte>
  type Signature = seq<byte>

  datatype Entry = Entry(key: Key, signature: Signature)
  datatype Collected = Collected(pkeys: seq<Key>, sigs: seq<Signature>)
  datatype Rejection = NotASigner | RepeatedSigner

  /** How many of the keys precede k. */
  function Rank(keys: seq<Key>, k: Key): (n: nat)
    ensures n <= |keys|
  {
    Count(keys, x => LexLess(x, k))
  }

  function InsertAt<T>(s: seq<T>, i: nat, x: T): seq<T>
    requires i <= |s|
  {
    s[..i] + [x] + s[i..]
  }

  /** Entries are taken in order; the first bad one decides the error. */
  function Collect(signers: set<Key>, entries: seq<Entry>): (r: Result<Collected, Rejection>)
    ensures r.Success? ==> |r.value.pkeys| == |r.value.sigs| == |entries|
  {
    if |entries| == 0 then Success(Collected([], []))
    else
      var done :- Collect(signers, entries[..|entries| - 1]);
      var last := entries[|entries| - 1];
      if last.key !in signers then Failure(NotASigner)
      else if last.key in done.pkeys then Failure(RepeatedSigner)
      else
        var i := Rank(done.pkeys, last.key);
        Success(Collected(InsertAt(done.pkeys, i, last.key), InsertAt(done.sigs, i, last.signature)))
  }

  /** In a sorted list the keys before k are exactly its first Rank(keys, k) ones. */
  lemma {:induction false} RankSplits(keys: seq<Key>, k: Key, i: nat)
    requires StrictlySorted(keys) && i <= |keys|
    requires forall j :: 0 <= j < i ==> LexLess(keys[j], k)
    requires forall j :: i <= j < |keys| ==> !LexLess(keys[j], k)
    ensures Rank(keys, k) == i
  {
    var p := (x: Key) => LexLess(x, k);
    if |keys| > 0 {
      var front := keys[..|keys| - 1];
      if i == |keys| {
        RankSplits(front, k, i - 1);
      } else {
        RankSplits(front, k, i);
      }
      CountExtensional(front, (x: Key) => LexLess(x, k), p);
    }
  }

  lemma {:induction false} CountExtensional<T>(s: seq<T>, p: T -> bool, q: T -> bool)
    requires forall x :: x in s ==> p(x) == q(x)
    ensures Count(s, p) == Count(s, q)
  {
    if |s| > 0 {
      CountExtensional(s[..|s| - 1], p, q);
    }
  }

  method BinarySearch(keys: seq<Key>, k: Key) returns (found: bool, index: nat)
    requires StrictlySorted(keys)
    ensures found <==> k in keys
    ensures found ==> index < |keys| && keys[index] == k
    ensures !found ==> index == Rank(keys, k)
  {
    var lo, hi := 0, |keys|;
    while lo < hi
      invariant 0 <= lo <= hi <= |keys|
      invariant forall j :: 0 <= j < lo ==> LexLess(keys[j], k)
      invariant forall j :: hi <= j < |keys| ==> LexLess(k, keys[j])
    {
      var mid := (lo + hi) / 2;
      if keys[mid] == k {
        return true, mid;
      }
      LexTrichotomy(keys[mid], k);
      if LexLess(keys[mid], k) {
        forall j | 0 <= j < mid ensures LexLess(keys[j], k) {
          LexTransitive(keys[j], keys[mid], k);
        }
        lo := mid + 1;
      } else {
        forall j | mid < j < |keys| ensures LexLess(k, keys[j]) {
          LexTransitive(k, keys[mid], keys[j]);
        }
        hi := mid;
      }
    }
    forall j | 0 <= j < |keys| ensures keys[j] != k && (LexLess(keys[j], k) <==> j < lo) {
      LexTrichotomy(keys[j], k);
    }
    RankSplits(keys, k, lo);
    return false, lo;
  }

  /** The loop of the contract: look up, search, insert. */
  method CollectSignatures(signers: set<Key>, entries: seq<Entry>)
    returns (r: Result<Collected, Rejection>)
    ensures r == Collect(signers, entries)
  {
    var pkeys: seq<Key>, sigs: seq<Signature> := [], [];
    for i := 0 to |entries|
      invariant Collect(signers, entries[..i]) == Success(Collected(pkeys, sigs))
    {
      assert entries[..i + 1][..i] == entries[..i];
      var entry := entries[i];
      if entry.key !in signers {
        CollectFailsEarly(signers, entries, i + 1);
        return Failure(NotASigner);
      }
      CollectSorted(signers, entries[..i]);
      var found, index := BinarySearch(pkeys, entry.key);
      if found {
        CollectFailsEarly(signers, entries, i + 1);
        return Failure(RepeatedSigner);
      }
      pkeys := InsertAt(pkeys, index, entry.key);
      sigs := InsertAt(sigs, index, entry.signature);
    }
    assert entries[..|entries|] == entries;
    return Success(Collected(pkeys, sigs));
  }

  lemma {:induction false} CollectFailsEarly(signers: set<Key>, entries: seq<Entry>, n: nat)
    requires n <= |entries| && Collect(signers, entries[..n]).Failure?
    ensures Collect(signers, entries) == Collect(signers, entries[..n])
  {
    if n == |entries| {
      assert entries[..n] == entries;
    } else {
      var front := entries[..|entries| - 1];
      assert front[..n] == entries[..n];
      CollectFailsEarly(signers, front, n);
    }
  }

  // ---------- what the loop establishes ----------

  /** The rank of a key that is not in a sorted list is where it can be inserted. */
  lemma {:induction false} RankMeets(keys: seq<Key>, k: Key)
    requires StrictlySorted(keys) && k !in keys
    ensures forall j :: 0 <= j < Rank(keys, k) ==> LexLess(keys[j], k)
    ensures forall j :: Rank(keys, k) <= j < |keys| ==> LexLess(k, keys[j])
  {
    var i: nat := 0;
    while i < |keys| && LexLess(keys[i], k)
      invariant i <= |keys|
      invariant forall j :: 0 <= j < i ==> LexLess(keys[j], k)
    {
      i := i + 1;
    }
    forall j | i <= j < |keys| ensures LexLess(k, keys[j]) && !LexLess(keys[j], k) {
      LexTrichotomy(keys[i], k);
      if i < j { LexTransitive(k, keys[i], keys[j]); }
      LexTrichotomy(keys[j], k);
    }
    RankSplits(keys, k, i);
  }

  lemma {:induction false} CollectSorted(signers: set<Key>, entries: seq<Entry>)
    ensures Collect(signers, entries).Success? ==> StrictlySorted(Collect(signers, entries).value.pkeys)
  {
    if |entries| > 0 && Collect(signers, entries).Success? {
      var front := entries[..|entries| - 1];
      CollectSorted(signers, front);
      RankMeets(Collect(signers, front).value.pkeys, entries[|entries| - 1].key);
    }
  }

  function Pairs(c: Collected): seq<Entry>
    requires |c.pkeys| == |c.sigs|
  {
    seq(|c.pkeys|, i requires 0 <= i < |c.pkeys| => Entry(c.pkeys[i], c.sigs[i]))
  }

  lemma PairsOfInserted(c: Collected, i: nat, entry: Entry)
    requires |c.pkeys| == |c.sigs| && i <= |c.pkeys|
    ensures Pairs(Collected(InsertAt(c.pkeys, i, entry.key), InsertAt(c.sigs, i, entry.signature)))
         == Pairs(c)[..i] + [entry] + Pairs(c)[i..]
  {
  }

  lemma PairsOfLast(signers: set<Key>, entries: seq<Entry>)
    requires |entries| > 0 && Collect(signers, entries).Success?
    ensures Collect(signers, entries[..|entries| - 1]).Success?
    ensures multiset(Pairs(Collect(signers, entries).value))
         == multiset(Pairs(Collect(signers, entries[..|entries| - 1]).value)) + multiset{entries[|entries| - 1]}
  {
    var front, last := entries[..|entries| - 1], entries[|entries| - 1];
    var before := Collect(signers, front).value;
    var i := Rank(before.pkeys, last.key);
    PairsOfInserted(before, i, last);
    hide InsertAt, Pairs, Rank;
    InsertedOnce(Pairs(before), i, last);
  }

  /** Keys and signatures stay aligned: their pairs are the input entries, each as often as given. */
  lemma {:induction false} CollectKeepsPairs(signers: set<Key>, entries: seq<Entry>)
    requires Collect(signers, entries).Success?
    ensures multiset(Pairs(Collect(signers, entries).value)) == multiset(entries)
  {
    if |entries| > 0 {
      var front, last := entries[..|entries| - 1], entries[|entries| - 1];
      CollectKeepsPairs(signers, front);
      PairsOfLast(signers, entries);
      hide Collect, Pairs;
      assert entries == front + [last];
    }
  }

  lemma {:induction false} CollectMembers(signers: set<Key>, entries: seq<Entry>)
    requires Collect(signers, entries).Success?
    ensures forall k ::
              k in Collect(signers, entries).value.pkeys <==> exists i :: 0 <= i < |entries| && entries[i].key == k
    ensures forall k :: k in Collect(signers, entries).value.pkeys ==> k in signers
  {
    if |entries| > 0 {
      var front, last := entries[..|entries| - 1], entries[|entries| - 1];
      CollectMembers(signers, front);
      var before := Collect(signers, front).value;
      var after := Collect(signers, entries).value;
      var i := Rank(before.pkeys, last.key);
      assert before.pkeys == before.pkeys[..i] + before.pkeys[i..];
      forall k ensures k in after.pkeys <==> k in before.pkeys || k == last.key {
      }
      forall k | k in after.pkeys ensures exists j :: 0 <= j < |entries| && entries[j].key == k {
        if k == last.key {
          assert entries[|entries| - 1].key == k;
        } else {
          var j :| 0 <= j < |front| && front[j].key == k;
          assert entries[j].key == k;
        }
      }
      forall j | 0 <= j < |entries| ensures entries[j].key in after.pkeys {
        if j < |front| { assert front[j].key in before.pkeys; }
      }
    }
  }

  ghost predicate Proper(signers: set<Key>, entries: seq<Entry>) {
    && (forall i :: 0 <= i < |entries| ==> entries[i].key in signers)
    && (forall i, j :: 0 <= i < j < |entries| ==> entries[i].key != entries[j].key)
  }

  lemma ProperStep(signers: set<Key>, entries: seq<Entry>)
    requires |entries| > 0
    ensures var front, last := entries[..|entries| - 1], entries[|entries| - 1];
            Proper(signers, entries) <==>
              Proper(signers, front) && last.key in signers && forall j :: 0 <= j < |front| ==> front[j].key != last.key
  {
    var front, last := entries[..|entries| - 1], entries[|entries| - 1];
    if Proper(signers, entries) {
      forall j | 0 <= j < |front| ensures front[j].key != last.key {
        assert entries[j].key != entries[|entries| - 1].key;
      }
    }
  }

  /** The loop succeeds exactly when every key is a signer and no key is repeated. */
  lemma {:induction false} CollectSucceedsIff(signers: set<Key>, entries: seq<Entry>)
    ensures Collect(signers, entries).Success? <==> Proper(signers, entries)
  {
    if |entries| > 0 {
      ProperStep(signers, entries);
      hide Proper;
      var front, last := entries[..|entries| - 1], entries[|entries| - 1];
      CollectSucceedsIff(signers, front);
      if Collect(signers, front).Success? {
        CollectMembers(signers, front);
      }
    }
  }

  lemma SortedCount(keys: seq<Key>)
    requires StrictlySorted(keys)
    ensures |set k | k in keys| == |keys|
  {
    if |keys| > 0 {
      var front, last := keys[..|keys| - 1], keys[|keys| - 1];
      SortedCount(front);
      SortedIsDistinct(keys);
      assert (set k | k in keys) == (set k | k in front) + {last};
    }
  }

  /**
   f + 1 accepted signatures come from f + 1 distinct configured signers, so whichever
   f signers are faulty, at least one accepted signature is from a signer that is not.
   */
  lemma QuorumHasHonestSigner(signers: set<Key>, entries: seq<Entry>, f: nat, faulty: set<Key>)
    requires Collect(signers, entries).Success? && |entries| == f + 1
    requires |faulty| <= f
    ensures |set k | k in Collect(signers, entries).value.pkeys| == f + 1
    ensures exists i :: 0 <= i < |entries| && entries[i].key in signers && entries[i].key !in faulty
  {
    var keys := Collect(signers, entries).value.pkeys;
    CollectSorted(signers, entries);
    CollectMembers(signers, entries);
    SortedCount(keys);
    var members := set k | k in keys;
    if members <= faulty {
      SubsetSize(members, faulty);
      assert false;
    }
    var k :| k in members && k !in faulty;
    var i :| 0 <= i < |entries| && entries[i].key == k;
  }
}
