/**
 Batches of message rows: rows with distinct ids, grouping them by a key, and the validator that
 sorts out expired ones.
 */
module TxmBatches {
  import opened Wrappers
  import opened Bytes
  import opened Seqs
  import opened MsgTable
  import opened TxmProtocol
  import opened BatchSimulation

  // ---------- distinct rows ----------

  ghost predicate DistinctIds(rows: seq<Row>) {
    NoRepeats(Ids(rows))
  }

  lemma AsSetOfIds(rows: seq<Row>)
    ensures AsSet(Ids(rows)) == IdSet(rows)
  {
  }

  lemma IdSetUnion(a: seq<Row>, b: seq<Row>)
    ensures IdSet(a + b) == IdSet(a) + IdSet(b)
  {
    forall id | id in IdSet(a) ensures id in IdSet(a + b) {
      var i :| 0 <= i < |a| && a[i].id == id;
      assert (a + b)[i].id == id;
    }
    forall id | id in IdSet(b) ensures id in IdSet(a + b) {
      var i :| 0 <= i < |b| && b[i].id == id;
      assert (a + b)[|a| + i].id == id;
    }
  }

  /** Leaving out a row whose id occurs before leaves all ids. */
  lemma RepeatedIdIsSpare(rows: seq<Row>, i: nat, j: nat)
    requires i < j < |rows| && rows[i].id == rows[j].id
    ensures IdSet(rows) <= IdSet(rows[..j] + rows[j + 1..])
  {
    var others := rows[..j] + rows[j + 1..];
    assert others[i] == rows[i];
    forall id | id in IdSet(rows) ensures id in IdSet(others) {
      var k :| 0 <= k < |rows| && rows[k].id == id;
      if k < j {
        assert others[k].id == id;
      } else if k > j {
        assert others[k - 1].id == id;
      } else {
        assert others[i].id == id;
      }
    }
  }

  lemma DistinctByCount(rows: seq<Row>)
    requires |IdSet(rows)| == |rows|
    ensures DistinctIds(rows)
  {
    forall i, j | 0 <= i < j < |rows| ensures rows[i].id != rows[j].id {
      if rows[i].id == rows[j].id {
        var others := rows[..j] + rows[j + 1..];
        hide IdSet;
        IdSetSize(others);
        RepeatedIdIsSpare(rows, i, j);
        SubsetSize(IdSet(rows), IdSet(others));
      }
    }
  }

  lemma CountOfDistinct(rows: seq<Row>)
    requires DistinctIds(rows)
    ensures |IdSet(rows)| == |rows|
  {
    NoRepeatsCount(Ids(rows));
    AsSetOfIds(rows);
  }

  /** Reordering keeps ids and their distinctness. */
  lemma Reordered(a: seq<Row>, b: seq<Row>)
    requires multiset(a) == multiset(b) && DistinctIds(a)
    ensures IdSet(a) == IdSet(b) && DistinctIds(b)
  {
    CountOfDistinct(a);
    assert |a| == |multiset(a)| == |multiset(b)| == |b|;
    forall id | id in IdSet(a) ensures id in IdSet(b) {
      var i :| 0 <= i < |a| && a[i].id == id;
      assert a[i] in multiset(b);
      var k :| 0 <= k < |b| && b[k] == a[i];
    }
    forall id | id in IdSet(b) ensures id in IdSet(a) {
      var i :| 0 <= i < |b| && b[i].id == id;
      assert b[i] in multiset(a);
      var k :| 0 <= k < |a| && a[k] == b[i];
    }
    assert IdSet(a) == IdSet(b);
    DistinctByCount(b);
  }

  lemma DistinctParts(a: seq<Row>, b: seq<Row>)
    requires DistinctIds(a + b)
    ensures DistinctIds(a) && DistinctIds(b) && IdSet(a) !! IdSet(b)
  {
    forall i, j | 0 <= i < j < |a| ensures a[i].id != a[j].id {
      assert Ids(a + b)[i] == a[i].id && Ids(a + b)[j] == a[j].id;
    }
    forall i, j | 0 <= i < j < |b| ensures b[i].id != b[j].id {
      assert Ids(a + b)[|a| + i] == b[i].id && Ids(a + b)[|a| + j] == b[j].id;
    }
    forall i, j | 0 <= i < |a| && 0 <= j < |b| ensures a[i].id != b[j].id {
      assert Ids(a + b)[i] == a[i].id && Ids(a + b)[|a| + j] == b[j].id;
    }
  }

  /** The split of a simulated batch consists of distinct rows of the batch. */
  lemma SplitIsDistinct(msgs: seq<Row>, split: Split<Row>)
    requires DistinctIds(msgs) && multiset(split.succeeded) + multiset(split.failed) == multiset(msgs)
    ensures DistinctIds(split.succeeded) && DistinctIds(split.failed)
    ensures IdSet(split.succeeded) !! IdSet(split.failed)
    ensures IdSet(split.succeeded) + IdSet(split.failed) == IdSet(msgs)
  {
    var both := split.succeeded + split.failed;
    assert multiset(both) == multiset(msgs);
    Reordered(msgs, both);
    DistinctParts(split.succeeded, split.failed);
    IdSetUnion(split.succeeded, split.failed);
  }

  // ---------- grouping ----------

  type Key = seq<byte>

  /** The rows with one key, in order. */
  function Keyed(rows: seq<Row>, key: Row -> Option<Key>, k: Key): seq<Row> {
    if |rows| == 0 then []
    else Keyed(rows[..|rows| - 1], key, k) + if key(rows[|rows| - 1]) == Some(k) then [rows[|rows| - 1]] else []
  }

  lemma {:induction false} KeyedMembers(rows: seq<Row>, key: Row -> Option<Key>, k: Key)
    requires DistinctIds(rows)
    ensures DistinctIds(Keyed(rows, key, k))
    ensures forall r :: r in Keyed(rows, key, k) <==> r in rows && key(r) == Some(k)
    ensures IdSet(Keyed(rows, key, k)) <= IdSet(rows)
  {
    if |rows| > 0 {
      var front, last := rows[..|rows| - 1], rows[|rows| - 1];
      assert rows == front + [last];
      DistinctParts(front, [last]);
      KeyedMembers(front, key, k);
      var kept := Keyed(front, key, k);
      IdSetUnion(front, [last]);
      assert IdSet([last]) == {last.id} by {
        assert [last][0].id == last.id;
      }
      if key(last) == Some(k) {
        assert Keyed(rows, key, k) == kept + [last];
        IdSetUnion(kept, [last]);
        forall i | 0 <= i < |kept| ensures kept[i].id != last.id {
          assert kept[i].id in IdSet(kept);
        }
      }
    }
  }

  lemma KeyedDisjoint(rows: seq<Row>, key: Row -> Option<Key>, k: Key, l: Key)
    requires DistinctIds(rows) && k != l
    ensures IdSet(Keyed(rows, key, k)) !! IdSet(Keyed(rows, key, l))
  {
    KeyedMembers(rows, key, k);
    KeyedMembers(rows, key, l);
    var a, b := Keyed(rows, key, k), Keyed(rows, key, l);
    forall i, j | 0 <= i < |a| && 0 <= j < |b| ensures a[i].id != b[j].id {
      assert a[i] in a && b[j] in b;
      var x :| 0 <= x < |rows| && rows[x] == a[i];
      var y :| 0 <= y < |rows| && rows[y] == b[j];
      assert x != y;
      assert Ids(rows)[x] != Ids(rows)[y];
    }
  }

  /** Nonempty groups of distinct rows that share nothing, all with ids from the given set. */
  ghost predicate Grouped(groups: map<Key, seq<Row>>, ids: set<nat>) {
    && (forall k :: k in groups ==> groups[k] != [] && DistinctIds(groups[k]) && IdSet(groups[k]) <= ids)
    && (forall k, l :: k in groups && l in groups && k != l ==> IdSet(groups[k]) !! IdSet(groups[l]))
  }

  lemma GroupsOf(rows: seq<Row>, key: Row -> Option<Key>, groups: map<Key, seq<Row>>)
    requires DistinctIds(rows)
    requires forall k :: k in groups ==> groups[k] == Keyed(rows, key, k) && groups[k] != []
    ensures Grouped(groups, IdSet(rows))
  {
    hide DistinctIds, IdSet, Keyed;
    forall k | k in groups ensures DistinctIds(groups[k]) && IdSet(groups[k]) <= IdSet(rows) {
      KeyedMembers(rows, key, k);
    }
    forall k, l | k in groups && l in groups && k != l ensures IdSet(groups[k]) !! IdSet(groups[l]) {
      KeyedDisjoint(rows, key, k, l);
    }
  }

  lemma WidenGroups(groups: map<Key, seq<Row>>, ids: set<nat>, more: set<nat>)
    requires Grouped(groups, ids) && ids <= more
    ensures Grouped(groups, more)
  {
    hide DistinctIds, IdSet;
  }

  lemma GroupRows(groups: map<Key, seq<Row>>, ids: set<nat>, k: Key)
    requires Grouped(groups, ids) && k in groups
    ensures Ids(groups[k]) != [] && NoRepeats(Ids(groups[k])) && AsSet(Ids(groups[k])) == IdSet(groups[k]) <= ids
  {
    AsSetOfIds(groups[k]);
  }

  lemma DistinctMeans(rows: seq<Row>)
    requires DistinctIds(rows)
    ensures NoRepeats(Ids(rows))
  {
  }

  lemma GroupMeans(groups: map<Key, seq<Row>>, ids: set<nat>, k: Key)
    requires Grouped(groups, ids) && k in groups
    ensures DistinctIds(groups[k]) && IdSet(groups[k]) <= ids
  {
  }

  lemma WithoutGroup(groups: map<Key, seq<Row>>, ids: set<nat>, k: Key, rest: set<nat>)
    requires Grouped(groups, ids) && k in groups && ids - IdSet(groups[k]) <= rest
    ensures Grouped(groups - {k}, rest)
  {
    hide DistinctIds, IdSet;
  }

  lemma FirstHasGroup(rows: seq<Row>, key: Row -> Option<Key>)
    requires DistinctIds(rows) && rows != [] && key(rows[0]).Some?
    ensures Keyed(rows, key, key(rows[0]).value) != []
  {
    KeyedMembers(rows, key, key(rows[0]).value);
    assert rows[0] in rows;
  }

  /** Rows without a key are skipped. */
  method GroupBy(rows: seq<Row>, key: Row -> Option<Key>) returns (groups: map<Key, seq<Row>>)
    ensures forall k :: k in groups <==> Keyed(rows, key, k) != []
    ensures forall k :: k in groups ==> groups[k] == Keyed(rows, key, k)
  {
    groups := map[];
    for i := 0 to |rows|
      invariant forall k :: k in groups <==> Keyed(rows[..i], key, k) != []
      invariant forall k :: k in groups ==> groups[k] == Keyed(rows[..i], key, k)
    {
      assert rows[..i + 1][..i] == rows[..i];
      match key(rows[i]) {
        case None =>
        case Some(k) =>
          groups := groups[k := (if k in groups then groups[k] else []) + [rows[i]]];
      }
    }
    assert rows[..|rows|] == rows;
  }

  // ---------- the validator ----------

  predicate NotAfter(a: Row, b: Row) {
    a.createdAt < b.createdAt || (a.createdAt == b.createdAt && a.id <= b.id)
  }

  ghost predicate InOrder(rows: seq<Row>) {
    forall i, j :: 0 <= i < j < |rows| ==> NotAfter(rows[i], rows[j])
  }

  lemma JoinedInOrder(a: seq<Row>, b: seq<Row>)
    requires InOrder(a) && InOrder(b)
    requires forall i, j :: 0 <= i < |a| && 0 <= j < |b| ==> NotAfter(a[i], b[j])
    ensures InOrder(a + b)
  {
    hide NotAfter;
  }

  lemma InsertedInOrder(rows: seq<Row>, at: nat, r: Row)
    requires InOrder(rows) && at <= |rows|
    requires at > 0 ==> NotAfter(rows[at - 1], r)
    requires forall k :: at <= k < |rows| ==> NotAfter(r, rows[k])
    ensures InOrder(rows[..at] + [r] + rows[at..])
  {
    forall i | 0 <= i < at ensures NotAfter(rows[i], r) {
      assert i < at - 1 ==> NotAfter(rows[i], rows[at - 1]);
    }
    hide NotAfter;
    JoinedInOrder(rows[..at], [r]);
    JoinedInOrder(rows[..at] + [r], rows[at..]);
  }

  method InsertInOrder(rows: seq<Row>, r: Row) returns (sorted: seq<Row>)
    requires InOrder(rows)
    ensures InOrder(sorted) && multiset(sorted) == multiset(rows) + multiset{r}
  {
    hide InOrder;
    var i: nat := |rows|;
    while i > 0 && !NotAfter(rows[i - 1], r)
      invariant i <= |rows|
      invariant forall k :: i <= k < |rows| ==> NotAfter(r, rows[k])
    {
      i := i - 1;
    }
    InsertedInOrder(rows, i, r);
    InsertedOnce(rows, i, r);
    sorted := rows[..i] + [r] + rows[i..];
  }

  /** Sorts out messages that have waited too long. */
  class MsgValidator {
    const cutoff: int
    var expired: seq<Row>
    var valid: seq<Row>

    constructor (cutoff: int)
      ensures this.cutoff == cutoff && expired == [] && valid == []
    {
      this.cutoff := cutoff;
      expired := [];
      valid := [];
    }

    method Add(msg: Row)
      modifies this
      ensures expired == old(expired) + if msg.createdAt < cutoff then [msg] else []
      ensures valid == old(valid) + if msg.createdAt < cutoff then [] else [msg]
    {
      if msg.createdAt < cutoff {
        expired := expired + [msg];
      } else {
        valid := valid + [msg];
      }
    }

    method AddAll(msgs: seq<Row>)
      modifies this
      ensures expired == old(expired) + Expired(msgs, cutoff)
      ensures valid == old(valid) + InTime(msgs, cutoff)
    {
      for i := 0 to |msgs|
        invariant expired == old(expired) + Expired(msgs[..i], cutoff)
        invariant valid == old(valid) + InTime(msgs[..i], cutoff)
      {
        assert msgs[..i + 1][..i] == msgs[..i];
        Add(msgs[i]);
      }
      assert msgs[..|msgs|] == msgs;
    }

    /** Oldest first; messages of the same age by id. */
    method SortValid()
      modifies this`valid
      ensures InOrder(valid) && multiset(valid) == multiset(old(valid))
    {
      var sorted: seq<Row> := [];
      for i := 0 to |valid|
        invariant valid == old(valid)
        invariant InOrder(sorted) && multiset(sorted) == multiset(valid[..i])
      {
        assert valid[..i + 1] == valid[..i] + [valid[i]];
        sorted := InsertInOrder(sorted, valid[i]);
      }
      assert valid[..|valid|] == valid;
      valid := sorted;
    }
  }
}
