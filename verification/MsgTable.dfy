/** The message table of the transaction manager and the queries and updates made on it. */
module MsgTable {
  import opened Wrappers
  import opened Bytes

  datatype MsgState = Unstarted | Started | Broadcasted | Confirmed | Errored

  datatype Row = Row(
    id: nat,
    chainId: seq<byte>,
    contractId: seq<byte>,
    typeUrl: seq<byte>,
    raw: seq<byte>,
    state: MsgState,
    txHash: Option<seq<byte>>,
    createdAt: int)

  datatype OrmError = Unavailable | BadLimit | TxHashRequired | WrongCount

  // ---------- what the statements do ----------

  function Moved(r: Row, state: MsgState, txHash: Option<seq<byte>>): Row {
    if state == Broadcasted then r.(state := state, txHash := txHash) else r.(state := state)
  }

  function WithState(rows: seq<Row>, ids: set<nat>, state: MsgState, txHash: Option<seq<byte>>): (after: seq<Row>)
    ensures |after| == |rows|
    ensures forall i :: 0 <= i < |rows| ==>
            after[i] == if rows[i].id in ids then Moved(rows[i], state, txHash) else rows[i]
  {
    seq(|rows|, i requires 0 <= i < |rows| => if rows[i].id in ids then Moved(rows[i], state, txHash) else rows[i])
  }

  predicate IsOf(r: Row, chainId: seq<byte>, contractId: seq<byte>, state: MsgState) {
    r.chainId == chainId && r.contractId == contractId && r.state == state
  }

  function WithContractState(rows: seq<Row>, chainId: seq<byte>, contractId: seq<byte>, from: MsgState,
      to: MsgState): (after: seq<Row>)
    ensures |after| == |rows|
    ensures forall i :: 0 <= i < |rows| ==>
            after[i] == if IsOf(rows[i], chainId, contractId, from) then rows[i].(state := to) else rows[i]
  {
    seq(|rows|, i requires 0 <= i < |rows| =>
      if IsOf(rows[i], chainId, contractId, from) then rows[i].(state := to) else rows[i])
  }

  /** All rows of one chain in one state; the table is kept in the order of its ids. */
  function Select(rows: seq<Row>, chainId: seq<byte>, state: MsgState): seq<Row> {
    if |rows| == 0 then []
    else
      Select(rows[..|rows| - 1], chainId, state)
      + (if rows[|rows| - 1].chainId == chainId && rows[|rows| - 1].state == state then [rows[|rows| - 1]] else [])
  }

  function Oldest(rows: seq<Row>, chainId: seq<byte>, state: MsgState, limit: nat): seq<Row> {
    var all := Select(rows, chainId, state);
    if |all| <= limit then all else all[..limit]
  }

  function Ids(rows: seq<Row>): (ids: seq<nat>)
    ensures |ids| == |rows|
    ensures forall i :: 0 <= i < |ids| ==> ids[i] == rows[i].id
  {
    seq(|rows|, i requires 0 <= i < |rows| => rows[i].id)
  }

  function IdSet(rows: seq<Row>): set<nat> {
    set i | 0 <= i < |rows| :: rows[i].id
  }

  function AsSet(ids: seq<nat>): set<nat> {
    set i | 0 <= i < |ids| :: ids[i]
  }

  function IdsIn(rows: seq<Row>, chainId: seq<byte>, state: MsgState): set<nat> {
    set i | 0 <= i < |rows| && rows[i].chainId == chainId && rows[i].state == state :: rows[i].id
  }

  /** How many rows an update by id touches. */
  function Touched(rows: seq<Row>, ids: set<nat>): nat {
    if |rows| == 0 then 0 else Touched(rows[..|rows| - 1], ids) + if rows[|rows| - 1].id in ids then 1 else 0
  }

  // ---------- ids ----------

  ghost predicate Ascending(rows: seq<Row>) {
    forall i, j :: 0 <= i < j < |rows| ==> rows[i].id < rows[j].id
  }

  ghost predicate NoRepeats(ids: seq<nat>) {
    forall i, j :: 0 <= i < j < |ids| ==> ids[i] != ids[j]
  }

  lemma {:induction false} SelectMembers(rows: seq<Row>, chainId: seq<byte>, state: MsgState)
    requires Ascending(rows)
    ensures forall r :: r in Select(rows, chainId, state) <==> r in rows && r.chainId == chainId && r.state == state
    ensures Ascending(Select(rows, chainId, state))
  {
    if |rows| > 0 {
      var front, last := rows[..|rows| - 1], rows[|rows| - 1];
      SelectMembers(front, chainId, state);
      assert rows == front + [last];
      var kept := Select(front, chainId, state);
      forall i | 0 <= i < |kept| ensures kept[i].id < last.id {
        assert kept[i] in front;
      }
    }
  }

  lemma {:induction false} AscendingIds(rows: seq<Row>)
    requires Ascending(rows)
    ensures |IdSet(rows)| == |rows| && NoRepeats(Ids(rows))
  {
    if |rows| > 0 {
      var front, last := rows[..|rows| - 1], rows[|rows| - 1];
      AscendingIds(front);
      assert IdSet(rows) == IdSet(front) + {last.id};
    }
  }

  lemma IdSetOfSelect(rows: seq<Row>, chainId: seq<byte>, state: MsgState)
    requires Ascending(rows)
    ensures IdSet(Select(rows, chainId, state)) == IdsIn(rows, chainId, state)
    ensures |Select(rows, chainId, state)| == |IdsIn(rows, chainId, state)|
  {
    var all := Select(rows, chainId, state);
    SelectMembers(rows, chainId, state);
    AscendingIds(all);
    forall id | id in IdsIn(rows, chainId, state) ensures id in IdSet(all) {
      var i :| 0 <= i < |rows| && rows[i].chainId == chainId && rows[i].state == state && rows[i].id == id;
      assert rows[i] in all;
    }
    forall id | id in IdSet(all) ensures id in IdsIn(rows, chainId, state) {
      var i :| 0 <= i < |all| && all[i].id == id;
      assert all[i] in rows;
    }
  }

  /** What a query for the oldest rows returns. */
  lemma OldestMembers(rows: seq<Row>, chainId: seq<byte>, state: MsgState, limit: nat)
    requires Ascending(rows)
    ensures var found := Oldest(rows, chainId, state, limit);
            && |found| <= limit && Ascending(found)
            && (forall r :: r in found ==> r in rows && r.chainId == chainId && r.state == state)
            && IdSet(found) <= IdsIn(rows, chainId, state)
            && (|IdsIn(rows, chainId, state)| <= limit ==> IdSet(found) == IdsIn(rows, chainId, state))
            && (IdsIn(rows, chainId, state) != {} && limit > 0 ==> |found| > 0)
  {
    SelectMembers(rows, chainId, state);
    IdSetOfSelect(rows, chainId, state);
    var all, found := Select(rows, chainId, state), Oldest(rows, chainId, state, limit);
    forall r | r in found ensures r in all {
    }
    forall id | id in IdSet(found) ensures id in IdSet(all) {
      var i :| 0 <= i < |found| && found[i].id == id;
      assert all[i].id == id;
    }
  }

  lemma {:induction false} TouchedCount(rows: seq<Row>, ids: set<nat>)
    requires Ascending(rows)
    ensures Touched(rows, ids) == |ids * IdSet(rows)|
  {
    if |rows| > 0 {
      var front, last := rows[..|rows| - 1], rows[|rows| - 1];
      TouchedCount(front, ids);
      assert IdSet(rows) == IdSet(front) + {last.id};
      assert last.id !in IdSet(front);
      if last.id in ids {
        assert ids * IdSet(rows) == ids * IdSet(front) + {last.id};
      } else {
        assert ids * IdSet(rows) == ids * IdSet(front);
      }
    }
  }

  lemma {:induction false} NoRepeatsCount(ids: seq<nat>)
    requires NoRepeats(ids)
    ensures |AsSet(ids)| == |ids|
  {
    if |ids| > 0 {
      var front, last := ids[..|ids| - 1], ids[|ids| - 1];
      NoRepeatsCount(front);
      assert AsSet(ids) == AsSet(front) + {last};
    }
  }

  /** Updating distinct existing rows touches exactly as many as were asked for. */
  lemma AllTouched(rows: seq<Row>, ids: seq<nat>)
    requires Ascending(rows) && NoRepeats(ids) && AsSet(ids) <= IdSet(rows)
    ensures Touched(rows, AsSet(ids)) == |ids|
  {
    TouchedCount(rows, AsSet(ids));
    NoRepeatsCount(ids);
    assert AsSet(ids) * IdSet(rows) == AsSet(ids);
  }

  /** The data access object, scoped to one chain. */
  class Orm {
    const chainId: seq<byte>
    var rows: seq<Row>
    var nextId: nat

    constructor (chainId: seq<byte>)
      ensures this.chainId == chainId && rows == [] && nextId == 0
    {
      this.chainId := chainId;
      rows := [];
      nextId := 0;
    }

    method InsertMsg(contractId: seq<byte>, typeUrl: seq<byte>, raw: seq<byte>, now: int, available: bool)
      returns (r: Result<nat, OrmError>)
      modifies this
      ensures if available
              then r == Success(old(nextId)) && nextId == old(nextId) + 1
                   && rows == old(rows) + [Row(old(nextId), chainId, contractId, typeUrl, raw, Unstarted, None, now)]
              else r == Failure(Unavailable) && rows == old(rows) && nextId == old(nextId)
    {
      if !available {
        return Failure(Unavailable);
      }
      rows := rows + [Row(nextId, chainId, contractId, typeUrl, raw, Unstarted, None, now)];
      nextId := nextId + 1;
      return Success(nextId - 1);
    }

    method UpdateMsgsContract(contractId: seq<byte>, from: MsgState, to: MsgState, available: bool)
      returns (r: Result<(), OrmError>)
      modifies this`rows
      ensures r.Success? <==> available
      ensures rows == if available then WithContractState(old(rows), chainId, contractId, from, to) else old(rows)
    {
      if !available {
        return Failure(Unavailable);
      }
      for i := 0 to |rows|
        invariant |rows| == |old(rows)|
        invariant forall k :: i <= k < |rows| ==> rows[k] == old(rows)[k]
        invariant forall k :: 0 <= k < i ==>
          rows[k] == if IsOf(old(rows)[k], chainId, contractId, from) then old(rows)[k].(state := to) else old(rows)[k]
      {
        if IsOf(rows[i], chainId, contractId, from) {
          rows := rows[i := rows[i].(state := to)];
        }
      }
      return Success(());
    }

    method GetMsgsState(state: MsgState, limit: int, available: bool) returns (r: Result<seq<Row>, OrmError>)
      ensures r == if limit < 1 then Failure(BadLimit)
                   else if !available then Failure(Unavailable)
                   else Success(Oldest(rows, chainId, state, limit))
    {
      if limit < 1 {
        return Failure(BadLimit);
      }
      if !available {
        return Failure(Unavailable);
      }
      var found: seq<Row> := [];
      for i := 0 to |rows|
        invariant found == Select(rows[..i], chainId, state)
      {
        assert rows[..i + 1][..i] == rows[..i];
        if rows[i].chainId == chainId && rows[i].state == state {
          found := found + [rows[i]];
        }
      }
      assert rows[..|rows|] == rows;
      return Success(if |found| <= limit then found else found[..limit]);
    }

    /** Undoes what a failed transaction has written. */
    method Rollback(snapshot: seq<Row>)
      modifies this`rows
      ensures rows == snapshot
    {
      rows := snapshot;
    }

    /** Moves the rows with the given ids. A wrong count is reported after the update has been made. */
    method UpdateMsgs(ids: seq<nat>, state: MsgState, txHash: Option<seq<byte>>, available: bool)
      returns (r: Result<(), OrmError>)
      modifies this`rows
      ensures state == Broadcasted && txHash.None? ==> r == Failure(TxHashRequired) && rows == old(rows)
      ensures !(state == Broadcasted && txHash.None?) && !available ==> r == Failure(Unavailable) && rows == old(rows)
      ensures !(state == Broadcasted && txHash.None?) && available ==>
                && rows == WithState(old(rows), AsSet(ids), state, txHash)
                && r == if Touched(old(rows), AsSet(ids)) == |ids| then Success(()) else Failure(WrongCount)
    {
      if state == Broadcasted && txHash.None? {
        return Failure(TxHashRequired);
      }
      if !available {
        return Failure(Unavailable);
      }
      var count := 0;
      for i := 0 to |rows|
        invariant |rows| == |old(rows)|
        invariant count == Touched(old(rows)[..i], AsSet(ids))
        invariant forall k :: i <= k < |rows| ==> rows[k] == old(rows)[k]
        invariant forall k :: 0 <= k < i ==>
          rows[k] == if old(rows)[k].id in AsSet(ids) then Moved(old(rows)[k], state, txHash) else old(rows)[k]
      {
        assert old(rows)[..i + 1][..i] == old(rows)[..i];
        if rows[i].id in ids {
          rows := rows[i := Moved(rows[i], state, txHash)];
          count := count + 1;
        }
      }
      assert old(rows)[..|rows|] == old(rows);
      if count != |ids| {
        return Failure(WrongCount);
      }
      return Success(());
    }
  }
}
