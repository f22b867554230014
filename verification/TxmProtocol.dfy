/**
 The life of queued messages as a machine. Each step is one committed database transaction, a
 recovery read or a crash; what the sending loop remembers between its transactions is part of
 the state, and requests to enqueue happen anywhere in between.
 */
module TxmProtocol {
  import opened Wrappers
  import opened Bytes
  import opened Seqs
  import opened MsgTable

  datatype Params = Params(chainId: seq<byte>, maxMsgsPerBatch: int)

  /** held: claimed for the current batch. inFlight: broadcast, about to be confirmed. */
  datatype World = World(rows: seq<Row>, nextId: nat, held: set<nat>, inFlight: set<nat>)

  datatype Act =
    | Cancel(contractId: seq<byte>)
    | Insert(contractId: seq<byte>, typeUrl: seq<byte>, raw: seq<byte>, now: int)
    | Claim(cutoff: int)
    | Fail(ids: set<nat>)
    | Broadcast(ids: set<nat>, txHash: seq<byte>)
    | Settle(ids: set<nat>, confirmed: bool)
    | Recover
    | Crash

  // ---------- claiming a batch ----------

  function InTime(rows: seq<Row>, cutoff: int): seq<Row> {
    if |rows| == 0 then []
    else InTime(rows[..|rows| - 1], cutoff) + if rows[|rows| - 1].createdAt >= cutoff then [rows[|rows| - 1]] else []
  }

  function Expired(rows: seq<Row>, cutoff: int): seq<Row> {
    if |rows| == 0 then []
    else Expired(rows[..|rows| - 1], cutoff) + if rows[|rows| - 1].createdAt < cutoff then [rows[|rows| - 1]] else []
  }

  function LeftOver(params: Params, rows: seq<Row>): seq<Row>
    requires params.maxMsgsPerBatch >= 1
  {
    Oldest(rows, params.chainId, Started, params.maxMsgsPerBatch)
  }

  /** New messages, as far as the batch budget goes after the left-over ones. */
  function Queued(params: Params, rows: seq<Row>): seq<Row>
    requires params.maxMsgsPerBatch >= 1
  {
    var limit := params.maxMsgsPerBatch - |LeftOver(params, rows)|;
    if limit > 0 then Oldest(rows, params.chainId, Unstarted, limit) else []
  }

  function Claimed(params: Params, rows: seq<Row>, cutoff: int): (after: seq<Row>)
    requires params.maxMsgsPerBatch >= 1
    ensures |after| == |rows|
  {
    var started, unstarted := LeftOver(params, rows), Queued(params, rows);
    WithState(WithState(rows, IdSet(InTime(unstarted, cutoff)), Started, None),
              IdSet(Expired(unstarted, cutoff) + Expired(started, cutoff)), Errored, None)
  }

  function Held(params: Params, rows: seq<Row>, cutoff: int): set<nat>
    requires params.maxMsgsPerBatch >= 1
  {
    IdSet(InTime(Queued(params, rows), cutoff) + InTime(LeftOver(params, rows), cutoff))
  }

  // ---------- the machine ----------

  /** Acts that the memory of the sender does not allow change nothing. */
  function Next(params: Params, w: World, act: Act): World {
    match act
    case Cancel(contractId) =>
      w.(rows := WithContractState(w.rows, params.chainId, contractId, Unstarted, Errored))
    case Insert(contractId, typeUrl, raw, now) =>
      w.(rows := w.rows + [Row(w.nextId, params.chainId, contractId, typeUrl, raw, Unstarted, None, now)],
         nextId := w.nextId + 1)
    case Claim(cutoff) =>
      if params.maxMsgsPerBatch < 1 then w
      else w.(rows := Claimed(params, w.rows, cutoff), held := Held(params, w.rows, cutoff))
    case Fail(ids) =>
      if ids <= w.held then w.(rows := WithState(w.rows, ids, Errored, None), held := w.held - ids) else w
    case Broadcast(ids, txHash) =>
      if ids <= w.held then
        w.(rows := WithState(w.rows, ids, Broadcasted, Some(txHash)), held := w.held - ids,
           inFlight := w.inFlight + ids)
      else w
    case Settle(ids, confirmed) =>
      if ids <= w.inFlight then
        w.(rows := WithState(w.rows, ids, if confirmed then Confirmed else Errored, None), inFlight := w.inFlight - ids)
      else w
    case Recover =>
      if params.maxMsgsPerBatch < 1 then w
      else w.(held := {}, inFlight := IdSet(Oldest(w.rows, params.chainId, Broadcasted, params.maxMsgsPerBatch)))
    case Crash => w.(held := {}, inFlight := {})
  }

  ghost function Machine(params: Params): (World, Act) -> World {
    (w: World, act: Act) => Next(params, w, act)
  }

  const EMPTY_TABLE: World := World([], 0, {}, {})

  // ---------- the state graph ----------

  /** The documented transitions of one message. */
  predicate Legal(from: MsgState, to: MsgState) {
    || from == to
    || (from == Unstarted && (to == Started || to == Errored))
    || (from == Started && (to == Broadcasted || to == Errored))
    || (from == Broadcasted && (to == Confirmed || to == Errored))
  }

  /** One row over one step: only the state moves, and the hash is stored when it becomes Broadcasted. */
  predicate RowStep(before: Row, after: Row) {
    && after == before.(state := after.state, txHash := after.txHash)
    && Legal(before.state, after.state)
    && (after.txHash == before.txHash || (before.state == Started && after.state == Broadcasted))
  }

  ghost predicate RowsStep(before: seq<Row>, after: seq<Row>) {
    && |before| <= |after|
    && (forall i :: 0 <= i < |before| ==> RowStep(before[i], after[i]))
    && (forall i :: |before| <= i < |after| ==> after[i].state == Unstarted && after[i].txHash == None)
  }

  // ---------- invariant ----------

  ghost predicate StatesOf(rows: seq<Row>, ids: set<nat>, state: MsgState) {
    && ids <= IdSet(rows)
    && forall i :: 0 <= i < |rows| && rows[i].id in ids ==> rows[i].state == state
  }

  ghost predicate Hashed(rows: seq<Row>) {
    forall i :: 0 <= i < |rows| && (rows[i].state == Broadcasted || rows[i].state == Confirmed) ==> rows[i].txHash.Some?
  }

  ghost predicate Budgeted(params: Params, rows: seq<Row>) {
    |IdsIn(rows, params.chainId, Started)| <= if params.maxMsgsPerBatch < 0 then 0 else params.maxMsgsPerBatch
  }

  ghost predicate Good(params: Params, w: World) {
    && Ascending(w.rows)
    && (forall i :: 0 <= i < |w.rows| ==> w.rows[i].id < w.nextId)
    && StatesOf(w.rows, w.held, Started)
    && StatesOf(w.rows, w.inFlight, Broadcasted)
    && Hashed(w.rows)
    && Budgeted(params, w.rows)
  }

  // ---------- the filters ----------

  lemma {:induction false} InTimeMembers(rows: seq<Row>, cutoff: int)
    requires Ascending(rows)
    ensures forall r :: r in InTime(rows, cutoff) <==> r in rows && r.createdAt >= cutoff
    ensures Ascending(InTime(rows, cutoff)) && |InTime(rows, cutoff)| <= |rows|
  {
    if |rows| > 0 {
      var front, last := rows[..|rows| - 1], rows[|rows| - 1];
      InTimeMembers(front, cutoff);
      assert rows == front + [last];
      forall r | r in InTime(front, cutoff) ensures r.id < last.id {
        assert r in front;
      }
    }
  }

  lemma {:induction false} ExpiredMembers(rows: seq<Row>, cutoff: int)
    requires Ascending(rows)
    ensures forall r :: r in Expired(rows, cutoff) <==> r in rows && r.createdAt < cutoff
    ensures Ascending(Expired(rows, cutoff))
  {
    if |rows| > 0 {
      var front, last := rows[..|rows| - 1], rows[|rows| - 1];
      ExpiredMembers(front, cutoff);
      assert rows == front + [last];
      forall r | r in Expired(front, cutoff) ensures r.id < last.id {
        assert r in front;
      }
    }
  }

  lemma FilterMembers(rows: seq<Row>, cutoff: int)
    requires Ascending(rows)
    ensures forall r :: r in InTime(rows, cutoff) <==> r in rows && r.createdAt >= cutoff
    ensures forall r :: r in Expired(rows, cutoff) <==> r in rows && r.createdAt < cutoff
    ensures Ascending(InTime(rows, cutoff)) && Ascending(Expired(rows, cutoff))
    ensures |InTime(rows, cutoff)| <= |rows|
  {
    InTimeMembers(rows, cutoff);
    ExpiredMembers(rows, cutoff);
  }

  lemma {:induction false} AscendingInjective(rows: seq<Row>, a: Row, b: Row)
    requires Ascending(rows) && a in rows && b in rows && a.id == b.id
    ensures a == b
  {
    var i :| 0 <= i < |rows| && rows[i] == a;
    var j :| 0 <= j < |rows| && rows[j] == b;
  }

  /** In a table with ascending ids a row is found by its id. */
  lemma FoundById(rows: seq<Row>, part: seq<Row>, r: Row)
    requires Ascending(rows) && r in rows && forall x :: x in part ==> x in rows
    ensures r.id in IdSet(part) <==> r in part
  {
    if r.id in IdSet(part) {
      var k :| 0 <= k < |part| && part[k].id == r.id;
      assert part[k] in part;
      AscendingInjective(rows, part[k], r);
    }
  }

  lemma PartOfTable(rows: seq<Row>, part: seq<Row>)
    requires forall x :: x in part ==> x in rows
    ensures IdSet(part) <= IdSet(rows)
  {
    forall id | id in IdSet(part) ensures id in IdSet(rows) {
      var k :| 0 <= k < |part| && part[k].id == id;
      assert part[k] in part;
    }
  }

  /** A claim reads rows that are there, in the state asked for. */
  lemma ClaimReads(params: Params, rows: seq<Row>, cutoff: int)
    requires Ascending(rows) && params.maxMsgsPerBatch >= 1
    ensures var started, unstarted := LeftOver(params, rows), Queued(params, rows);
            && Ascending(started) && Ascending(unstarted)
            && |started| + |unstarted| <= params.maxMsgsPerBatch
            && (forall r :: r in started ==> r in rows && r.state == Started)
            && (forall r :: r in unstarted ==> r in rows && r.state == Unstarted)
            && (Budgeted(params, rows) ==> IdSet(started) == IdsIn(rows, params.chainId, Started))
  {
    OldestMembers(rows, params.chainId, Started, params.maxMsgsPerBatch);
    var limit := params.maxMsgsPerBatch - |LeftOver(params, rows)|;
    if limit > 0 {
      OldestMembers(rows, params.chainId, Unstarted, limit);
    }
  }

  /** Which way a claim moves one row. */
  lemma ClaimMoves(params: Params, rows: seq<Row>, cutoff: int, i: nat)
    requires Ascending(rows) && params.maxMsgsPerBatch >= 1 && i < |rows|
    ensures var started, unstarted := LeftOver(params, rows), Queued(params, rows);
            var r, r' := rows[i], Claimed(params, rows, cutoff)[i];
            r' == if r in unstarted then r.(state := if r.createdAt >= cutoff then Started else Errored)
                  else if r in started && r.createdAt < cutoff then r.(state := Errored)
                  else r
  {
    var started, unstarted := LeftOver(params, rows), Queued(params, rows);
    ClaimReads(params, rows, cutoff);
    FilterMembers(started, cutoff);
    FilterMembers(unstarted, cutoff);
    var valid, expired := InTime(unstarted, cutoff), Expired(unstarted, cutoff) + Expired(started, cutoff);
    var r := rows[i];
    assert forall x :: x in expired <==> x in Expired(unstarted, cutoff) || x in Expired(started, cutoff);
    hide LeftOver, Queued, InTime, Expired, IdSet;
    FoundById(rows, valid, r);
    FoundById(rows, expired, r);
  }

  // ---------- every step keeps the invariant and moves rows along the graph ----------

  lemma UpdateKeepsIds(rows: seq<Row>, ids: set<nat>, to: MsgState, txHash: Option<seq<byte>>, chainId: seq<byte>)
    requires to != Started
    ensures IdSet(WithState(rows, ids, to, txHash)) == IdSet(rows)
    ensures |IdsIn(WithState(rows, ids, to, txHash), chainId, Started)| <= |IdsIn(rows, chainId, Started)|
  {
    var rows' := WithState(rows, ids, to, txHash);
    forall i | 0 <= i < |rows'| ensures rows'[i].id == rows[i].id {
    }
    assert IdSet(rows') == IdSet(rows);
    SubsetSize(IdsIn(rows', chainId, Started), IdsIn(rows, chainId, Started));
  }

  lemma UpdateStates(rows: seq<Row>, ids: set<nat>, to: MsgState, txHash: Option<seq<byte>>, others: set<nat>,
      state: MsgState)
    requires StatesOf(rows, others, state) && ids <= IdSet(rows)
             && IdSet(WithState(rows, ids, to, txHash)) == IdSet(rows)
    ensures StatesOf(WithState(rows, ids, to, txHash), others - ids, state)
    ensures StatesOf(WithState(rows, ids, to, txHash), ids, to)
  {
    hide IdSet;
  }

  lemma UpdateMoves(rows: seq<Row>, ids: set<nat>, from: MsgState, to: MsgState, txHash: Option<seq<byte>>)
    requires StatesOf(rows, ids, from) && Legal(from, to) && from != to && (to == Broadcasted ==> txHash.Some?)
    requires Ascending(rows) && Hashed(rows)
    ensures var rows' := WithState(rows, ids, to, txHash); RowsStep(rows, rows') && Ascending(rows') && Hashed(rows')
  {
    hide IdSet;
  }

  lemma UpdateKeeps(params: Params, w: World, ids: set<nat>, from: MsgState, to: MsgState, txHash: Option<seq<byte>>)
    requires Good(params, w) && StatesOf(w.rows, ids, from) && Legal(from, to) && to != Started && from != to
    requires to == Broadcasted ==> txHash.Some?
    ensures var w' := World(WithState(w.rows, ids, to, txHash), w.nextId, w.held - ids,
                            if to == Broadcasted then w.inFlight - ids + ids else w.inFlight - ids);
            Good(params, w') && RowsStep(w.rows, w'.rows)
  {
    UpdateKeepsIds(w.rows, ids, to, txHash, params.chainId);
    UpdateStates(w.rows, ids, to, txHash, w.held, Started);
    UpdateStates(w.rows, ids, to, txHash, w.inFlight, Broadcasted);
    UpdateMoves(w.rows, ids, from, to, txHash);
    hide IdSet, IdsIn, Ascending, Hashed, RowsStep;
  }

  lemma CancelKeeps(params: Params, w: World, contractId: seq<byte>)
    requires Good(params, w)
    ensures Good(params, Next(params, w, Cancel(contractId)))
    ensures RowsStep(w.rows, Next(params, w, Cancel(contractId)).rows)
  {
    var rows' := WithContractState(w.rows, params.chainId, contractId, Unstarted, Errored);
    assert IdSet(rows') == IdSet(w.rows) by {
      forall i | 0 <= i < |rows'| ensures rows'[i].id == w.rows[i].id {
      }
    }
    assert IdsIn(rows', params.chainId, Started) == IdsIn(w.rows, params.chainId, Started);
  }

  lemma InsertKeeps(params: Params, w: World, r: Row)
    requires Good(params, w) && r.id == w.nextId && r.state == Unstarted && r.txHash == None
    ensures var w' := w.(rows := w.rows + [r], nextId := w.nextId + 1);
            Good(params, w') && RowsStep(w.rows, w'.rows)
  {
    IdSetAppend(w.rows, r);
    IdsInAppend(w.rows, r, params.chainId);
    hide IdSet, IdsIn;
  }

  lemma IdSetAppend(rows: seq<Row>, r: Row)
    ensures IdSet(rows + [r]) == IdSet(rows) + {r.id}
  {
    var rows' := rows + [r];
    assert rows'[|rows|] == r;
    forall i | 0 <= i < |rows| ensures rows'[i] == rows[i] {
    }
  }

  lemma IdsInAppend(rows: seq<Row>, r: Row, chainId: seq<byte>)
    requires r.state == Unstarted
    ensures IdsIn(rows + [r], chainId, Started) == IdsIn(rows, chainId, Started)
  {
    var rows' := rows + [r];
    forall i | 0 <= i < |rows| ensures rows'[i] == rows[i] {
    }
  }

  lemma ClaimKeepsIds(params: Params, rows: seq<Row>, cutoff: int)
    requires Ascending(rows) && params.maxMsgsPerBatch >= 1
    ensures RowsStep(rows, Claimed(params, rows, cutoff))
    ensures IdSet(Claimed(params, rows, cutoff)) == IdSet(rows)
    ensures forall i :: 0 <= i < |rows| && rows[i].state != Unstarted && rows[i].state != Started ==>
            Claimed(params, rows, cutoff)[i] == rows[i]
  {
    var rows' := Claimed(params, rows, cutoff);
    ClaimReads(params, rows, cutoff);
    forall i | 0 <= i < |rows|
      ensures RowStep(rows[i], rows'[i]) && rows'[i].id == rows[i].id
      ensures rows[i].state != Unstarted && rows[i].state != Started ==> rows'[i] == rows[i]
    {
      ClaimMoves(params, rows, cutoff, i);
    }
    hide Claimed;
  }

  lemma HeldRows(params: Params, rows: seq<Row>, cutoff: int)
    requires Ascending(rows) && params.maxMsgsPerBatch >= 1
    ensures var kept := InTime(Queued(params, rows), cutoff) + InTime(LeftOver(params, rows), cutoff);
            && Held(params, rows, cutoff) == IdSet(kept) && |IdSet(kept)| <= params.maxMsgsPerBatch
            && forall x :: x in kept <==>
                 (x in Queued(params, rows) || x in LeftOver(params, rows)) && x.createdAt >= cutoff
  {
    var started, unstarted := LeftOver(params, rows), Queued(params, rows);
    ClaimReads(params, rows, cutoff);
    FilterMembers(started, cutoff);
    FilterMembers(unstarted, cutoff);
    var kept := InTime(unstarted, cutoff) + InTime(started, cutoff);
    IdSetSize(kept);
    assert Held(params, rows, cutoff) == IdSet(kept);
    hide LeftOver, Queued, InTime, Expired, IdSet, Held;
    assert forall x :: x in kept <==> x in InTime(unstarted, cutoff) || x in InTime(started, cutoff);
  }

  /** After a claim a row of the chain is Started exactly if it is in the batch. */
  lemma HeldIsStarted(params: Params, rows: seq<Row>, cutoff: int, i: nat)
    requires Ascending(rows) && params.maxMsgsPerBatch >= 1 && Budgeted(params, rows) && i < |rows|
    ensures var r := Claimed(params, rows, cutoff)[i];
            && (r.id in Held(params, rows, cutoff) ==> r.state == Started)
            && (r.chainId == params.chainId && r.state == Started ==> r.id in Held(params, rows, cutoff))
  {
    var started, unstarted := LeftOver(params, rows), Queued(params, rows);
    var kept := InTime(unstarted, cutoff) + InTime(started, cutoff);
    ClaimMoves(params, rows, cutoff, i);
    ClaimReads(params, rows, cutoff);
    HeldRows(params, rows, cutoff);
    assert rows[i].chainId == params.chainId && rows[i].state == Started ==> rows[i].id in IdSet(started);
    hide Claimed, LeftOver, Queued, InTime, Expired, IdSet, Budgeted, IdsIn, Held;
    FoundById(rows, kept, rows[i]);
    FoundById(rows, started, rows[i]);
  }

  /** After a claim the Started rows of the chain are exactly those of the batch. */
  lemma ClaimHolds(params: Params, rows: seq<Row>, cutoff: int)
    requires Ascending(rows) && params.maxMsgsPerBatch >= 1 && Budgeted(params, rows)
    ensures StatesOf(Claimed(params, rows, cutoff), Held(params, rows, cutoff), Started)
    ensures IdsIn(Claimed(params, rows, cutoff), params.chainId, Started) <= Held(params, rows, cutoff)
    ensures |Held(params, rows, cutoff)| <= params.maxMsgsPerBatch
  {
    HeldRows(params, rows, cutoff);
    ClaimReads(params, rows, cutoff);
    ClaimKeepsIds(params, rows, cutoff);
    PartOfTable(rows, InTime(Queued(params, rows), cutoff) + InTime(LeftOver(params, rows), cutoff));
    hide Claimed, LeftOver, Queued, InTime, Expired, Held, Budgeted;
    forall i | 0 <= i < |rows|
      ensures var r := Claimed(params, rows, cutoff)[i];
              && (r.id in Held(params, rows, cutoff) ==> r.state == Started)
              && (r.chainId == params.chainId && r.state == Started ==> r.id in Held(params, rows, cutoff))
    {
      HeldIsStarted(params, rows, cutoff, i);
    }
  }

  lemma {:induction false} IdSetSize(rows: seq<Row>)
    ensures |IdSet(rows)| <= |rows|
  {
    if |rows| > 0 {
      IdSetSize(rows[..|rows| - 1]);
      assert IdSet(rows) == IdSet(rows[..|rows| - 1]) + {rows[|rows| - 1].id};
    }
  }

  /** A claim leaves everything alone that is not waiting and not already claimed. */
  lemma ClaimSparesOthers(params: Params, w: World, cutoff: int)
    requires Good(params, w) && params.maxMsgsPerBatch >= 1
    ensures var rows' := Claimed(params, w.rows, cutoff);
            && Ascending(rows') && (forall i :: 0 <= i < |rows'| ==> rows'[i].id < w.nextId)
            && StatesOf(rows', w.inFlight, Broadcasted) && Hashed(rows')
  {
    ClaimKeepsIds(params, w.rows, cutoff);
    var rows' := Claimed(params, w.rows, cutoff);
    hide Claimed, Budgeted;
    assert forall i :: 0 <= i < |rows'| ==> RowStep(w.rows[i], rows'[i]);
  }

  lemma ClaimKeeps(params: Params, w: World, cutoff: int)
    requires Good(params, w)
    ensures Good(params, Next(params, w, Claim(cutoff))) && RowsStep(w.rows, Next(params, w, Claim(cutoff)).rows)
  {
    if params.maxMsgsPerBatch >= 1 {
      ClaimKeepsIds(params, w.rows, cutoff);
      ClaimSparesOthers(params, w, cutoff);
      ClaimHolds(params, w.rows, cutoff);
      var rows' := Claimed(params, w.rows, cutoff);
      SubsetSize(IdsIn(rows', params.chainId, Started), Held(params, w.rows, cutoff));
      hide Claimed, Held, RowStep, StatesOf, Hashed, Ascending, IdsIn, IdSet;
    } else {
      hide Claimed, Held, StatesOf, Hashed, Ascending, IdsIn;
    }
  }

  lemma RecoverKeeps(params: Params, w: World)
    requires Good(params, w)
    ensures Good(params, Next(params, w, Recover)) && Next(params, w, Recover).rows == w.rows
  {
    if params.maxMsgsPerBatch >= 1 {
      OldestMembers(w.rows, params.chainId, Broadcasted, params.maxMsgsPerBatch);
      var found := Oldest(w.rows, params.chainId, Broadcasted, params.maxMsgsPerBatch);
      forall i | 0 <= i < |w.rows| && w.rows[i].id in IdSet(found) ensures w.rows[i].state == Broadcasted {
        var k :| 0 <= k < |found| && found[k].id == w.rows[i].id;
        assert found[k] in found;
        AscendingInjective(w.rows, found[k], w.rows[i]);
      }
      PartOfTable(w.rows, found);
    }
  }

  lemma SmallerMemory(params: Params, w: World, ids: set<nat>, state: MsgState)
    requires StatesOf(w.rows, ids, state)
    ensures forall part: set<nat> :: part <= ids ==> StatesOf(w.rows, part, state)
  {
  }

  /** Every committed step keeps the invariant and moves every row along the graph. */
  lemma NextKeeps(params: Params, w: World, act: Act)
    requires Good(params, w)
    ensures Good(params, Next(params, w, act)) && RowsStep(w.rows, Next(params, w, act).rows)
  {
    match act {
      case Cancel(contractId) => CancelKeeps(params, w, contractId);
      case Insert(contractId, typeUrl, raw, now) =>
        InsertKeeps(params, w, Row(w.nextId, params.chainId, contractId, typeUrl, raw, Unstarted, None, now));
      case Claim(cutoff) => ClaimKeeps(params, w, cutoff);
      case Fail(ids) =>
        if ids <= w.held {
          SmallerMemory(params, w, w.held, Started);
          DisjointStates(w, ids);
          UpdateKeeps(params, w, ids, Started, Errored, None);
          assert w.inFlight - ids == w.inFlight;
        }
      case Broadcast(ids, txHash) =>
        if ids <= w.held {
          SmallerMemory(params, w, w.held, Started);
          DisjointStates(w, ids);
          UpdateKeeps(params, w, ids, Started, Broadcasted, Some(txHash));
          assert w.inFlight - ids + ids == w.inFlight + ids;
        }
      case Settle(ids, confirmed) =>
        if ids <= w.inFlight {
          SmallerMemory(params, w, w.inFlight, Broadcasted);
          DisjointStates(w, ids);
          UpdateKeeps(params, w, ids, Broadcasted, if confirmed then Confirmed else Errored, None);
          assert w.held - ids == w.held;
        }
      case Recover => RecoverKeeps(params, w);
      case Crash =>
    }
  }

  /** A row is not both claimed and in flight. */
  lemma DisjointStates(w: World, ids: set<nat>)
    requires StatesOf(w.rows, w.held, Started) && StatesOf(w.rows, w.inFlight, Broadcasted)
    ensures w.held !! w.inFlight
  {
    forall id | id in w.held ensures id !in w.inFlight {
      var i :| 0 <= i < |w.rows| && w.rows[i].id == id;
    }
  }
}
