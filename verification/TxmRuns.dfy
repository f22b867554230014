/** What holds over every run of the message machine: any interleaving of requests, sending and crashes. */
module TxmRuns {
  import opened Wrappers
  import opened Bytes
  import opened MsgTable
  import opened Runs
  import opened TxmProtocol

  ghost function GoodFor(params: Params): World -> bool {
    (w: World) => Good(params, w)
  }

  lemma GoodIsInductive(params: Params)
    ensures Inductive(Machine(params), GoodFor(params))
  {
    hide Good, Next;
    forall w: World, act: Act | Good(params, w) ensures Good(params, Next(params, w, act)) {
      NextKeeps(params, w, act);
    }
  }

  /** From an empty table every run keeps the invariant. */
  lemma ReachableGood(params: Params, acts: seq<Act>)
    ensures Good(params, Run(Machine(params), EMPTY_TABLE, acts))
  {
    GoodIsInductive(params);
    assert IdsIn([], params.chainId, Started) == {} && Good(params, EMPTY_TABLE);
    hide Good;
    InvariantAlong(Machine(params), GoodFor(params), EMPTY_TABLE, acts);
  }

  /** What a new process starts from: the table its predecessor left, and no memory. */
  function Restarted(w: World): World {
    World(w.rows, w.nextId, {}, {})
  }

  ghost function LeftBy(params: Params, lives: seq<seq<Act>>): World {
    if |lives| == 0 then EMPTY_TABLE
    else Run(Machine(params), Restarted(LeftBy(params, lives[..|lives| - 1])), lives[|lives| - 1])
  }

  function Joined(lives: seq<seq<Act>>): seq<Act> {
    if |lives| == 0 then [] else Joined(lives[..|lives| - 1]) + ([Crash] + lives[|lives| - 1])
  }

  lemma OneMoreLife(params: Params, before: seq<Act>, life: seq<Act>)
    ensures Run(Machine(params), EMPTY_TABLE, before + ([Crash] + life))
         == Run(Machine(params), Restarted(Run(Machine(params), EMPTY_TABLE, before)), life)
  {
    var next := Machine(params);
    assert before + ([Crash] + life) == before + [Crash] + life;
    RunAppend(next, EMPTY_TABLE, before + [Crash], life);
    RunSnoc(next, EMPTY_TABLE, before, Crash);
  }

  /**
   Any number of process lives, each starting on the table its predecessor left, are one run from
   the empty table with a crash before each life; and each of them starts on a well-formed table.
   */
  lemma {:induction false} LivesAreOneRun(params: Params, lives: seq<seq<Act>>)
    ensures LeftBy(params, lives) == Run(Machine(params), EMPTY_TABLE, Joined(lives))
    ensures Good(params, LeftBy(params, lives)) && Good(params, Restarted(LeftBy(params, lives)))
  {
    if |lives| > 0 {
      var front, life := lives[..|lives| - 1], lives[|lives| - 1];
      LivesAreOneRun(params, front);
      OneMoreLife(params, Joined(front), life);
    }
    ReachableGood(params, Joined(lives));
  }

  lemma GoodAt(params: Params, acts: seq<Act>, i: nat)
    requires i <= |acts|
    ensures Good(params, At(Machine(params), EMPTY_TABLE, acts, i))
  {
    ReachableGood(params, acts[..i]);
  }

  /** In every run every step moves rows only along the documented graph. */
  lemma EveryStepIsLegal(params: Params, acts: seq<Act>, i: nat)
    requires i < |acts|
    ensures RowsStep(At(Machine(params), EMPTY_TABLE, acts, i).rows, At(Machine(params), EMPTY_TABLE, acts, i + 1).rows)
  {
    GoodAt(params, acts, i);
    hide Good, RowsStep, Next;
    AtNext(Machine(params), EMPTY_TABLE, acts, i);
    NextKeeps(params, At(Machine(params), EMPTY_TABLE, acts, i), acts[i]);
  }

  /** A message that was broadcast has its transaction hash stored. */
  lemma BroadcastHasHash(params: Params, acts: seq<Act>, k: nat)
    requires k < |Run(Machine(params), EMPTY_TABLE, acts).rows|
    requires var state := Run(Machine(params), EMPTY_TABLE, acts).rows[k].state;
             state == Broadcasted || state == Confirmed
    ensures Run(Machine(params), EMPTY_TABLE, acts).rows[k].txHash.Some?
  {
    ReachableGood(params, acts);
  }

  /** Never more Started messages than fit into one batch. */
  lemma StartedFitsBatch(params: Params, acts: seq<Act>)
    ensures |Select(Run(Machine(params), EMPTY_TABLE, acts).rows, params.chainId, Started)|
         <= if params.maxMsgsPerBatch < 0 then 0 else params.maxMsgsPerBatch
  {
    ReachableGood(params, acts);
    IdSetOfSelect(Run(Machine(params), EMPTY_TABLE, acts).rows, params.chainId, Started);
  }

  // ---------- what never changes back ----------

  function Rank(state: MsgState): nat {
    match state
    case Unstarted => 0
    case Started => 1
    case Broadcasted => 2
    case Confirmed => 3
    case Errored => 3
  }

  /** States only rise; the hash of a broadcast message and terminal messages stay as they are. */
  ghost predicate Rises(a: seq<Row>, b: seq<Row>) {
    && |a| <= |b|
    && forall i :: 0 <= i < |a| ==>
         && a[i].id == b[i].id
         && Rank(a[i].state) <= Rank(b[i].state)
         && (Rank(a[i].state) >= 2 ==> b[i].txHash == a[i].txHash)
         && (Rank(a[i].state) == 3 ==> b[i] == a[i])
  }

  ghost function RisesTo(): (World, World) -> bool {
    (a: World, b: World) => Rises(a.rows, b.rows)
  }

  lemma RisingIsMonotone(params: Params)
    ensures Monotone(Machine(params), GoodFor(params), RisesTo())
  {
    hide Good, Next;
    forall a: World, b: World, c: World | Rises(a.rows, b.rows) && Rises(b.rows, c.rows) ensures Rises(a.rows, c.rows) {
    }
    forall w: World, act: Act | Good(params, w) ensures Rises(w.rows, Next(params, w, act).rows) {
      NextKeeps(params, w, act);
      StepRises(w.rows, Next(params, w, act).rows);
    }
  }

  lemma StepRises(a: seq<Row>, b: seq<Row>)
    requires RowsStep(a, b)
    ensures Rises(a, b)
  {
    forall i | 0 <= i < |a| ensures RowStep(a[i], b[i]) {
    }
  }

  lemma RisesBetween(params: Params, acts: seq<Act>, i: nat, j: nat)
    requires i <= j <= |acts|
    ensures Rises(At(Machine(params), EMPTY_TABLE, acts, i).rows, At(Machine(params), EMPTY_TABLE, acts, j).rows)
  {
    GoodIsInductive(params);
    GoodAt(params, acts, 0);
    RisingIsMonotone(params);
    hide Good, Rises, Next;
    RelationAlong(Machine(params), GoodFor(params), RisesTo(), EMPTY_TABLE, acts, i, j);
  }

  /** Step i of a run marks message k as broadcast. */
  ghost predicate BroadcastsAt(params: Params, acts: seq<Act>, i: nat, k: nat)
    requires i < |acts|
  {
    var before, after :=
      At(Machine(params), EMPTY_TABLE, acts, i).rows, At(Machine(params), EMPTY_TABLE, acts, i + 1).rows;
    k < |before| && k < |after| && before[k].state != Broadcasted && after[k].state == Broadcasted
  }

  /** No message is committed as broadcast twice. */
  lemma BroadcastOnce(params: Params, acts: seq<Act>, i: nat, j: nat, k: nat)
    requires i < j < |acts| && BroadcastsAt(params, acts, i, k)
    ensures !BroadcastsAt(params, acts, j, k)
  {
    RisesBetween(params, acts, i + 1, j);
    RisesBetween(params, acts, j, j + 1);
    hide At;
  }

  /** Confirmed and errored messages never change again. */
  lemma TerminalIsForever(params: Params, acts: seq<Act>, i: nat, j: nat, k: nat)
    requires i <= j <= |acts| && k < |At(Machine(params), EMPTY_TABLE, acts, i).rows|
    requires var state := At(Machine(params), EMPTY_TABLE, acts, i).rows[k].state;
             state == Confirmed || state == Errored
    ensures k < |At(Machine(params), EMPTY_TABLE, acts, j).rows|
    ensures At(Machine(params), EMPTY_TABLE, acts, j).rows[k] == At(Machine(params), EMPTY_TABLE, acts, i).rows[k]
  {
    RisesBetween(params, acts, i, j);
    hide At;
  }

  // ---------- enqueueing ----------

  /** No message of the contract waits to be picked up. */
  ghost predicate NoneQueued(params: Params, rows: seq<Row>, contractId: seq<byte>) {
    forall i :: 0 <= i < |rows| ==> !IsOf(rows[i], params.chainId, contractId, Unstarted)
  }

  predicate Inserts(act: Act, contractId: seq<byte>) {
    act.Insert? && act.contractId == contractId
  }

  lemma NoneQueuedStep(params: Params, w: World, act: Act, contractId: seq<byte>)
    requires Good(params, w) && NoneQueued(params, w.rows, contractId) && !Inserts(act, contractId)
    ensures NoneQueued(params, Next(params, w, act).rows, contractId)
  {
    NextKeeps(params, w, act);
    var rows' := Next(params, w, act).rows;
    hide Good;
    forall i | 0 <= i < |w.rows| ensures !IsOf(rows'[i], params.chainId, contractId, Unstarted) {
      assert RowStep(w.rows[i], rows'[i]);
    }
    assert !act.Insert? ==> |rows'| == |w.rows|;
  }

  lemma {:induction false} NoneQueuedAlong(params: Params, w: World, acts: seq<Act>, contractId: seq<byte>)
    requires Good(params, w) && NoneQueued(params, w.rows, contractId)
    requires forall i :: 0 <= i < |acts| ==> !Inserts(acts[i], contractId)
    ensures Good(params, Run(Machine(params), w, acts))
            && NoneQueued(params, Run(Machine(params), w, acts).rows, contractId)
  {
    hide Good, NoneQueued, Next;
    if |acts| > 0 {
      NoneQueuedAlong(params, w, acts[..|acts| - 1], contractId);
      var before := Run(Machine(params), w, acts[..|acts| - 1]);
      NextKeeps(params, before, acts[|acts| - 1]);
      NoneQueuedStep(params, before, acts[|acts| - 1], contractId);
    }
  }

  /**
   When no other request for the contract inserts between the two halves of a request, its own
   message is the only one of that contract waiting, whatever else happens in between.
   */
  lemma EnqueueLeavesOneQueued(params: Params, w: World, contractId: seq<byte>, between: seq<Act>, typeUrl: seq<byte>,
      raw: seq<byte>, now: int)
    requires Good(params, w)
    requires forall i :: 0 <= i < |between| ==> !Inserts(between[i], contractId)
    ensures var middle := Run(Machine(params), Next(params, w, Cancel(contractId)), between);
            var rows := Next(params, middle, Insert(contractId, typeUrl, raw, now)).rows;
            |rows| > 0 && forall i :: 0 <= i < |rows| ==>
              (IsOf(rows[i], params.chainId, contractId, Unstarted) <==> i == |rows| - 1)
  {
    var cancelled := Next(params, w, Cancel(contractId));
    NextKeeps(params, w, Cancel(contractId));
    assert NoneQueued(params, cancelled.rows, contractId);
    hide Good;
    NoneQueuedAlong(params, cancelled, between, contractId);
    var middle := Run(Machine(params), cancelled, between);
    var rows := Next(params, middle, Insert(contractId, typeUrl, raw, now)).rows;
    forall i | 0 <= i < |rows| - 1 ensures rows[i] == middle.rows[i] {
    }
  }

  ghost predicate OnlyQueued(params: Params, rows: seq<Row>, contractId: seq<byte>, k: nat) {
    k < |rows| && forall i :: 0 <= i < |rows| ==> (IsOf(rows[i], params.chainId, contractId, Unstarted) <==> i == k)
  }

  /** Exactly one message of the contract waits to be picked up. */
  ghost predicate OneQueued(params: Params, rows: seq<Row>, contractId: seq<byte>) {
    exists k: nat :: OnlyQueued(params, rows, contractId, k)
  }

  /** Each insert for the contract is cancelled again by a later request. */
  ghost predicate InsertsCancelled(acts: seq<Act>, contractId: seq<byte>) {
    forall i :: 0 <= i < |acts| && Inserts(acts[i], contractId) ==> CancelledAfter(acts, i, contractId)
  }

  ghost predicate CancelledAfter(acts: seq<Act>, i: nat, contractId: seq<byte>) {
    exists j :: i < j < |acts| && acts[j] == Cancel(contractId)
  }

  /** The second half of a request leaves its message alone exactly if none was waiting before. */
  lemma OneQueuedIff(params: Params, w: World, contractId: seq<byte>, typeUrl: seq<byte>, raw: seq<byte>, now: int)
    ensures OneQueued(params, Next(params, w, Insert(contractId, typeUrl, raw, now)).rows, contractId)
       <==> NoneQueued(params, w.rows, contractId)
  {
    var rows := Next(params, w, Insert(contractId, typeUrl, raw, now)).rows;
    var last := |w.rows|;
    assert IsOf(rows[last], params.chainId, contractId, Unstarted);
    forall i | 0 <= i < last ensures rows[i] == w.rows[i] {
    }
    if NoneQueued(params, w.rows, contractId) {
      assert OnlyQueued(params, rows, contractId, last);
    }
    if OneQueued(params, rows, contractId) {
      var k: nat :| OnlyQueued(params, rows, contractId, k);
      forall i | 0 <= i < last ensures !IsOf(w.rows[i], params.chainId, contractId, Unstarted) {
        assert IsOf(rows[i], params.chainId, contractId, Unstarted) <==> i == k;
      }
    }
  }

  /** A waiting message stays waiting until it is claimed or cancelled. */
  lemma QueuedStays(params: Params, w: World, act: Act, contractId: seq<byte>)
    requires Good(params, w) && !NoneQueued(params, w.rows, contractId)
    requires !act.Claim? && act != Cancel(contractId)
    ensures !NoneQueued(params, Next(params, w, act).rows, contractId)
  {
    var i :| 0 <= i < |w.rows| && IsOf(w.rows[i], params.chainId, contractId, Unstarted);
    assert Next(params, w, act).rows[i] == w.rows[i];
  }

  lemma CancelClears(params: Params, w: World, contractId: seq<byte>)
    ensures NoneQueued(params, Next(params, w, Cancel(contractId)).rows, contractId)
  {
  }

  lemma InsertsCancelledStep(acts: seq<Act>, contractId: seq<byte>)
    requires |acts| > 0
    ensures InsertsCancelled(acts, contractId) <==>
              || acts[|acts| - 1] == Cancel(contractId)
              || (!Inserts(acts[|acts| - 1], contractId) && InsertsCancelled(acts[..|acts| - 1], contractId))
  {
    var front, last := acts[..|acts| - 1], |acts| - 1;
    if acts[last] == Cancel(contractId) {
      forall i | 0 <= i < |acts| && Inserts(acts[i], contractId) ensures CancelledAfter(acts, i, contractId) {
        assert i < last;
      }
    } else {
      forall i | 0 <= i < last ensures CancelledAfter(acts, i, contractId) <==> CancelledAfter(front, i, contractId) {
        if CancelledAfter(acts, i, contractId) {
          var j :| i < j < |acts| && acts[j] == Cancel(contractId);
          assert front[j] == Cancel(contractId);
        }
        if CancelledAfter(front, i, contractId) {
          var j :| i < j < |front| && front[j] == Cancel(contractId);
          assert acts[j] == Cancel(contractId);
        }
      }
      forall i | 0 <= i < last ensures Inserts(acts[i], contractId) <==> Inserts(front[i], contractId) {
      }
      assert !CancelledAfter(acts, last, contractId);
    }
  }

  /** Cancelled inserts leave nothing waiting; without claims nothing else does. */
  lemma {:induction false} NoneQueuedIff(params: Params, w: World, acts: seq<Act>, contractId: seq<byte>)
    requires Good(params, w) && NoneQueued(params, w.rows, contractId)
    ensures Good(params, Run(Machine(params), w, acts))
    ensures InsertsCancelled(acts, contractId) ==> NoneQueued(params, Run(Machine(params), w, acts).rows, contractId)
    ensures (forall i :: 0 <= i < |acts| ==> !acts[i].Claim?) ==>
              (NoneQueued(params, Run(Machine(params), w, acts).rows, contractId)
               <==> InsertsCancelled(acts, contractId))
  {
    if |acts| == 0 {
      assert InsertsCancelled(acts, contractId);
    } else {
      var front, act := acts[..|acts| - 1], acts[|acts| - 1];
      NoneQueuedIff(params, w, front, contractId);
      InsertsCancelledStep(acts, contractId);
      var before := Run(Machine(params), w, front);
      NextKeeps(params, before, act);
      hide Good, InsertsCancelled;
      QueuedAfter(params, before, act, contractId);
      assert (forall i :: 0 <= i < |acts| ==> !acts[i].Claim?) ==> forall i :: 0 <= i < |front| ==> !front[i].Claim?;
      hide NoneQueued, Next;
    }
  }

  lemma QueuedAfter(params: Params, w: World, act: Act, contractId: seq<byte>)
    requires Good(params, w)
    ensures act == Cancel(contractId) ==> NoneQueued(params, Next(params, w, act).rows, contractId)
    ensures Inserts(act, contractId) ==> !NoneQueued(params, Next(params, w, act).rows, contractId)
    ensures act != Cancel(contractId) && !Inserts(act, contractId) ==>
              && (NoneQueued(params, w.rows, contractId) ==> NoneQueued(params, Next(params, w, act).rows, contractId))
              && (!act.Claim? && NoneQueued(params, Next(params, w, act).rows, contractId) ==>
                  NoneQueued(params, w.rows, contractId))
  {
    if Inserts(act, contractId) {
      assert IsOf(Next(params, w, act).rows[|w.rows|], params.chainId, contractId, Unstarted);
    } else if act != Cancel(contractId) {
      hide Good;
      if NoneQueued(params, w.rows, contractId) {
        NoneQueuedStep(params, w, act, contractId);
      } else if !act.Claim? {
        QueuedStays(params, w, act, contractId);
      }
    }
  }

  /**
   After a request its message is the only one of the contract waiting exactly when nothing was
   waiting in between: if every insert in between was cancelled again, and, as long as nothing is
   claimed in between, only then.
   */
  lemma EnqueueLeavesOneQueuedIff(
      params: Params, w: World, contractId: seq<byte>, between: seq<Act>, typeUrl: seq<byte>, raw: seq<byte>, now: int)
    requires Good(params, w)
    ensures var middle := Run(Machine(params), Next(params, w, Cancel(contractId)), between);
            var rows := Next(params, middle, Insert(contractId, typeUrl, raw, now)).rows;
            && (OneQueued(params, rows, contractId) <==> NoneQueued(params, middle.rows, contractId))
            && (InsertsCancelled(between, contractId) ==> OneQueued(params, rows, contractId))
            && ((forall i :: 0 <= i < |between| ==> !between[i].Claim?) ==>
                  (OneQueued(params, rows, contractId) <==> InsertsCancelled(between, contractId)))
  {
    var cancelled := Next(params, w, Cancel(contractId));
    NextKeeps(params, w, Cancel(contractId));
    CancelClears(params, w, contractId);
    hide Good, Next, NoneQueued, InsertsCancelled, OneQueued;
    NoneQueuedIff(params, cancelled, between, contractId);
    OneQueuedIff(params, Run(Machine(params), cancelled, between), contractId, typeUrl, raw, now);
  }

  /** Two overlapping requests leave two messages of one contract waiting. */
  lemma OverlappingRequestsQueueTwo(params: Params, contractId: seq<byte>)
    ensures var insert := Insert(contractId, [], [], 0);
            |Select(Run(Machine(params), EMPTY_TABLE, [Cancel(contractId), Cancel(contractId), insert, insert]).rows,
                    params.chainId, Unstarted)| == 2
  {
    var insert := Insert(contractId, [], [], 0);
    var next := Machine(params);
    var acts := [Cancel(contractId), Cancel(contractId), insert, insert];
    RunSnoc(next, EMPTY_TABLE, [], Cancel(contractId));
    RunSnoc(next, EMPTY_TABLE, [Cancel(contractId)], Cancel(contractId));
    RunSnoc(next, EMPTY_TABLE, [Cancel(contractId), Cancel(contractId)], insert);
    RunSnoc(next, EMPTY_TABLE, [Cancel(contractId), Cancel(contractId), insert], insert);
    assert [] + [Cancel(contractId)] == [Cancel(contractId)];
    assert [Cancel(contractId)] + [Cancel(contractId)] == [Cancel(contractId), Cancel(contractId)];
    assert [Cancel(contractId), Cancel(contractId)] + [insert] == [Cancel(contractId), Cancel(contractId), insert];
    assert [Cancel(contractId), Cancel(contractId), insert] + [insert] == acts;
    var r0 := Row(0, params.chainId, contractId, [], [], Unstarted, None, 0);
    var r1 := r0.(id := 1);
    assert Run(next, EMPTY_TABLE, acts).rows == [r0] + [r1];
    assert ([r0] + [r1])[..1] == [r0] && [r0][..0] == [];
    assert Select([r0], params.chainId, Unstarted) == Select([], params.chainId, Unstarted) + [r0];
  }
}
