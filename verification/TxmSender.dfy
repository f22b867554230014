/**
 The transaction manager: claiming, simulating, broadcasting and confirming batches of messages.
 Every database transaction it commits is recorded as a step of the message machine, so that
 whatever the chain client answers, whichever writes fail and whatever other requests do in
 between, what it does is a run of that machine.
 */
module TxmSender {
  import opened Wrappers
  import opened Bytes
  import opened Seqs
  import opened MsgTable
  import opened Runs
  import opened TxmProtocol
  import opened TxmRuns
  import opened TxmBatches
  import opened BatchSimulation

  /** One poll for a transaction: the caller gave up, no usable answer yet, or it is on chain. */
  datatype Poll = ContextDone | NotSeen | Seen

  datatype Confirmation = GaveUp | WriteFailed | Settled

  /** Everything the node answers while the messages of one sender are sent. */
  datatype Client = Client(
    connected: bool,
    simulate: seq<Row> -> Verdict,
    signed: bool,
    broadcasts: bool,
    txHash: seq<byte>,
    polls: seq<Poll>)

  /** With these answers, and a database that works, these messages are sent. */
  predicate Serves(client: Client, msgs: seq<Row>) {
    && client.connected && client.signed && client.broadcasts
    && FirstAnswer(client.polls) != ContextDone
    && SimulateBatch(client.simulate, msgs).Success? && SimulateBatch(client.simulate, msgs).value.succeeded != []
  }

  /** One group of messages that was handed to the client, and what came of it. */
  datatype Sending = Sending(group: seq<Row>, client: Client, result: Result<(), SendError>)

  /** One round of the sending loop: the claim, the batch in order, and the groups that were sent. */
  datatype Round = Round(
    claimed: bool,
    before: World,
    cutoff: int,
    since: nat,
    batch: seq<Row>,
    sent: map<Key, Sending>)

  datatype SendError = ContextCancelled | NoAnswer | AllFailed | Database(error: OrmError)

  /** The first usable answer of a series of polls. */
  function FirstAnswer(polls: seq<Poll>): Poll {
    if |polls| == 0 then NotSeen else if polls[0] != NotSeen then polls[0] else FirstAnswer(polls[1..])
  }

  /** The act is among those after the first n. */
  ghost predicate DoneSince(acts: seq<Act>, n: nat, act: Act) {
    exists k :: n <= k < |acts| && acts[k] == act
  }

  lemma DoneStays(before: seq<Act>, after: seq<Act>, n: nat, act: Act)
    requires DoneSince(before, n, act) && before <= after
    ensures DoneSince(after, n, act)
  {
    var k :| n <= k < |before| && before[k] == act;
    assert after[k] == act;
  }

  lemma DoneLast(acts: seq<Act>, n: nat, act: Act)
    requires n < |acts| && acts[|acts| - 1] == act
    ensures DoneSince(acts, n, act)
  {
  }

  lemma DoneEarlier(acts: seq<Act>, n: nat, m: nat, act: Act)
    requires DoneSince(acts, n, act) && m <= n
    ensures DoneSince(acts, m, act)
  {
  }

  ghost function BroadcastIds(rows: seq<Row>): set<nat> {
    set i | 0 <= i < |rows| && rows[i].state == Broadcasted :: rows[i].id
  }

  /** Settling broadcast messages takes them out of the set still to be confirmed. */
  lemma SettlingShrinks(rows: seq<Row>, ids: set<nat>, to: MsgState)
    requires StatesOf(rows, ids, Broadcasted) && (to == Confirmed || to == Errored)
    ensures |BroadcastIds(WithState(rows, ids, to, None))| <= |BroadcastIds(rows)|
    ensures ids != {} ==> |BroadcastIds(WithState(rows, ids, to, None))| < |BroadcastIds(rows)|
  {
    var rows' := WithState(rows, ids, to, None);
    var before, after := BroadcastIds(rows), BroadcastIds(rows');
    forall id | id in after ensures id in before && id !in ids {
      var i :| 0 <= i < |rows'| && rows'[i].state == Broadcasted && rows'[i].id == id;
      assert rows[i].id == id;
    }
    SubsetSize(after, before);
    if ids != {} {
      var id :| id in ids;
      var i :| 0 <= i < |rows| && rows[i].id == id;
      assert rows[i].state == Broadcasted && id in before;
      SubsetSize(after, before - {id});
    }
  }

  lemma RequestsKeepBroadcasts(params: Params, w: World, act: Act)
    requires act.Cancel? || act.Insert?
    ensures BroadcastIds(Next(params, w, act).rows) == BroadcastIds(w.rows)
  {
    var rows' := Next(params, w, act).rows;
    forall i | 0 <= i < |w.rows|
      ensures rows'[i].id == w.rows[i].id && (rows'[i].state == Broadcasted <==> w.rows[i].state == Broadcasted)
    {
    }
  }

  /** The messages with these ids have reached a terminal state. */
  ghost predicate Finished(rows: seq<Row>, ids: set<nat>) {
    && ids <= IdSet(rows)
    && forall i :: 0 <= i < |rows| && rows[i].id in ids ==> rows[i].state == Confirmed || rows[i].state == Errored
  }

  lemma FinishedStays(before: seq<Row>, after: seq<Row>, ids: set<nat>)
    requires Finished(before, ids) && Rises(before, after) && Ascending(after)
    ensures Finished(after, ids)
  {
    forall id | id in ids ensures id in IdSet(after) {
      var i :| 0 <= i < |before| && before[i].id == id;
      assert after[i].id == id;
    }
    forall k | 0 <= k < |after| && after[k].id in ids ensures after[k].state == Confirmed || after[k].state == Errored {
      var i :| 0 <= i < |before| && before[i].id == after[k].id;
      assert after[i] == before[i];
      assert i == k;
    }
  }

  lemma FinishedBoth(rows: seq<Row>, a: set<nat>, b: set<nat>)
    requires Finished(rows, a) && Finished(rows, b)
    ensures Finished(rows, a + b)
  {
  }

  lemma UpdateFinishes(rows: seq<Row>, ids: set<nat>, to: MsgState)
    requires ids <= IdSet(rows) && (to == Confirmed || to == Errored)
    ensures Finished(WithState(rows, ids, to, None), ids)
  {
    SameIds(rows, WithState(rows, ids, to, None));
  }

  lemma RisesOn(a: seq<Row>, b: seq<Row>, c: seq<Row>)
    requires Rises(a, b) && Rises(b, c)
    ensures Rises(a, c)
  {
  }

  lemma RisesToSelf(rows: seq<Row>)
    ensures Rises(rows, rows)
  {
  }

  lemma SettlingFacts(params: Params, w: World, ids: seq<nat>, to: MsgState)
    requires Good(params, w) && NoRepeats(ids) && AsSet(ids) <= w.inFlight && (to == Confirmed || to == Errored)
    ensures Touched(w.rows, AsSet(ids)) == |ids|
    ensures var after := WithState(w.rows, AsSet(ids), to, None);
            && Finished(after, AsSet(ids)) && |BroadcastIds(after)| <= |BroadcastIds(w.rows)|
            && (ids != [] ==> |BroadcastIds(after)| < |BroadcastIds(w.rows)|)
  {
    AllTouched(w.rows, ids);
    UpdateFinishes(w.rows, AsSet(ids), to);
    assert ids != [] ==> ids[0] in AsSet(ids);
    hide Touched, NoRepeats, Finished, BroadcastIds;
    SettlingShrinks(w.rows, AsSet(ids), to);
  }

  lemma NextSettle(params: Params, w: World, ids: set<nat>, confirmed: bool)
    requires ids <= w.inFlight
    ensures Next(params, w, Settle(ids, confirmed))
         == World(WithState(w.rows, ids, if confirmed then Confirmed else Errored, None), w.nextId, w.held,
                  w.inFlight - ids)
  {
  }

  lemma NextBroadcast(params: Params, w: World, ids: set<nat>, txHash: seq<byte>)
    requires ids <= w.held
    ensures Next(params, w, Broadcast(ids, txHash))
         == World(WithState(w.rows, ids, Broadcasted, Some(txHash)), w.nextId, w.held - ids, w.inFlight + ids)
  {
  }

  lemma NothingLeft(params: Params, w: World)
    requires Good(params, w) && params.maxMsgsPerBatch >= 1
    requires |Oldest(w.rows, params.chainId, Broadcasted, params.maxMsgsPerBatch)| == 0
    ensures IdsIn(w.rows, params.chainId, Broadcasted) == {}
  {
    OldestMembers(w.rows, params.chainId, Broadcasted, params.maxMsgsPerBatch);
  }

  /** A group that was sent: failing messages errored, passing ones broadcast and settled by the polls. */
  ghost predicate WasSent(x: Sending, acts: seq<Act>, since: nat, rows: seq<Row>) {
    x.result.Success? ==>
      && Finished(rows, IdSet(x.group))
      && SimulateBatch(x.client.simulate, x.group).Success?
      && var split := SimulateBatch(x.client.simulate, x.group).value;
         && split.succeeded != []
         && DoneSince(acts, since, Fail(IdSet(split.failed)))
         && DoneSince(acts, since, Broadcast(IdSet(split.succeeded), x.client.txHash))
         && DoneSince(acts, since, Settle(IdSet(split.succeeded), FirstAnswer(x.client.polls) == Seen))
  }

  lemma WasSentStays(
      x: Sending, acts: seq<Act>, since: nat, rows: seq<Row>, acts': seq<Act>, since': nat, rows': seq<Row>)
    requires WasSent(x, acts, since, rows)
    requires acts <= acts' && since' <= since && Rises(rows, rows') && Ascending(rows')
    ensures WasSent(x, acts', since', rows')
  {
    if x.result.Success? {
      var split := SimulateBatch(x.client.simulate, x.group).value;
      hide SimulateBatch, DoneSince, Finished, Rises, Ascending, IdSet;
      FinishedStays(rows, rows', IdSet(x.group));
      DoneLater(acts, since, acts', since', Fail(IdSet(split.failed)));
      DoneLater(acts, since, acts', since', Broadcast(IdSet(split.succeeded), x.client.txHash));
      DoneLater(acts, since, acts', since', Settle(IdSet(split.succeeded), FirstAnswer(x.client.polls) == Seen));
    }
  }

  lemma DoneLater(acts: seq<Act>, since: nat, acts': seq<Act>, since': nat, act: Act)
    requires DoneSince(acts, since, act) && acts <= acts' && since' <= since
    ensures DoneSince(acts', since', act)
  {
    DoneStays(acts, acts', since, act);
    DoneEarlier(acts', since, since', act);
  }

  // ---------- rounds of the sending loop ----------

  /** The circumstances of one round: time, price, client, and how many sends succeed before the caller gives up. */
  datatype Circumstances = Circumstances(cutoff: int, priced: bool, client: Key -> Client, patience: nat)

  /** The batch is what the claim found in time, waiting or left over, oldest first. */
  ghost predicate ClaimedIn(params: Params, start: World, round: Round, acts: seq<Act>)
    requires params.maxMsgsPerBatch >= 1
  {
    && 0 < round.since <= |acts| && acts[round.since - 1] == Claim(round.cutoff)
    && round.before == Run(Machine(params), start, acts[..round.since - 1])
    && InOrder(round.batch)
    && multiset(round.batch)
       == multiset(InTime(Queued(params, round.before.rows), round.cutoff)
                   + InTime(LeftOver(params, round.before.rows), round.cutoff))
  }

  /** Each group that was handed over holds the rows of the batch with its key, oldest first. */
  ghost predicate HandedOver(
      senderOf: Row -> Option<Key>, around: Circumstances, round: Round, k: Key, acts: seq<Act>, rows: seq<Row>,
      healthy: bool)
    requires k in round.sent
  {
    var x := round.sent[k];
    && x.group == Keyed(round.batch, senderOf, k) && x.group != [] && InOrder(x.group)
    && (forall r :: r in x.group <==> r in round.batch && senderOf(r) == Some(k))
    && x.client == around.client(k)
    && (x.result.Success? ==> Serves(x.client, x.group))
    && (healthy && Serves(x.client, x.group) ==> x.result.Success?)
    && WasSent(x, acts, round.since, rows)
  }

  ghost predicate AllHandedOver(
      senderOf: Row -> Option<Key>, around: Circumstances, round: Round, acts: seq<Act>, rows: seq<Row>,
      healthy: bool)
  {
    forall k :: k in round.sent ==> HandedOver(senderOf, around, round, k, acts, rows, healthy)
  }

  ghost function Successes(sent: map<Key, Sending>): set<Key> {
    set k | k in sent && sent[k].result.Success?
  }

  /**
   What one round does: it claims a batch unless the database fails; if there is a price, every
   sender with messages in the batch is handed exactly those, unless the caller gave up after as
   many successful sends as it had patience for; and each group is sent if its client serves it.
   */
  ghost predicate RoundKept(
      params: Params, start: World, senderOf: Row -> Option<Key>, around: Circumstances, round: Round,
      acts: seq<Act>, rows: seq<Row>, healthy: bool) {
    && round.cutoff == around.cutoff
    && (healthy && params.maxMsgsPerBatch >= 1 ==> round.claimed)
    && (round.claimed ==> params.maxMsgsPerBatch >= 1 && ClaimedIn(params, start, round, acts))
    && (round.claimed && around.priced ==>
          || (forall k :: Keyed(round.batch, senderOf, k) != [] ==> k in round.sent)
          || |Successes(round.sent)| > around.patience)
    && AllHandedOver(senderOf, around, round, acts, rows, healthy)
  }

  lemma RoundStays(
      params: Params, start: World, senderOf: Row -> Option<Key>, around: Circumstances, round: Round,
      acts: seq<Act>, rows: seq<Row>, healthy: bool, acts': seq<Act>, rows': seq<Row>, healthy': bool)
    requires RoundKept(params, start, senderOf, around, round, acts, rows, healthy)
    requires acts <= acts' && Rises(rows, rows') && Ascending(rows') && (healthy' ==> healthy)
    ensures RoundKept(params, start, senderOf, around, round, acts', rows', healthy')
  {
    if round.claimed {
      assert acts'[..round.since - 1] == acts[..round.since - 1];
    }
    hide Keyed, InOrder, WasSent, Rises, Ascending, Serves, Queued, LeftOver, InTime;
    forall k | k in round.sent ensures HandedOver(senderOf, around, round, k, acts', rows', healthy') {
      assert HandedOver(senderOf, around, round, k, acts, rows, healthy);
      WasSentStays(round.sent[k], acts, round.since, rows, acts', round.since, rows');
    }
  }

  lemma {:induction false} KeyedInOrder(rows: seq<Row>, key: Row -> Option<Key>, k: Key)
    requires InOrder(rows)
    ensures InOrder(Keyed(rows, key, k)) && forall r :: r in Keyed(rows, key, k) <==> r in rows && key(r) == Some(k)
  {
    if |rows| > 0 {
      var front, last := rows[..|rows| - 1], rows[|rows| - 1];
      assert rows == front + [last];
      KeyedInOrder(front, key, k);
      if key(last) == Some(k) {
        forall i | 0 <= i < |Keyed(front, key, k)| ensures NotAfter(Keyed(front, key, k)[i], last) {
          assert Keyed(front, key, k)[i] in front;
        }
        hide NotAfter;
        JoinedInOrder(Keyed(front, key, k), [last]);
      }
    }
  }

  lemma HandedOverGrows(
      senderOf: Row -> Option<Key>, around: Circumstances, round: Round, sent: map<Key, Sending>, k: Key, x: Sending,
      acts: seq<Act>, rows: seq<Row>, healthy: bool, acts': seq<Act>, rows': seq<Row>, healthy': bool)
    requires AllHandedOver(senderOf, around, round.(sent := sent), acts, rows, healthy)
    requires acts <= acts' && Rises(rows, rows') && Ascending(rows') && (healthy' ==> healthy)
    requires k !in sent && InOrder(round.batch) && round.since <= |acts|
    requires x.group == Keyed(round.batch, senderOf, k) && x.group != [] && x.client == around.client(k)
    requires x.result.Success? ==> Serves(x.client, x.group)
    requires healthy' && Serves(x.client, x.group) ==> x.result.Success?
    requires WasSent(x, acts', |acts|, rows')
    ensures AllHandedOver(senderOf, around, round.(sent := sent[k := x]), acts', rows', healthy')
  {
    KeyedInOrder(round.batch, senderOf, k);
    RisesToSelf(rows');
    WasSentStays(x, acts', |acts|, rows', acts', round.since, rows');
    hide Keyed, InOrder, WasSent, Rises, Ascending, Serves;
    forall j | j in sent ensures HandedOver(senderOf, around, round.(sent := sent[k := x]), j, acts', rows', healthy') {
      assert HandedOver(senderOf, around, round.(sent := sent), j, acts, rows, healthy);
      WasSentStays(sent[j], acts, round.since, rows, acts', round.since, rows');
    }
  }

  lemma NothingHandedOver(
      senderOf: Row -> Option<Key>, around: Circumstances, round: Round, acts: seq<Act>, rows: seq<Row>,
      healthy: bool)
    ensures AllHandedOver(senderOf, around, round.(sent := map[]), acts, rows, healthy)
    ensures |Successes(map[])| == 0
  {
    assert Successes(map[]) == {};
  }

  lemma NothingKeyed(key: Row -> Option<Key>)
    ensures forall k :: Keyed([], key, k) == []
  {
  }

  /** The groups are those of the batch by sender. */
  ghost predicate GroupsOfBatch(groups: map<Key, seq<Row>>, batch: seq<Row>, senderOf: Row -> Option<Key>) {
    forall k :: k in groups ==> groups[k] == Keyed(batch, senderOf, k) && groups[k] != []
  }

  lemma GroupOfBatch(groups: map<Key, seq<Row>>, batch: seq<Row>, senderOf: Row -> Option<Key>, k: Key)
    requires GroupsOfBatch(groups, batch, senderOf) && k in groups
    ensures groups[k] == Keyed(batch, senderOf, k) && groups[k] != []
    ensures GroupsOfBatch(groups - {k}, batch, senderOf)
  {
  }

  /** Every sender has been handed its group or is still left, not both. */
  ghost predicate Divided(groups: map<Key, seq<Row>>, left: map<Key, seq<Row>>, sent: map<Key, Sending>) {
    && (forall k :: k in groups <==> k in left || k in sent)
    && (forall k :: k in sent ==> k !in left)
  }

  lemma NothingSent(groups: map<Key, seq<Row>>)
    ensures Divided(groups, groups, map[])
  {
  }

  lemma OneMoreSent(
      groups: map<Key, seq<Row>>, left: map<Key, seq<Row>>, sent: map<Key, Sending>, k: Key, x: Sending)
    requires Divided(groups, left, sent) && k in left
    ensures Divided(groups, left - {k}, sent[k := x])
  {
  }

  lemma NotYetSent(groups: map<Key, seq<Row>>, left: map<Key, seq<Row>>, sent: map<Key, Sending>, k: Key)
    requires Divided(groups, left, sent) && k in left
    ensures k !in sent
  {
  }

  lemma FewerLeft(left: map<Key, seq<Row>>, k: Key)
    requires k in left
    ensures |left - {k}| < |left|
  {
    assert (left - {k}).Keys == left.Keys - {k};
    assert |left| == |left.Keys| && |left - {k}| == |(left - {k}).Keys|;
  }

  lemma NoBatch()
    ensures InOrder([]) && DistinctIds([])
  {
  }

  /** A claim taken after the given steps, with its batch in order, is what the round says. */
  lemma ClaimIsKept(params: Params, start: World, round: Round, actsBefore: seq<Act>)
    requires params.maxMsgsPerBatch >= 1 && InOrder(round.batch)
    requires round.since == |actsBefore| + 1 && round.before == Run(Machine(params), start, actsBefore)
    requires multiset(round.batch)
          == multiset(InTime(Queued(params, round.before.rows), round.cutoff)
                      + InTime(LeftOver(params, round.before.rows), round.cutoff))
    ensures ClaimedIn(params, start, round, actsBefore + [Claim(round.cutoff)])
  {
    var acts := actsBefore + [Claim(round.cutoff)];
    assert acts[..round.since - 1] == actsBefore;
  }

  lemma ClaimStays(params: Params, start: World, round: Round, acts: seq<Act>, acts': seq<Act>, sent: map<Key, Sending>)
    requires acts <= acts'
    requires round.claimed ==> params.maxMsgsPerBatch >= 1 && ClaimedIn(params, start, round, acts)
    ensures round.claimed ==> ClaimedIn(params, start, round.(sent := sent), acts')
  {
    if round.claimed {
      assert acts'[..round.since - 1] == acts[..round.since - 1];
    }
  }

  lemma ClaimRises(params: Params, w: World, cutoff: int)
    requires Good(params, w)
    ensures Rises(w.rows, Next(params, w, Claim(cutoff)).rows)
  {
    NextKeeps(params, w, Claim(cutoff));
    hide Next, Good, Rises, RowsStep;
    StepRises(w.rows, Next(params, w, Claim(cutoff)).rows);
  }

  lemma OneMoreSuccess(sent: map<Key, Sending>, k: Key, x: Sending)
    requires k !in sent
    ensures |Successes(sent[k := x])| == |Successes(sent)| + if x.result.Success? then 1 else 0
  {
    var after := Successes(sent[k := x]);
    assert after == if x.result.Success? then Successes(sent) + {k} else Successes(sent);
  }

  /** The caller gives up while one of the transactions is polled for. */
  ghost predicate GivesUp(polls: Key -> seq<Poll>) {
    exists k: Key :: FirstAnswer(polls(k)) == ContextDone
  }

  class Txm {
    const orm: Orm
    const maxMsgsPerBatch: int
    const senderOf: Row -> Option<Key>

    /** How many more accesses to the database will fail. */
    var faults: nat

    ghost const start: World
    ghost var world: World
    ghost var acts: seq<Act>

    ghost function P(): Params {
      Params(orm.chainId, maxMsgsPerBatch)
    }

    /** The table is what a run of the machine from the start has made of it. */
    ghost predicate Valid()
      reads `world, `acts, orm
    {
      && orm.rows == world.rows && orm.nextId == world.nextId
      && Traced()
    }

    ghost predicate Traced()
      reads `world, `acts
    {
      world == Run(Machine(P()), start, acts) && Good(P(), world)
    }

    lemma TracedIsGood()
      requires Traced()
      ensures Good(P(), world)
    {
    }

    /** A process starts on whatever table its predecessor left behind. */
    constructor (orm: Orm, maxMsgsPerBatch: int, senderOf: Row -> Option<Key>, faults: nat)
      requires Good(Params(orm.chainId, maxMsgsPerBatch), World(orm.rows, orm.nextId, {}, {}))
      ensures this.orm == orm && this.maxMsgsPerBatch == maxMsgsPerBatch && this.senderOf == senderOf
      ensures Valid() && acts == [] && start == World(orm.rows, orm.nextId, {}, {})
    {
      this.orm := orm;
      this.maxMsgsPerBatch := maxMsgsPerBatch;
      this.senderOf := senderOf;
      this.faults := faults;
      start := World(orm.rows, orm.nextId, {}, {});
      world := World(orm.rows, orm.nextId, {}, {});
      acts := [];
    }

    ghost method Commit(act: Act)
      requires Traced()
      modifies this`world, this`acts
      ensures Traced() && acts == old(acts) + [act] && world == Next(P(), old(world), act)
      ensures Rises(old(world.rows), world.rows)
    {
      NextKeeps(P(), world, act);
      hide Next, Good, Rises, RowsStep;
      StepRises(world.rows, Next(P(), world, act).rows);
      world := Next(P(), world, act);
      acts := acts + [act];
      assert acts[..|acts| - 1] == old(acts);
    }

    /** Whether the next access goes through. */
    method Available() returns (ok: bool)
      modifies this`faults
      ensures if ok then faults == old(faults) else faults < old(faults)
    {
      ok := true;
      if faults > 0 {
        ok := *;
        if !ok {
          faults := faults - 1;
        }
      }
    }

    /** Requests of other callers: any number of their halves, in any order. */
    method Others()
      requires Valid()
      modifies this`world, this`acts, orm
      ensures Valid() && old(acts) <= acts
      ensures world.held == old(world.held) && world.inFlight == old(world.inFlight)
      ensures BroadcastIds(orm.rows) == old(BroadcastIds(orm.rows))
      ensures Rises(old(orm.rows), orm.rows)
    {
      hide Good, Rises;
      RisesToSelf(orm.rows);
      var n: int := *;
      while n > 0
        invariant Valid() && old(acts) <= acts && Rises(old(orm.rows), orm.rows)
        invariant world.held == old(world.held) && world.inFlight == old(world.inFlight)
        invariant BroadcastIds(orm.rows) == old(BroadcastIds(orm.rows))
        decreases n
      {
        n := n - 1;
        ghost var before := orm.rows;
        var contractId: Key := *;
        var typeUrl: Key := *;
        var raw: seq<byte> := *;
        var now: int := *;
        var cancels: bool := *;
        if cancels {
          RequestsKeepBroadcasts(P(), world, Cancel(contractId));
          var _ := orm.UpdateMsgsContract(contractId, Unstarted, Errored, true);
          Commit(Cancel(contractId));
        } else {
          RequestsKeepBroadcasts(P(), world, Insert(contractId, typeUrl, raw, now));
          var _ := orm.InsertMsg(contractId, typeUrl, raw, now, true);
          Commit(Insert(contractId, typeUrl, raw, now));
        }
        RisesOn(old(orm.rows), before, orm.rows);
      }
    }

    method CancelWaiting(contractId: seq<byte>) returns (r: Result<(), OrmError>)
      requires Valid()
      modifies this`world, this`acts, this`faults, orm`rows
      ensures Valid()
      ensures if r.Success? then faults == old(faults) && acts == old(acts) + [Cancel(contractId)]
              else faults < old(faults) && acts == old(acts)
    {
      hide Good, Traced, Rises, WithContractState;
      var ok := Available();
      r := orm.UpdateMsgsContract(contractId, Unstarted, Errored, ok);
      if r.Success? {
        Commit(Cancel(contractId));
      }
    }

    method InsertWaiting(contractId: seq<byte>, typeUrl: seq<byte>, raw: seq<byte>, now: int)
      returns (r: Result<nat, OrmError>)
      requires Valid()
      modifies this`world, this`acts, this`faults, orm
      ensures Valid()
      ensures if r.Success? then faults == old(faults) && acts == old(acts) + [Insert(contractId, typeUrl, raw, now)]
              else faults < old(faults) && acts == old(acts)
    {
      hide Good, Traced, Rises, WithContractState;
      var ok := Available();
      r := orm.InsertMsg(contractId, typeUrl, raw, now, ok);
      if r.Success? {
        Commit(Insert(contractId, typeUrl, raw, now));
      }
    }

    /**
     Cancels what waits for the contract and queues the message, as two separate writes inside a
     transaction that holds neither: it may fail to begin, and it may fail to end although both
     writes have gone through.
     */
    method Enqueue(contractId: seq<byte>, typeUrl: seq<byte>, raw: seq<byte>, now: int)
      returns (r: Result<nat, OrmError>)
      requires Valid()
      modifies this`world, this`acts, this`faults, orm
      ensures Valid() && old(acts) <= acts
      ensures r.Success? ==> Insert(contractId, typeUrl, raw, now) in acts[|old(acts)|..]
      ensures r.Success? ==> Cancel(contractId) in acts[|old(acts)|..] && faults == old(faults)
      ensures r.Failure? ==> faults < old(faults)
    {
      hide Good, Traced, BroadcastIds, Rises, WithContractState;
      var begun := Available();
      if !begun {
        return Failure(Unavailable);
      }
      var cancelled := CancelWaiting(contractId);
      if cancelled.Failure? {
        return Failure(cancelled.error);
      }
      assert acts[|old(acts)|..][0] == Cancel(contractId);
      Others();
      assert acts[|old(acts)|..][0] == Cancel(contractId);
      r := InsertWaiting(contractId, typeUrl, raw, now);
      if r.Success? {
        assert acts[|acts| - 1] in acts[|old(acts)|..];
        assert acts[|old(acts)|..][0] == Cancel(contractId);
        var ended := Available();
        if !ended {
          return Failure(Unavailable);
        }
      }
    }

    // ---------- confirming ----------

    method SettleMsgs(ids: seq<nat>, confirmed: bool) returns (r: Confirmation)
      requires Valid() && NoRepeats(ids) && AsSet(ids) <= world.inFlight
      modifies this`world, this`acts, this`faults, orm`rows
      ensures Valid() && old(acts) <= acts && world.held == old(world.held)
      ensures r == Settled || r == WriteFailed
      ensures r == WriteFailed ==> faults < old(faults) && world == old(world)
      ensures r == Settled ==>
                && faults == old(faults) && world.inFlight == old(world.inFlight) - AsSet(ids)
                && |BroadcastIds(orm.rows)| <= |old(BroadcastIds(orm.rows))|
                && (ids != [] ==> |BroadcastIds(orm.rows)| < |old(BroadcastIds(orm.rows))|)
                && Finished(orm.rows, AsSet(ids))
                && acts == old(acts) + [Settle(AsSet(ids), confirmed)]
      ensures Rises(old(orm.rows), orm.rows)
    {
      var to := if confirmed then Confirmed else Errored;
      assert Good(P(), world);
      SettlingFacts(P(), world, ids, to);
      NextSettle(P(), world, AsSet(ids), confirmed);
      RisesToSelf(orm.rows);
      hide Good, BroadcastIds, Touched, Rises, Finished, NoRepeats, AsSet, Next, Traced;
      var ok := Available();
      var written := orm.UpdateMsgs(ids, to, None, ok);
      if written.Failure? {
        return WriteFailed;
      }
      Commit(Settle(AsSet(ids), confirmed));
      return Settled;
    }

    /** Polls for the transaction; its messages are confirmed once it is seen, or errored in the end. */
    method ConfirmTx(ids: seq<nat>, polls: seq<Poll>) returns (r: Confirmation)
      requires Valid() && NoRepeats(ids) && AsSet(ids) <= world.inFlight
      modifies this`world, this`acts, this`faults, orm
      ensures Valid() && old(acts) <= acts && world.held == old(world.held)
      ensures r == GaveUp <==> FirstAnswer(polls) == ContextDone
      ensures r == Settled ==>
              |old(acts)| < |acts| && acts[|acts| - 1] == Settle(AsSet(ids), FirstAnswer(polls) == Seen)
      ensures r == GaveUp ==> faults == old(faults) && world.inFlight == old(world.inFlight)
      ensures r == WriteFailed ==> faults < old(faults) && world.inFlight == old(world.inFlight)
      ensures r == Settled ==> faults == old(faults) && world.inFlight == old(world.inFlight) - AsSet(ids)
      ensures r == Settled && ids != [] ==> |BroadcastIds(orm.rows)| < |old(BroadcastIds(orm.rows))|
      ensures |BroadcastIds(orm.rows)| <= |old(BroadcastIds(orm.rows))|
      ensures Rises(old(orm.rows), orm.rows)
      ensures r == Settled ==> Finished(orm.rows, AsSet(ids))
    {
      hide Good, BroadcastIds, NoRepeats, AsSet, Rises, Finished;
      RisesToSelf(orm.rows);
      assert polls[0..] == polls;
      for tries := 0 to |polls|
        invariant FirstAnswer(polls) == FirstAnswer(polls[tries..])
        invariant Valid() && old(acts) <= acts && faults == old(faults) && Rises(old(orm.rows), orm.rows)
        invariant world.held == old(world.held) && world.inFlight == old(world.inFlight)
        invariant BroadcastIds(orm.rows) == old(BroadcastIds(orm.rows))
      {
        ghost var before := orm.rows;
        Others();
        RisesOn(old(orm.rows), before, orm.rows);
        before := orm.rows;
        assert polls[tries..][1..] == polls[tries + 1..];
        match polls[tries] {
          case ContextDone =>
            return GaveUp;
          case NotSeen =>
          case Seen =>
            r := SettleMsgs(ids, true);
            RisesOn(old(orm.rows), before, orm.rows);
            return;
        }
      }
      ghost var before := orm.rows;
      r := SettleMsgs(ids, false);
      RisesOn(old(orm.rows), before, orm.rows);
    }

    /** Reads some of the broadcast messages and confirms them. */
    method ConfirmRound(connected: bool, polls: Key -> seq<Poll>) returns (stop: bool, ghost clear: bool)
      requires Valid()
      modifies this`world, this`acts, this`faults, orm
      ensures Valid() && old(acts) <= acts && faults <= old(faults)
      ensures clear ==> IdsIn(orm.rows, orm.chainId, Broadcasted) == {}
      ensures stop && !clear ==> faults < old(faults) || maxMsgsPerBatch < 1 || !connected || GivesUp(polls)
      ensures !stop ==>
                || faults < old(faults)
                || (faults == old(faults) && |BroadcastIds(orm.rows)| < |old(BroadcastIds(orm.rows))|)
    {
      hide BroadcastIds, Good, Traced, Rises, Oldest, IdSet, DistinctIds, Next, IdsIn, GivesUp;
      Others();
      TracedIsGood();
      clear := false;
      var readable := Available();
      var found := orm.GetMsgsState(Broadcasted, maxMsgsPerBatch, readable);
      if found.Failure? {
        return true, false;
      }
      if |found.value| == 0 {
        NothingLeft(P(), world);
        return true, true;
      }
      UnconfirmedRows(P(), world);
      Commit(Recover);
      if !connected {
        return true, false;
      }
      stop := ConfirmGroups(found.value, polls);
    }

    /**
     What a restart does first. As long as only finitely many accesses fail it comes to an end:
     every round either uses up a failure or settles a message. It ends with nothing left to
     confirm, unless an access failed, there was no connection, or the caller gave up.
     */
    method ConfirmAnyUnconfirmed(connected: bool, polls: Key -> seq<Poll>) returns (ghost clear: bool)
      requires Valid()
      modifies this`world, this`acts, this`faults, orm
      ensures Valid() && old(acts) <= acts && faults <= old(faults)
      ensures clear ==> IdsIn(orm.rows, orm.chainId, Broadcasted) == {}
      ensures !clear ==> faults < old(faults) || maxMsgsPerBatch < 1 || !connected || GivesUp(polls)
    {
      hide BroadcastIds, Good, Traced, IdsIn, GivesUp;
      while true
        invariant Valid() && old(acts) <= acts && faults <= old(faults)
        decreases faults, |BroadcastIds(orm.rows)|
      {
        var stop, done := ConfirmRound(connected, polls);
        if stop {
          return done;
        }
      }
    }

    /** Confirms the messages of each transaction in turn, in no particular order. */
    method ConfirmGroups(broadcasted: seq<Row>, polls: Key -> seq<Poll>) returns (stop: bool)
      requires Valid() && DistinctIds(broadcasted) && IdSet(broadcasted) <= world.inFlight
      requires broadcasted != [] && forall r :: r in broadcasted ==> r.txHash.Some?
      modifies this`world, this`acts, this`faults, orm
      ensures Valid() && old(acts) <= acts && faults <= old(faults)
      ensures stop ==> faults < old(faults) || GivesUp(polls)
      ensures !stop ==>
                || faults < old(faults)
                || (faults == old(faults) && |BroadcastIds(orm.rows)| < |old(BroadcastIds(orm.rows))|)
    {
      var key := (r: Row) => r.txHash;
      var groups := GroupBy(broadcasted, key);
      GroupsOf(broadcasted, key, groups);
      FirstHasGroup(broadcasted, key);
      hide Good, BroadcastIds, Keyed, IdSet, DistinctIds, Grouped, Traced, Rises, Finished;
      ghost var progress := false;
      stop := false;
      assert Grouped(groups, world.inFlight) by {
        WidenGroups(groups, IdSet(broadcasted), world.inFlight);
      }
      while groups != map[]
        invariant Valid() && old(acts) <= acts
        invariant Grouped(groups, world.inFlight)
        invariant groups == map[] ==> progress
        invariant faults <= old(faults) && |BroadcastIds(orm.rows)| <= |old(BroadcastIds(orm.rows))|
        invariant progress ==> faults < old(faults) || |BroadcastIds(orm.rows)| < |old(BroadcastIds(orm.rows))|
        decreases |groups|
      {
        var k :| k in groups;
        var msgs := groups[k];
        GroupRows(groups, world.inFlight, k);
        ghost var inFlight := world.inFlight;
        var confirmed := ConfirmTx(Ids(msgs), polls(k));
        var cancelled: bool := *;
        if confirmed == GaveUp || (confirmed == WriteFailed && cancelled) {
          return true;
        }
        WithoutGroup(groups, inFlight, k, world.inFlight);
        groups := groups - {k};
        progress := true;
      }
    }

    // ---------- sending ----------

    /** Marks what is still valid of the queued messages. */
    method MarkStarted(msgs: MsgValidator, unstarted: seq<Row>) returns (r: Result<(), OrmError>)
      requires msgs.valid == [] && msgs.expired == []
      requires var ids := Ids(InTime(unstarted, msgs.cutoff)); Touched(orm.rows, AsSet(ids)) == |ids|
      modifies this`faults, orm`rows, msgs
      ensures if r.Success? then faults == old(faults) else faults < old(faults)
      ensures r.Success? ==>
                && msgs.valid == InTime(unstarted, msgs.cutoff) && msgs.expired == Expired(unstarted, msgs.cutoff)
                && orm.rows == WithState(old(orm.rows), AsSet(Ids(msgs.valid)), Started, None)
    {
      hide *;
      msgs.AddAll(unstarted);
      assert msgs.valid == InTime(unstarted, msgs.cutoff) && msgs.expired == Expired(unstarted, msgs.cutoff);
      var ok := Available();
      r := orm.UpdateMsgs(Ids(msgs.valid), Started, None, ok);
    }

    /** Marks the expired messages of the batch. */
    method MarkExpired(msgs: MsgValidator) returns (r: Result<(), OrmError>)
      requires Touched(orm.rows, AsSet(Ids(msgs.expired))) == |Ids(msgs.expired)|
      modifies this`faults, orm`rows
      ensures if r.Success? then faults == old(faults) else faults < old(faults)
      ensures r.Success? ==> orm.rows == WithState(old(orm.rows), AsSet(Ids(msgs.expired)), Errored, None)
    {
      hide *;
      var ok := Available();
      r := orm.UpdateMsgs(Ids(msgs.expired), Errored, None, ok);
    }

    /** The body of the claiming transaction; after a failure its writes have to be rolled back. */
    method WriteClaim(msgs: MsgValidator) returns (r: Result<(), OrmError>)
      requires Valid() && msgs.valid == [] && msgs.expired == []
      modifies this`faults, orm`rows, msgs
      ensures faults <= old(faults) && (r.Success? ==> faults == old(faults))
      ensures r.Failure? ==> faults < old(faults) || maxMsgsPerBatch < 1
      ensures r.Success? ==>
                && maxMsgsPerBatch >= 1 && orm.rows == Next(P(), world, Claim(msgs.cutoff)).rows
                && msgs.valid == InTime(Queued(P(), world.rows), msgs.cutoff)
                   + InTime(LeftOver(P(), world.rows), msgs.cutoff)
    {
      var readable := Available();
      var started :- orm.GetMsgsState(Started, maxMsgsPerBatch, readable);
      var limit := maxMsgsPerBatch - |started|;
      assert started == LeftOver(P(), world.rows);
      ghost var queued := Queued(P(), world.rows);
      assert queued == if limit > 0 then Oldest(world.rows, orm.chainId, Unstarted, limit) else [];
      ClaimWrites(P(), world, msgs.cutoff);
      hide P, Good, Oldest, InTime, Expired, Touched, AsSet, Next, LeftOver, Queued;
      NothingExpires(msgs.cutoff);
      if limit > 0 {
        readable := Available();
        var unstarted :- orm.GetMsgsState(Unstarted, limit, readable);
        var _ :- MarkStarted(msgs, unstarted);
      }
      assert msgs.valid == InTime(queued, msgs.cutoff) && msgs.expired == Expired(queued, msgs.cutoff);
      msgs.AddAll(started);
      var _ :- MarkExpired(msgs);
      return Success(());
    }

    /** Claims a batch in one database transaction, or changes nothing. */
    method ClaimBatch(cutoff: int) returns (msgs: MsgValidator, r: Result<(), OrmError>)
      requires Valid()
      modifies this`world, this`acts, this`faults, orm`rows
      ensures Valid() && fresh(msgs)
      ensures r.Failure? ==> world == old(world) && acts == old(acts)
      ensures r.Failure? ==> faults < old(faults) || maxMsgsPerBatch < 1
      ensures faults <= old(faults) && (r.Success? ==> faults == old(faults))
      ensures r.Success? ==> maxMsgsPerBatch >= 1 && acts == old(acts) + [Claim(cutoff)]
      ensures r.Success? ==> world == Next(P(), old(world), Claim(cutoff))
      ensures r.Success? ==>
                msgs.valid == InTime(Queued(P(), old(world.rows)), cutoff)
                  + InTime(LeftOver(P(), old(world.rows)), cutoff)
    {
      hide Good, LeftOver, Queued, InTime, Claimed, Held;
      msgs := new MsgValidator(cutoff);
      var snapshot := orm.rows;
      r := WriteClaim(msgs);
      if r.Failure? {
        orm.Rollback(snapshot);
      } else {
        Commit(Claim(cutoff));
      }
    }

    /** Marks the messages that failed in simulation. */
    method FailMsgs(msgs: seq<Row>) returns (r: Result<(), OrmError>)
      requires Valid() && DistinctIds(msgs) && IdSet(msgs) <= world.held
      modifies this`world, this`acts, this`faults, orm`rows
      ensures Valid() && old(acts) <= acts
      ensures if r.Success? then faults == old(faults) else faults < old(faults)
      ensures world.held == if r.Success? then old(world.held) - IdSet(msgs) else old(world.held)
      ensures r.Success? ==> Finished(orm.rows, IdSet(msgs)) && acts == old(acts) + [Fail(IdSet(msgs))]
      ensures Rises(old(orm.rows), orm.rows)
    {
      RisesToSelf(orm.rows);
      AsSetOfIds(msgs);
      AllTouched(world.rows, Ids(msgs));
      UpdateFinishes(world.rows, IdSet(msgs), Errored);
      hide Good, Touched, AsSet, IdSet, DistinctIds, Finished, Traced, Rises;
      var ok := Available();
      r := orm.UpdateMsgs(Ids(msgs), Errored, None, ok);
      if r.Success? {
        Commit(Fail(IdSet(msgs)));
      }
    }

    /**
     Marks the messages as broadcast and broadcasts their transaction inside one database
     transaction, which is rolled back when the broadcast fails.
     */
    method MarkAndSend(ids: seq<nat>, txHash: seq<byte>, broadcasts: bool) returns (r: Result<(), SendError>)
      requires Touched(orm.rows, AsSet(ids)) == |ids|
      modifies this`faults, orm`rows
      ensures orm.rows == if r.Success? then WithState(old(orm.rows), AsSet(ids), Broadcasted, Some(txHash))
                          else old(orm.rows)
      ensures faults <= old(faults) && (r.Success? <==> broadcasts && faults == old(faults))
      ensures r != Failure(AllFailed)
    {
      var snapshot := orm.rows;
      var ok := Available();
      var marked := orm.UpdateMsgs(ids, Broadcasted, Some(txHash), ok);
      if marked.Failure? {
        orm.Rollback(snapshot);
        return Failure(Database(marked.error));
      }
      if !broadcasts {
        orm.Rollback(snapshot);
        return Failure(NoAnswer);
      }
      ok := Available();
      if !ok {
        orm.Rollback(snapshot);
        return Failure(Database(Unavailable));
      }
      return Success(());
    }

    /** As one step of the machine, or none. */
    method BroadcastMsgs(msgs: seq<Row>, txHash: seq<byte>, broadcasts: bool) returns (r: Result<(), SendError>)
      requires Valid() && DistinctIds(msgs) && IdSet(msgs) <= world.held
      modifies this`world, this`acts, this`faults, orm`rows
      ensures Valid() && old(acts) <= acts
      ensures faults <= old(faults) && (r.Success? <==> broadcasts && faults == old(faults))
      ensures r != Failure(AllFailed)
      ensures r.Failure? ==> world == old(world)
      ensures r.Success? ==> world.held == old(world.held) - IdSet(msgs) && IdSet(msgs) <= world.inFlight
      ensures r.Success? ==> acts == old(acts) + [Broadcast(IdSet(msgs), txHash)]
      ensures Rises(old(orm.rows), orm.rows)
    {
      RisesToSelf(orm.rows);
      AsSetOfIds(msgs);
      AllTouched(world.rows, Ids(msgs));
      NextBroadcast(P(), world, IdSet(msgs), txHash);
      hide Good, AsSet, IdSet, DistinctIds, Rises, Traced, Next, WithState, Ids, Touched;
      r := MarkAndSend(Ids(msgs), txHash, broadcasts);
      if r.Success? {
        Commit(Broadcast(IdSet(msgs), txHash));
      }
    }

    /** Signs, broadcasts and confirms the transaction of messages that passed the simulation. */
    method BroadcastAndConfirm(msgs: seq<Row>, client: Client) returns (r: Result<(), SendError>)
      requires Valid() && DistinctIds(msgs) && IdSet(msgs) <= world.held
      modifies this`world, this`acts, this`faults, orm
      ensures Valid() && old(acts) <= acts && Rises(old(orm.rows), orm.rows)
      ensures faults <= old(faults) && r != Failure(AllFailed)
      ensures r.Success? <==>
                && client.signed && client.broadcasts && FirstAnswer(client.polls) != ContextDone
                && faults == old(faults)
      ensures old(world.held) - IdSet(msgs) <= world.held
      ensures r.Success? ==>
                && Finished(orm.rows, IdSet(msgs))
                && DoneSince(acts, |old(acts)|, Broadcast(IdSet(msgs), client.txHash))
                && DoneSince(acts, |old(acts)|, Settle(IdSet(msgs), FirstAnswer(client.polls) == Seen))
    {
      hide Good, IdSet, DistinctIds, BroadcastIds, Finished, Rises, DoneSince, Traced;
      RisesToSelf(orm.rows);
      // gas, block height and signature
      if !client.signed {
        return Failure(NoAnswer);
      }
      Others();
      ghost var between := orm.rows;
      var sent := BroadcastMsgs(msgs, client.txHash, client.broadcasts);
      RisesOn(old(orm.rows), between, orm.rows);
      if sent.Failure? {
        return sent;
      }
      ghost var sentRows, sentActs := orm.rows, acts;
      AsSetOfIds(msgs);
      DistinctMeans(msgs);
      var confirmed := ConfirmTx(Ids(msgs), client.polls);
      RisesOn(old(orm.rows), sentRows, orm.rows);
      match confirmed {
        case GaveUp => return Failure(ContextCancelled);
        case WriteFailed => return Failure(Database(Unavailable));
        case Settled =>
          DoneLast(sentActs, |old(acts)|, Broadcast(IdSet(msgs), client.txHash));
          DoneStays(sentActs, acts, |old(acts)|, Broadcast(IdSet(msgs), client.txHash));
          DoneLast(acts, |old(acts)|, Settle(IdSet(msgs), FirstAnswer(client.polls) == Seen));
          return Success(());
      }
    }

    /** Simulates the messages of one sender, broadcasts those that pass, and confirms them. */
    method SendMsgBatchFromAddress(msgs: seq<Row>, client: Client) returns (r: Result<(), SendError>)
      requires Valid() && DistinctIds(msgs) && IdSet(msgs) <= world.held
      modifies this`world, this`acts, this`faults, orm
      ensures Valid() && old(acts) <= acts && Rises(old(orm.rows), orm.rows)
      ensures faults <= old(faults) && (r.Success? <==> Serves(client, msgs) && faults == old(faults))
      ensures old(world.held) - IdSet(msgs) <= world.held
      ensures WasSent(Sending(msgs, client, r), acts, |old(acts)|, orm.rows)
      ensures r == Failure(AllFailed) ==>
                && SimulateBatch(client.simulate, msgs).Success?
                && DoneSince(acts, |old(acts)|, Fail(IdSet(SimulateBatch(client.simulate, msgs).value.failed)))
    {
      RisesToSelf(orm.rows);
      if !client.connected {
        return Failure(NoAnswer);
      }
      var simulated, _ := BatchSimulateUnsigned(client.simulate, msgs);
      if simulated.Failure? {
        return Failure(NoAnswer);
      }
      var split := simulated.value;
      SplitCoversBatch(client.simulate, msgs);
      SplitIsDistinct(msgs, split);
      hide Good, IdSet, DistinctIds, SimulateBatch, BroadcastIds, Finished, Rises, DoneSince, Traced;
      Others();
      ghost var between := orm.rows;
      var failed := FailMsgs(split.failed);
      RisesOn(old(orm.rows), between, orm.rows);
      if failed.Failure? {
        return Failure(Database(failed.error));
      }
      ghost var failedRows, failedActs := orm.rows, acts;
      DoneLast(failedActs, |old(acts)|, Fail(IdSet(split.failed)));
      if |split.succeeded| == 0 {
        return Failure(AllFailed);
      }
      r := BroadcastAndConfirm(split.succeeded, client);
      RisesOn(old(orm.rows), failedRows, orm.rows);
      if r.Success? {
        TracedIsGood();
        GoodIsAscending(P(), world);
        FinishedStays(failedRows, orm.rows, IdSet(split.failed));
        FinishedBoth(orm.rows, IdSet(split.succeeded), IdSet(split.failed));
        DoneStays(failedActs, acts, |old(acts)|, Fail(IdSet(split.failed)));
        DoneEarlier(acts, |failedActs|, |old(acts)|, Broadcast(IdSet(split.succeeded), client.txHash));
        DoneEarlier(acts, |failedActs|, |old(acts)|, Settle(IdSet(split.succeeded), FirstAnswer(client.polls) == Seen));
      }
    }

    /** Sends one more group of the round. */
    method SendGroup(
        k: Key, group: seq<Row>, client: Client, ghost around: Circumstances, ghost round: Round,
        ghost faultsBefore: nat)
      returns (r: Result<(), SendError>)
      requires Valid() && DistinctIds(group) && IdSet(group) <= world.held && faults <= faultsBefore
      requires round.since <= |acts| && InOrder(round.batch) && k !in round.sent && client == around.client(k)
      requires group == Keyed(round.batch, senderOf, k) && group != []
      requires AllHandedOver(senderOf, around, round, acts, orm.rows, faults == faultsBefore)
      modifies this`world, this`acts, this`faults, orm
      ensures Valid() && old(acts) <= acts && Rises(old(orm.rows), orm.rows) && faults <= old(faults)
      ensures old(world.held) - IdSet(group) <= world.held
      ensures var sent := round.sent[k := Sending(group, client, r)];
              AllHandedOver(senderOf, around, round.(sent := sent), acts, orm.rows, faults == faultsBefore)
    {
      hide Good, Traced, Rises, BroadcastIds, IdSet, DistinctIds, Keyed, InOrder, WasSent, Serves, AllHandedOver,
        Ascending;
      ghost var rowsBefore, actsBefore, healthy := orm.rows, acts, faults == faultsBefore;
      r := SendMsgBatchFromAddress(group, client);
      TracedIsGood();
      GoodIsAscending(P(), world);
      assert round.(sent := round.sent) == round;
      HandedOverGrows(senderOf, around, round, round.sent, k, Sending(group, client, r), actsBefore, rowsBefore,
                      healthy, acts, orm.rows, faults == faultsBefore);
    }

    /** Sends one of the groups that are left. */
    method SendNext(
        ghost groups: map<Key, seq<Row>>, left: map<Key, seq<Row>>, around: Circumstances, ghost round: Round,
        ghost faultsBefore: nat)
      returns (rest: map<Key, seq<Row>>, ok: bool, ghost sent: map<Key, Sending>)
      requires Valid() && left != map[] && Grouped(left, world.held) && faults <= faultsBefore
      requires GroupsOfBatch(left, round.batch, senderOf) && Divided(groups, left, round.sent)
      requires round.since <= |acts| && InOrder(round.batch)
      requires AllHandedOver(senderOf, around, round, acts, orm.rows, faults == faultsBefore)
      modifies this`world, this`acts, this`faults, orm
      ensures Valid() && old(acts) <= acts && Rises(old(orm.rows), orm.rows) && faults <= old(faults)
      ensures Grouped(rest, world.held) && GroupsOfBatch(rest, round.batch, senderOf) && Divided(groups, rest, sent)
      ensures AllHandedOver(senderOf, around, round.(sent := sent), acts, orm.rows, faults == faultsBefore)
      ensures |rest| < |left| && |Successes(sent)| == |Successes(round.sent)| + if ok then 1 else 0
    {
      hide Good, Traced, Rises, BroadcastIds, IdSet, DistinctIds, Keyed, InOrder, WasSent, Serves, AllHandedOver,
        HandedOver, Successes, Grouped, Ascending, GroupsOfBatch, Divided;
      var sender :| sender in left;
      var group, client := left[sender], around.client(sender);
      GroupMeans(left, world.held, sender);
      GroupOfBatch(left, round.batch, senderOf, sender);
      NotYetSent(groups, left, round.sent, sender);
      ghost var held := world.held;
      var result := SendGroup(sender, group, client, around, round, faultsBefore);
      ghost var x := Sending(group, client, result);
      OneMoreSuccess(round.sent, sender, x);
      OneMoreSent(groups, left, round.sent, sender, x);
      WithoutGroup(left, held, sender, world.held);
      FewerLeft(left, sender);
      return left - {sender}, result.Success?, round.sent[sender := x];
    }

    /** Sends group after group, in no particular order, until the caller gives up. */
    method SendGroups(groups: map<Key, seq<Row>>, around: Circumstances, ghost round: Round)
      returns (ghost sent: map<Key, Sending>)
      requires Valid() && Grouped(groups, world.held) && round.since <= |acts| && InOrder(round.batch)
      requires GroupsOfBatch(groups, round.batch, senderOf)
      modifies this`world, this`acts, this`faults, orm
      ensures Valid() && old(acts) <= acts && Rises(old(orm.rows), orm.rows) && faults <= old(faults)
      ensures AllHandedOver(senderOf, around, round.(sent := sent), acts, orm.rows, faults == old(faults))
      ensures Divided(groups, map[], sent) || |Successes(sent)| > around.patience
    {
      NothingHandedOver(senderOf, around, round, acts, orm.rows, true);
      hide Valid, Rises, InOrder, AllHandedOver, HandedOver, Successes, Grouped, GroupsOfBatch, Divided, Keyed;
      RisesToSelf(orm.rows);
      NothingSent(groups);
      var left := groups;
      sent := map[];
      var successes := 0;
      while left != map[]
        invariant Valid() && old(acts) <= acts && Rises(old(orm.rows), orm.rows) && faults <= old(faults)
        invariant Grouped(left, world.held) && GroupsOfBatch(left, round.batch, senderOf)
        invariant Divided(groups, left, sent)
        invariant AllHandedOver(senderOf, around, round.(sent := sent), acts, orm.rows, faults == old(faults))
        invariant successes == |Successes(sent)| <= around.patience
        decreases |left|
      {
        ghost var before := orm.rows;
        var ok: bool;
        left, ok, sent := SendNext(groups, left, around, round.(sent := sent), old(faults));
        RisesOn(old(orm.rows), before, orm.rows);
        if ok {
          successes := successes + 1;
          if successes > around.patience {
            return;
          }
        }
      }
    }

    /** Claims a batch and puts what is in time of it in order, oldest first. */
    method ClaimInOrder(cutoff: int) returns (batch: seq<Row>, ghost round: Round)
      requires Valid()
      modifies this`world, this`acts, this`faults, orm
      ensures Valid() && old(acts) <= acts && Rises(old(orm.rows), orm.rows) && faults <= old(faults)
      ensures round.cutoff == cutoff && round.batch == batch && round.sent == map[] && round.since <= |acts|
      ensures !round.claimed ==> batch == [] && (faults < old(faults) || maxMsgsPerBatch < 1)
      ensures round.claimed ==>
                && faults == old(faults) && maxMsgsPerBatch >= 1 && |old(acts)| < round.since
                && ClaimedIn(P(), start, round, acts)
      ensures InOrder(batch) && DistinctIds(batch) && (round.claimed ==> IdSet(batch) == world.held)
    {
      hide Next, BroadcastIds, Rises, Good, Queued, LeftOver, InTime, IdSet, DistinctIds, InOrder, ClaimedIn;
      NoBatch();
      Others();
      ghost var before, actsBefore, rowsBefore := world, acts, orm.rows;
      var msgs, claimed := ClaimBatch(cutoff);
      round := Round(claimed.Success?, before, cutoff, |acts|, [], map[]);
      if claimed.Failure? {
        return [], round;
      }
      ClaimRises(P(), before, cutoff);
      RisesOn(old(orm.rows), rowsBefore, orm.rows);
      BatchIsHeld(P(), before, cutoff);
      ghost var found := msgs.valid;
      if |msgs.valid| > 0 {
        msgs.SortValid();
      }
      batch := msgs.valid;
      round := round.(batch := batch);
      Reordered(found, batch);
      ClaimIsKept(P(), start, round, actsBefore);
    }

    /** One round of the sending loop: claim a batch, then send it sender by sender. */
    method SendMsgBatch(around: Circumstances) returns (ghost round: Round)
      requires Valid()
      modifies this`world, this`acts, this`faults, orm
      ensures Valid() && old(acts) <= acts && Rises(old(orm.rows), orm.rows) && faults <= old(faults)
      ensures round.claimed ==> |old(acts)| < round.since
      ensures RoundKept(P(), start, senderOf, around, round, acts, orm.rows, faults == old(faults))
    {
      hide Rises, Good, Traced, IdSet, DistinctIds, Keyed, InOrder, ClaimedIn, AllHandedOver, Successes, Grouped;
      var batch, claim := ClaimInOrder(around.cutoff);
      round := claim;
      NothingHandedOver(senderOf, around, round, acts, orm.rows, faults == old(faults));
      if |batch| == 0 {
        NothingKeyed(senderOf);
        return;
      }
      var groups := GroupBy(batch, senderOf);
      GroupsOf(batch, senderOf, groups);
      if !around.priced {
        return;
      }
      ghost var claimedRows, claimedActs := orm.rows, acts;
      ghost var sent := SendGroups(groups, around, round);
      RisesOn(old(orm.rows), claimedRows, orm.rows);
      ClaimStays(P(), start, claim, claimedActs, acts, sent);
      round := claim.(sent := sent);
    }

    /** The process: settle what an earlier one left in flight, then send batch after batch. */
    method RunProcess(connected: bool, polls: Key -> seq<Poll>, rounds: seq<Circumstances>)
      returns (ghost clear: bool, ghost done: seq<Round>)
      requires Valid()
      modifies this`world, this`acts, this`faults, orm
      ensures Valid() && old(acts) <= acts && faults <= old(faults)
      ensures !clear ==> faults < old(faults) || maxMsgsPerBatch < 1 || !connected || GivesUp(polls)
      ensures |done| == |rounds|
      ensures forall i :: 0 <= i < |rounds| ==>
                RoundKept(P(), start, senderOf, rounds[i], done[i], acts, orm.rows, faults == old(faults))
    {
      hide Good, Traced, GivesUp, Rises, RoundKept;
      clear := ConfirmAnyUnconfirmed(connected, polls);
      done := [];
      for i := 0 to |rounds|
        invariant Valid() && old(acts) <= acts && faults <= old(faults) && |done| == i
        invariant !clear ==> faults < old(faults) || maxMsgsPerBatch < 1 || !connected || GivesUp(polls)
        invariant forall j :: 0 <= j < i ==>
                    RoundKept(P(), start, senderOf, rounds[j], done[j], acts, orm.rows, faults == old(faults))
      {
        ghost var actsBefore, rowsBefore, healthyBefore := acts, orm.rows, faults == old(faults);
        ghost var faultsBefore := faults;
        ghost var round := SendMsgBatch(rounds[i]);
        TracedIsGood();
        GoodIsAscending(P(), world);
        forall j | 0 <= j < i
          ensures RoundKept(P(), start, senderOf, rounds[j], done[j], acts, orm.rows, faults == old(faults))
        {
          RoundStays(P(), start, senderOf, rounds[j], done[j], actsBefore, rowsBefore, healthyBefore, acts, orm.rows,
                     faults == old(faults));
        }
        RisesToSelf(orm.rows);
        RoundStays(P(), start, senderOf, rounds[i], round, acts, orm.rows, faults == faultsBefore, acts, orm.rows,
                   faults == old(faults));
        done := done + [round];
      }
    }
  }

  lemma GoodIsAscending(params: Params, w: World)
    requires Good(params, w)
    ensures Ascending(w.rows)
  {
  }

  /** What is sorted out as the batch is what the machine holds after a claim. */
  lemma BatchIsHeld(params: Params, w: World, cutoff: int)
    requires Good(params, w) && params.maxMsgsPerBatch >= 1
    ensures var batch := InTime(Queued(params, w.rows), cutoff) + InTime(LeftOver(params, w.rows), cutoff);
            DistinctIds(batch) && IdSet(batch) == Next(params, w, Claim(cutoff)).held
  {
    BatchRows(params, w.rows, cutoff);
  }

  /** The rows read for recovery: all with a hash, none twice. */
  lemma UnconfirmedRows(params: Params, w: World)
    requires Good(params, w) && params.maxMsgsPerBatch >= 1
    ensures var found := Oldest(w.rows, params.chainId, Broadcasted, params.maxMsgsPerBatch);
            && DistinctIds(found) && (forall r :: r in found ==> r.txHash.Some?)
            && Next(params, w, Recover).rows == w.rows && Next(params, w, Recover).nextId == w.nextId
            && Next(params, w, Recover).inFlight == IdSet(found)
  {
    OldestMembers(w.rows, params.chainId, Broadcasted, params.maxMsgsPerBatch);
    AscendingIds(Oldest(w.rows, params.chainId, Broadcasted, params.maxMsgsPerBatch));
  }

  lemma NothingExpires(cutoff: int)
    ensures InTime([], cutoff) == [] && Expired([], cutoff) == []
  {
  }

  lemma NoUpdate(rows: seq<Row>, state: MsgState, txHash: Option<seq<byte>>)
    ensures WithState(rows, {}, state, txHash) == rows
  {
  }

  lemma SameIds(rows: seq<Row>, after: seq<Row>)
    requires |rows| == |after| && forall i :: 0 <= i < |rows| ==> after[i].id == rows[i].id
    ensures IdSet(after) == IdSet(rows) && (Ascending(rows) ==> Ascending(after))
  {
  }

  /** An update by id touches exactly the rows it names, also after an earlier update. */
  lemma NamedRowsTouched(rows: seq<Row>, table: seq<Row>, part: seq<Row>)
    requires Ascending(rows) && |table| == |rows| && forall i :: 0 <= i < |rows| ==> table[i].id == rows[i].id
    requires DistinctIds(part) && forall x :: x in part ==> x in rows
    ensures AsSet(Ids(part)) == IdSet(part) && Touched(table, AsSet(Ids(part))) == |Ids(part)|
  {
    PartOfTable(rows, part);
    AsSetOfIds(part);
    SameIds(rows, table);
    hide AsSet, IdSet, Ascending, Touched;
    AllTouched(table, Ids(part));
  }

  lemma ExpiredAreDistinct(unstarted: seq<Row>, started: seq<Row>)
    requires Ascending(unstarted) && Ascending(started)
    requires forall i, j :: 0 <= i < |unstarted| && 0 <= j < |started| ==> unstarted[i].id != started[j].id
    ensures DistinctIds(unstarted + started)
  {
  }

  /** What expires comes from two states, so no row is named twice. */
  lemma ExpiredRows(params: Params, rows: seq<Row>, cutoff: int)
    requires Ascending(rows) && params.maxMsgsPerBatch >= 1
    ensures var expired := Expired(Queued(params, rows), cutoff) + Expired(LeftOver(params, rows), cutoff);
            DistinctIds(expired) && forall x :: x in expired ==> x in rows
  {
    var started, unstarted := LeftOver(params, rows), Queued(params, rows);
    ClaimReads(params, rows, cutoff);
    FilterMembers(unstarted, cutoff);
    FilterMembers(started, cutoff);
    hide LeftOver, Queued, InTime;
    var a, b := Expired(unstarted, cutoff), Expired(started, cutoff);
    forall i, j | 0 <= i < |a| && 0 <= j < |b| ensures a[i].id != b[j].id {
      assert a[i] in a && b[j] in b;
      if a[i].id == b[j].id {
        AscendingInjective(rows, a[i], b[j]);
      }
    }
    hide Expired;
    ExpiredAreDistinct(a, b);
  }

  lemma BatchRows(params: Params, rows: seq<Row>, cutoff: int)
    requires Ascending(rows) && params.maxMsgsPerBatch >= 1
    ensures var batch := InTime(Queued(params, rows), cutoff) + InTime(LeftOver(params, rows), cutoff);
            DistinctIds(batch) && forall x :: x in batch ==> x in rows
    ensures var valid := InTime(Queued(params, rows), cutoff);
            DistinctIds(valid) && forall x :: x in valid ==> x in rows
  {
    var started, unstarted := LeftOver(params, rows), Queued(params, rows);
    ClaimReads(params, rows, cutoff);
    FilterMembers(unstarted, cutoff);
    FilterMembers(started, cutoff);
    hide LeftOver, Queued, Expired;
    var a, b := InTime(unstarted, cutoff), InTime(started, cutoff);
    forall i, j | 0 <= i < |a| && 0 <= j < |b| ensures a[i].id != b[j].id {
      assert a[i] in a && b[j] in b;
      if a[i].id == b[j].id {
        AscendingInjective(rows, a[i], b[j]);
      }
    }
    hide InTime;
    ExpiredAreDistinct(a, b);
    DistinctParts(a, b);
  }

  /** Both updates of a claim touch exactly the rows they name, and together make its new table. */
  lemma ClaimWrites(params: Params, w: World, cutoff: int)
    requires Ascending(w.rows) && params.maxMsgsPerBatch >= 1
    ensures var started, unstarted := LeftOver(params, w.rows), Queued(params, w.rows);
            var valid, expired := InTime(unstarted, cutoff), Expired(unstarted, cutoff) + Expired(started, cutoff);
            var marked := WithState(w.rows, AsSet(Ids(valid)), Started, None);
            && Touched(w.rows, AsSet(Ids(valid))) == |Ids(valid)|
            && Touched(marked, AsSet(Ids(expired))) == |Ids(expired)|
            && (unstarted == [] ==> marked == w.rows)
            && Next(params, w, Claim(cutoff)).rows == WithState(marked, AsSet(Ids(expired)), Errored, None)
            && Next(params, w, Claim(cutoff)).nextId == w.nextId
  {
    var rows := w.rows;
    var started, unstarted := LeftOver(params, rows), Queued(params, rows);
    var valid, expired := InTime(unstarted, cutoff), Expired(unstarted, cutoff) + Expired(started, cutoff);
    assert unstarted == [] ==> valid == [] && IdSet(valid) == {};
    NoUpdate(rows, Started, None);
    ExpiredRows(params, rows, cutoff);
    BatchRows(params, rows, cutoff);
    assert Next(params, w, Claim(cutoff)).rows
        == WithState(WithState(rows, IdSet(valid), Started, None), IdSet(expired), Errored, None);
    assert Next(params, w, Claim(cutoff)).nextId == w.nextId;
    hide LeftOver, Queued, InTime, Expired, AsSet, IdSet, Touched, Next, Ascending, DistinctIds;
    NamedRowsTouched(rows, rows, valid);
    NamedRowsTouched(rows, WithState(rows, AsSet(Ids(valid)), Started, None), expired);
  }
}
