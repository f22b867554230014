/**
 What the payout loop, the oracle installation loop and the single-pass debt sum amount to,
 stated without reference to the order in which they run.
 */
module AggregatorPayouts {
  import opened Wrappers
  import opened Bytes
  import opened Seqs
  import opened Digest
  import opened AggregatorSpec

  ghost predicate RoundsInPast(config: Config, ts: map<Addr, Transmitter>) {
    forall k :: k in ts ==> ts[k].fromRoundId <= config.latestAggregatorRoundId
  }

  /** What a possibly absent transmitter is owed. */
  ghost function OwedTo(config: Config, ts: map<Addr, Transmitter>, k: Addr): nat
    requires RoundsInPast(config, ts)
  {
    if k in ts then Owed(config, ts[k]) else 0
  }

  ghost function SumOwed(config: Config, ts: map<Addr, Transmitter>, keys: seq<Addr>): nat
    requires RoundsInPast(config, ts)
  {
    if |keys| == 0 then 0 else SumOwed(config, ts, keys[..|keys| - 1]) + OwedTo(config, ts, keys[|keys| - 1])
  }

  /** The sum of the debts to all current transmitters. */
  ghost function TotalOwed(config: Config, ts: map<Addr, Transmitter>): nat
    requires RoundsInPast(config, ts)
  {
    SumOwed(config, ts, SortedKeys(ts.Keys))
  }

  function Amounts(transfers: seq<Transfer>): nat {
    if |transfers| == 0 then 0 else Amounts(transfers[..|transfers| - 1]) + transfers[|transfers| - 1].amount
  }

  /** The part of the transfers made on behalf of one oracle. */
  function PaidFor(transfers: seq<Transfer>, k: Addr): nat {
    if |transfers| == 0 then 0
    else
      PaidFor(transfers[..|transfers| - 1], k)
      + (if transfers[|transfers| - 1].forOracle == Some(k) then transfers[|transfers| - 1].amount else 0)
  }

  /** The part of the transfers made on behalf of one oracle that goes to the payee of that oracle. */
  function PaidToPayee(transfers: seq<Transfer>, payees: map<Addr, Addr>, k: Addr): nat {
    if |transfers| == 0 then 0
    else
      var t := transfers[|transfers| - 1];
      PaidToPayee(transfers[..|transfers| - 1], payees, k)
      + (if t.forOracle == Some(k) && k in payees && t.recipient == payees[k] then t.amount else 0)
  }

  /** A transfer made on behalf of an oracle goes to its payee. */
  predicate ToPayee(t: Transfer, payees: map<Addr, Addr>) {
    t.forOracle.Some? ==> t.forOracle.value in payees && t.recipient == payees[t.forOracle.value]
  }

  ghost predicate ToPayees(transfers: seq<Transfer>, payees: map<Addr, Addr>) {
    forall i :: 0 <= i < |transfers| ==> ToPayee(transfers[i], payees)
  }

  lemma {:induction false} AllGoesToPayees(transfers: seq<Transfer>, payees: map<Addr, Addr>, k: Addr)
    requires ToPayees(transfers, payees)
    ensures PaidToPayee(transfers, payees, k) == PaidFor(transfers, k)
  {
    if |transfers| > 0 {
      assert ToPayee(transfers[|transfers| - 1], payees);
      AllGoesToPayees(transfers[..|transfers| - 1], payees, k);
    }
  }

  /** The transmitter record after a payout. */
  ghost function Settled(config: Config, t: Transmitter): Transmitter
    requires t.fromRoundId <= config.latestAggregatorRoundId
  {
    if Owed(config, t) > 0 then Transmitter(0, config.latestAggregatorRoundId) else t
  }

  /** A positive amount of the token, paid on behalf of one of these oracles. */
  predicate IsPayoutOf(t: Transfer, token: Addr, oracles: seq<Addr>) {
    t.token == token && t.amount > 0 && t.forOracle.Some? && t.forOracle.value in oracles
  }

  lemma PaidForAppend(transfers: seq<Transfer>, last: Transfer, t: Addr)
    ensures PaidFor(transfers + [last], t)
         == PaidFor(transfers, t) + if last.forOracle == Some(t) then last.amount else 0
    ensures Amounts(transfers + [last]) == Amounts(transfers) + last.amount
  {
    assert (transfers + [last])[..|transfers|] == transfers;
  }

  lemma PayOneEffect(config: Config, ts: map<Addr, Transmitter>, payees: map<Addr, Addr>, done: Payout, key: Addr)
    requires key in ts && ts[key].fromRoundId <= config.latestAggregatorRoundId
    requires PayOne(config, ts, payees, done, key).Success?
    ensures var p, owed := PayOne(config, ts, payees, done, key).value, Owed(config, ts[key]);
            && p.total == done.total + owed
            && (owed == 0 ==> p == done)
            && (owed > 0 ==>
                  && key in payees && owed < TWO_128
                  && p.transmitters == done.transmitters[key := Settled(config, ts[key])]
                  && p.transfers == done.transfers + [Transfer(config.linkToken, payees[key], owed, Some(key))])
  {
    hide Owed;
  }

  lemma PayOutLast(config: Config, ts: map<Addr, Transmitter>, payees: map<Addr, Addr>, keys: seq<Addr>)
    requires (forall k :: k in keys ==> k in ts) && |keys| > 0 && PayOut(config, ts, payees, keys).Success?
    ensures PayOut(config, ts, payees, keys[..|keys| - 1]).Success?
    ensures PayOut(config, ts, payees, keys)
         == PayOne(config, ts, payees, PayOut(config, ts, payees, keys[..|keys| - 1]).value, keys[|keys| - 1])
  {
    hide PayOne;
  }

  /** A payout clears the debts of the oracles it is made for. */
  lemma {:induction false} PayOutSettles(config: Config, ts: map<Addr, Transmitter>, payees: map<Addr, Addr>,
      keys: seq<Addr>)
    requires RoundsInPast(config, ts) && Distinct(keys) && forall k :: k in keys ==> k in ts
    requires PayOut(config, ts, payees, keys).Success?
    ensures var p := PayOut(config, ts, payees, keys).value;
            && p.transmitters.Keys == ts.Keys
            && (forall k :: k in ts ==> p.transmitters[k] == if k in keys then Settled(config, ts[k]) else ts[k])
            && p.total == SumOwed(config, ts, keys)
  {
    if |keys| > 0 {
      var front, key := keys[..|keys| - 1], keys[|keys| - 1];
      PayOutSettles(config, ts, payees, front);
      PayOutLast(config, ts, payees, keys);
      var done := PayOut(config, ts, payees, front).value;
      PayOneEffect(config, ts, payees, done, key);
      assert keys == front + [key] && key !in front;
      hide PayOut, PayOne, Owed;
    }
  }

  lemma ExtendedPayouts(transfers: seq<Transfer>, last: Transfer, oracles: seq<Addr>, payees: map<Addr, Addr>)
    requires forall i :: 0 <= i < |transfers| ==> IsPayoutOf(transfers[i], last.token, oracles)
    requires ToPayees(transfers, payees) && ToPayee(last, payees) && last.forOracle.Some? && last.amount > 0
    ensures var after := transfers + [last];
            && (forall i :: 0 <= i < |after| ==> IsPayoutOf(after[i], last.token, oracles + [last.forOracle.value]))
            && ToPayees(after, payees)
  {
  }

  /** Each of these oracles is paid what it is owed, to its payee, and nobody else is paid. */
  ghost predicate PaysJust(config: Config, ts: map<Addr, Transmitter>, payees: map<Addr, Addr>, keys: seq<Addr>,
      transfers: seq<Transfer>)
    requires RoundsInPast(config, ts) && forall k :: k in keys ==> k in ts
  {
    && (forall k :: PaidFor(transfers, k) == if k in keys then Owed(config, ts[k]) else 0)
    && (forall i :: 0 <= i < |transfers| ==> IsPayoutOf(transfers[i], config.linkToken, keys))
    && ToPayees(transfers, payees)
  }

  lemma OneMoreUnpaid(config: Config, ts: map<Addr, Transmitter>, payees: map<Addr, Addr>, front: seq<Addr>, key: Addr,
      transfers: seq<Transfer>)
    requires RoundsInPast(config, ts) && key in ts && key !in front && forall k :: k in front ==> k in ts
    requires PaysJust(config, ts, payees, front, transfers) && Owed(config, ts[key]) == 0
    ensures PaysJust(config, ts, payees, front + [key], transfers)
  {
    hide Owed, PaidFor, ToPayees, RoundsInPast;
  }

  lemma OneMorePaid(config: Config, ts: map<Addr, Transmitter>, payees: map<Addr, Addr>, front: seq<Addr>, key: Addr,
      transfers: seq<Transfer>)
    requires RoundsInPast(config, ts) && key in ts && key !in front && forall k :: k in front ==> k in ts
    requires PaysJust(config, ts, payees, front, transfers) && key in payees && 0 < Owed(config, ts[key]) < TWO_128
    ensures var last := Transfer(config.linkToken, payees[key], Owed(config, ts[key]), Some(key));
            PaysJust(config, ts, payees, front + [key], transfers + [last])
  {
    var last := Transfer(config.linkToken, payees[key], Owed(config, ts[key]), Some(key));
    ExtendedPayouts(transfers, last, front, payees);
    hide Owed, PaidFor, ToPayees, IsPayoutOf, RoundsInPast;
    forall k
      ensures PaidFor(transfers + [last], k) == if k in front + [key] then Owed(config, ts[k]) else 0
    {
      PaidForAppend(transfers, last, k);
    }
  }

  /** The transfers of a payout add up to its total, and pay just what is owed. */
  lemma {:induction false} PayOutTransfers(config: Config, ts: map<Addr, Transmitter>, payees: map<Addr, Addr>,
      keys: seq<Addr>)
    requires RoundsInPast(config, ts) && Distinct(keys) && forall k :: k in keys ==> k in ts
    requires PayOut(config, ts, payees, keys).Success?
    ensures var p := PayOut(config, ts, payees, keys).value;
            Amounts(p.transfers) == p.total && PaysJust(config, ts, payees, keys, p.transfers)
  {
    if |keys| > 0 {
      var front, key := keys[..|keys| - 1], keys[|keys| - 1];
      assert keys == front + [key] && key !in front && Distinct(front);
      PayOutLast(config, ts, payees, keys);
      PayOneEffect(config, ts, payees, PayOut(config, ts, payees, front).value, key);
      hide PayOut, PayOne, Owed, PaidFor, Amounts, Settled, PaysJust, RoundsInPast, Distinct;
      PayOutTransfers(config, ts, payees, front);
      var transfers := PayOut(config, ts, payees, front).value.transfers;
      if Owed(config, ts[key]) == 0 {
        OneMoreUnpaid(config, ts, payees, front, key, transfers);
      } else {
        var last := Transfer(config.linkToken, payees[key], Owed(config, ts[key]), Some(key));
        PaidForAppend(transfers, last, key);
        OneMorePaid(config, ts, payees, front, key, transfers);
      }
    }
  }

  /** What a payout does, to the debts and by its transfers. */
  lemma PayOutEffect(config: Config, ts: map<Addr, Transmitter>, payees: map<Addr, Addr>, keys: seq<Addr>)
    requires RoundsInPast(config, ts) && Distinct(keys) && forall k :: k in keys ==> k in ts
    requires PayOut(config, ts, payees, keys).Success?
    ensures var p := PayOut(config, ts, payees, keys).value;
            && p.transmitters.Keys == ts.Keys
            && (forall k :: k in ts ==> p.transmitters[k] == if k in keys then Settled(config, ts[k]) else ts[k])
            && p.total == SumOwed(config, ts, keys) == Amounts(p.transfers)
            && (forall k :: PaidFor(p.transfers, k) == if k in keys then Owed(config, ts[k]) else 0)
            && (forall i :: 0 <= i < |p.transfers| ==> IsPayoutOf(p.transfers[i], config.linkToken, keys))
            && ToPayees(p.transfers, payees)
  {
    PayOutSettles(config, ts, payees, keys);
    PayOutTransfers(config, ts, payees, keys);
  }

  lemma PayOneSucceedsIff(config: Config, ts: map<Addr, Transmitter>, payees: map<Addr, Addr>, done: Payout, key: Addr)
    requires key in ts && ts[key].fromRoundId <= config.latestAggregatorRoundId
    ensures PayOne(config, ts, payees, done, key).Success? <==>
              (Owed(config, ts[key]) > 0 ==> key in payees) && done.total + Owed(config, ts[key]) < TWO_128
  {
    hide Owed;
  }

  /** A payout goes through exactly when every debt fits, has a payee, and the sum fits. */
  lemma {:induction false} PayOutSucceedsIff(config: Config, ts: map<Addr, Transmitter>, payees: map<Addr, Addr>,
      keys: seq<Addr>)
    requires RoundsInPast(config, ts) && Distinct(keys) && forall k :: k in keys ==> k in ts
    ensures PayOut(config, ts, payees, keys).Success? <==>
            && (forall k :: k in keys && Owed(config, ts[k]) > 0 ==> k in payees)
            && SumOwed(config, ts, keys) < TWO_128
  {
    if |keys| > 0 {
      var front, key := keys[..|keys| - 1], keys[|keys| - 1];
      PayOutSucceedsIff(config, ts, payees, front);
      assert keys == front + [key];
      if PayOut(config, ts, payees, front).Success? {
        PayOutSettles(config, ts, payees, front);
        PayOneSucceedsIff(config, ts, payees, PayOut(config, ts, payees, front).value, key);
      }
      hide PayOne, Owed, Settled;
    }
  }

  lemma PayAllEffect(s: State)
    requires RoundsInPast(s.config, s.transmitters) && PayAll(s).Success?
    ensures var p := PayAll(s).value;
            && p.transmitters.Keys == s.transmitters.Keys
            && (forall k :: k in s.transmitters ==> p.transmitters[k] == Settled(s.config, s.transmitters[k]))
            && p.total == TotalOwed(s.config, s.transmitters) == Amounts(p.transfers)
            && (forall k :: PaidFor(p.transfers, k) == OwedTo(s.config, s.transmitters, k))
            && (forall i :: 0 <= i < |p.transfers| ==>
                  IsPayoutOf(p.transfers[i], s.config.linkToken, SortedKeys(s.transmitters.Keys)))
            && ToPayees(p.transfers, s.payees)
  {
    var keys := SortedKeys(s.transmitters.Keys);
    SortedKeysAscend(s.transmitters.Keys);
    SortedIsDistinct(keys);
    PayOutEffect(s.config, s.transmitters, s.payees, keys);
    var p := PayAll(s).value;
    forall k | k in s.transmitters ensures p.transmitters[k] == Settled(s.config, s.transmitters[k]) {
      assert k in keys;
    }
    forall k ensures PaidFor(p.transfers, k) == OwedTo(s.config, s.transmitters, k) {
      assert k in keys <==> k in s.transmitters;
    }
  }

  /** PayAllEffect for one address. */
  lemma PayAllFor(s: State, t: Addr)
    requires RoundsInPast(s.config, s.transmitters) && PayAll(s).Success?
    ensures PaidFor(PayAll(s).value.transfers, t) == OwedTo(s.config, s.transmitters, t)
    ensures PaidToPayee(PayAll(s).value.transfers, s.payees, t) == OwedTo(s.config, s.transmitters, t)
    ensures t in PayAll(s).value.transmitters <==> t in s.transmitters
    ensures t in s.transmitters ==> PayAll(s).value.transmitters[t] == Settled(s.config, s.transmitters[t])
  {
    PayAllEffect(s);
    AllGoesToPayees(PayAll(s).value.transfers, s.payees, t);
  }

  lemma SettledIsZero(config: Config, t: Transmitter)
    requires t.fromRoundId <= config.latestAggregatorRoundId
    ensures Settled(config, t).fromRoundId <= config.latestAggregatorRoundId
    ensures Owed(config, Settled(config, t)) == 0
  {
  }

  lemma SettledOwesNothing(s: State)
    requires RoundsInPast(s.config, s.transmitters) && PayAll(s).Success?
    ensures RoundsInPast(s.config, PayAll(s).value.transmitters)
    ensures forall k :: OwedTo(s.config, PayAll(s).value.transmitters, k) == 0
  {
    PayAllEffect(s);
    var after := PayAll(s).value.transmitters;
    forall k | k in after
      ensures after[k].fromRoundId <= s.config.latestAggregatorRoundId && Owed(s.config, after[k]) == 0
    {
      SettledIsZero(s.config, s.transmitters[k]);
    }
  }

  lemma {:induction false} SumOwedZero(config: Config, ts: map<Addr, Transmitter>, keys: seq<Addr>)
    requires RoundsInPast(config, ts) && forall k :: OwedTo(config, ts, k) == 0
    ensures SumOwed(config, ts, keys) == 0
  {
    if |keys| > 0 {
      SumOwedZero(config, ts, keys[..|keys| - 1]);
    }
  }

  /** Paying everyone leaves nothing owed under the same billing. */
  lemma PayAllSettlesEverything(s: State)
    requires RoundsInPast(s.config, s.transmitters) && PayAll(s).Success?
    ensures RoundsInPast(s.config, PayAll(s).value.transmitters)
    ensures TotalOwed(s.config, PayAll(s).value.transmitters) == 0
  {
    SettledOwesNothing(s);
    SumOwedZero(s.config, PayAll(s).value.transmitters, SortedKeys(PayAll(s).value.transmitters.Keys));
  }

  lemma {:induction false} SumOwedExtensional(
      config: Config, ts: map<Addr, Transmitter>, config': Config, ts': map<Addr, Transmitter>, keys: seq<Addr>)
    requires RoundsInPast(config, ts) && RoundsInPast(config', ts')
    requires forall k :: k in keys ==> OwedTo(config, ts, k) == OwedTo(config', ts', k)
    ensures SumOwed(config, ts, keys) == SumOwed(config', ts', keys)
  {
    if |keys| > 0 {
      SumOwedExtensional(config, ts, config', ts', keys[..|keys| - 1]);
    }
  }

  /** Changing one transmitter's debt changes the sum by the difference. */
  lemma {:induction false} SumOwedChange(config: Config, ts: map<Addr, Transmitter>, key: Addr, t: Transmitter,
      keys: seq<Addr>)
    requires RoundsInPast(config, ts) && t.fromRoundId <= config.latestAggregatorRoundId && Distinct(keys) && key in ts
    ensures SumOwed(config, ts[key := t], keys) + (if key in keys then Owed(config, ts[key]) else 0)
         == SumOwed(config, ts, keys) + (if key in keys then Owed(config, t) else 0)
  {
    if |keys| > 0 {
      var front, last := keys[..|keys| - 1], keys[|keys| - 1];
      SumOwedChange(config, ts, key, t, front);
      assert keys == front + [last];
      assert last !in front;
    }
  }

  lemma TotalOwedChange(config: Config, ts: map<Addr, Transmitter>, key: Addr, t: Transmitter)
    requires RoundsInPast(config, ts) && t.fromRoundId <= config.latestAggregatorRoundId && key in ts
    ensures TotalOwed(config, ts[key := t]) + Owed(config, ts[key]) == TotalOwed(config, ts) + Owed(config, t)
  {
    var keys := SortedKeys(ts.Keys);
    assert ts[key := t].Keys == ts.Keys;
    SortedKeysAscend(ts.Keys);
    SortedIsDistinct(keys);
    SumOwedChange(config, ts, key, t, keys);
  }

  // ---------- the single-pass sum ----------

  lemma {:induction false} SumRoundsMeaning(config: Config, ts: map<Addr, Transmitter>, keys: seq<Addr>)
    requires RoundsInPast(config, ts) && forall k :: k in keys ==> k in ts
    requires SumRounds(config, ts, keys).Success?
    ensures var sums := SumRounds(config, ts, keys).value;
            PerRound(config.billing) * sums.0 + sums.1 == SumOwed(config, ts, keys)
  {
    if |keys| > 0 {
      var front, key := keys[..|keys| - 1], keys[|keys| - 1];
      SumRoundsMeaning(config, ts, front);
      var sums := SumRounds(config, ts, front).value;
      Distribute(PerRound(config.billing), sums.0, config.latestAggregatorRoundId - ts[key].fromRoundId);
    }
  }

  lemma Distribute(a: nat, b: nat, c: nat)
    ensures a * (b + c) == a * b + a * c
  {
  }

  /** With at most 2^64 transmitters the two partial sums fit unless the whole debt does not. */
  lemma {:induction false} SumRoundsFits(config: Config, ts: map<Addr, Transmitter>, keys: seq<Addr>)
    requires RoundsInPast(config, ts) && forall k :: k in keys ==> k in ts
    requires SumOwed(config, ts, keys) < TWO_128 && |keys| <= TWO_64
    ensures SumRounds(config, ts, keys).Success?
    ensures SumRounds(config, ts, keys).value.0 <= |keys| * TWO_32
  {
    if |keys| > 0 {
      var front, key := keys[..|keys| - 1], keys[|keys| - 1];
      SumRoundsFits(config, ts, front);
      SumRoundsMeaning(config, ts, front);
      var sums := SumRounds(config, ts, front).value;
      var rounds := config.latestAggregatorRoundId - ts[key].fromRoundId;
      NonNegative(PerRound(config.billing), sums.0);
      NonNegative(PerRound(config.billing), rounds);
      assert SumOwed(config, ts, keys)
           == SumOwed(config, ts, front) + PerRound(config.billing) * rounds + ts[key].payment;
      assert |front| * TWO_32 + rounds <= |keys| * TWO_32 < TWO_128;
    }
  }

  /** total_link_due is the sum of owed_payment over all transmitters, whenever that sum fits. */
  lemma TotalLinkDueIsTotalOwed(s: State)
    requires RoundsInPast(s.config, s.transmitters) && |s.transmitters| <= TWO_64
    ensures TotalLinkDue(s) == if TotalOwed(s.config, s.transmitters) < TWO_128
                               then Success(TotalOwed(s.config, s.transmitters)) else Failure(Aborted)
  {
    var keys := SortedKeys(s.transmitters.Keys);
    ListingLength(s.transmitters.Keys);
    hide SumRounds, SumOwed, SortedKeys, RoundsInPast;
    assert |s.transmitters.Keys| == |s.transmitters|;
    if SumRounds(s.config, s.transmitters, keys).Success? {
      SumRoundsMeaning(s.config, s.transmitters, keys);
      var sums := SumRounds(s.config, s.transmitters, keys).value;
      NonNegative(PerRound(s.config.billing), sums.0);
    } else {
      SumRoundsError(s.config, s.transmitters, keys);
    }
    if TotalOwed(s.config, s.transmitters) < TWO_128 {
      SumRoundsFits(s.config, s.transmitters, keys);
    }
  }

  lemma {:induction false} SumRoundsError(config: Config, ts: map<Addr, Transmitter>, keys: seq<Addr>)
    requires forall k :: k in keys ==> k in ts
    ensures SumRounds(config, ts, keys).Failure? ==> SumRounds(config, ts, keys) == Failure(Aborted)
  {
    if |keys| > 0 {
      SumRoundsError(config, ts, keys[..|keys| - 1]);
    }
  }

  // ---------- installing an oracle set ----------

  function SignerSet(oracles: seq<Oracle>): set<seq<byte>> {
    if |oracles| == 0 then {} else SignerSet(oracles[..|oracles| - 1]) + {oracles[|oracles| - 1].signer}
  }

  function TransmitterSet(oracles: seq<Oracle>): set<seq<byte>> {
    if |oracles| == 0 then {} else TransmitterSet(oracles[..|oracles| - 1]) + {oracles[|oracles| - 1].transmitter}
  }

  lemma {:induction false} SetMembers(oracles: seq<Oracle>)
    ensures forall k :: k in SignerSet(oracles) <==> k in Signers(oracles)
    ensures forall k :: k in TransmitterSet(oracles) <==> k in Transmitters(oracles)
  {
    if |oracles| > 0 {
      var front, o := oracles[..|oracles| - 1], oracles[|oracles| - 1];
      SetMembers(front);
      assert Signers(oracles) == Signers(front) + [o.signer];
      assert Transmitters(oracles) == Transmitters(front) + [o.transmitter];
    }
  }

  /** The new signer and transmitter sets are exactly those of the oracles, with nothing owed. */
  lemma {:induction false} InstallMembers(oracles: seq<Oracle>, fromRoundId: uint32, payees: map<Addr, Addr>)
    requires Install(oracles, fromRoundId, payees).Success?
    ensures var done := Install(oracles, fromRoundId, payees).value;
            && done.signers == SignerSet(oracles)
            && done.transmitters.Keys == TransmitterSet(oracles)
            && (forall k :: k in done.transmitters ==> done.transmitters[k] == Transmitter(0, fromRoundId))
            && |done.signers| == |done.transmitters| == |oracles|
  {
    if |oracles| > 0 {
      var front, o := oracles[..|oracles| - 1], oracles[|oracles| - 1];
      InstallMembers(front, fromRoundId, payees);
      var before := Install(front, fromRoundId, payees).value;
      var done := Install(oracles, fromRoundId, payees).value;
      assert done.transmitters == before.transmitters[o.transmitter := Transmitter(0, fromRoundId)];
      assert done.transmitters.Keys == before.transmitters.Keys + {o.transmitter};
    }
  }

  /** Payees are only added or replaced, and only for the new transmitters. */
  lemma {:induction false} InstallPayees(oracles: seq<Oracle>, fromRoundId: uint32, payees: map<Addr, Addr>)
    requires Install(oracles, fromRoundId, payees).Success?
    ensures var done := Install(oracles, fromRoundId, payees).value;
            && done.payees.Keys == payees.Keys + TransmitterSet(oracles)
            && (forall k :: k in payees && k !in TransmitterSet(oracles) ==> done.payees[k] == payees[k])
  {
    if |oracles| > 0 {
      var front, o := oracles[..|oracles| - 1], oracles[|oracles| - 1];
      InstallPayees(front, fromRoundId, payees);
      var before := Install(front, fromRoundId, payees).value;
      var done := Install(oracles, fromRoundId, payees).value;
      assert done.payees == before.payees[o.transmitter := o.payee];
    }
  }

  /** Each new transmitter gets the payee proposed for it. */
  lemma {:induction false} InstallPayeeOf(oracles: seq<Oracle>, fromRoundId: uint32, payees: map<Addr, Addr>, i: nat)
    requires Install(oracles, fromRoundId, payees).Success? && i < |oracles|
    ensures var done := Install(oracles, fromRoundId, payees).value;
            oracles[i].transmitter in done.payees && done.payees[oracles[i].transmitter] == oracles[i].payee
  {
    var front, o := oracles[..|oracles| - 1], oracles[|oracles| - 1];
    var before := Install(front, fromRoundId, payees).value;
    assert Install(oracles, fromRoundId, payees).value.payees == before.payees[o.transmitter := o.payee];
    if i < |front| {
      InstallPayeeOf(front, fromRoundId, payees, i);
      InstallMembers(front, fromRoundId, payees);
      InTransmitterSet(front, i);
    }
  }

  lemma {:induction false} InTransmitterSet(oracles: seq<Oracle>, i: nat)
    requires i < |oracles|
    ensures oracles[i].transmitter in TransmitterSet(oracles)
  {
    if i < |oracles| - 1 {
      InTransmitterSet(oracles[..|oracles| - 1], i);
    }
  }

  lemma InstallStepIff(oracles: seq<Oracle>, fromRoundId: uint32, payees: map<Addr, Addr>)
    requires |oracles| > 0
    ensures var front, o := oracles[..|oracles| - 1], oracles[|oracles| - 1];
            Install(oracles, fromRoundId, payees).Success? <==>
            && Install(front, fromRoundId, payees).Success?
            && o.signer !in SignerSet(front) && o.transmitter !in TransmitterSet(front)
  {
    var front := oracles[..|oracles| - 1];
    if Install(front, fromRoundId, payees).Success? {
      InstallMembers(front, fromRoundId, payees);
    }
  }

  lemma DistinctStepIff(oracles: seq<Oracle>)
    requires |oracles| > 0
    ensures var front, o := oracles[..|oracles| - 1], oracles[|oracles| - 1];
            && (Distinct(Signers(oracles)) <==> Distinct(Signers(front)) && o.signer !in SignerSet(front))
            && (Distinct(Transmitters(oracles))
                <==> Distinct(Transmitters(front)) && o.transmitter !in TransmitterSet(front))
  {
    var front, o := oracles[..|oracles| - 1], oracles[|oracles| - 1];
    SetMembers(front);
    assert Signers(oracles) == Signers(front) + [o.signer];
    assert Transmitters(oracles) == Transmitters(front) + [o.transmitter];
    DistinctExtend(Signers(front), o.signer);
    DistinctExtend(Transmitters(front), o.transmitter);
  }

  /** Installation succeeds exactly for distinct signers and distinct transmitters. */
  lemma {:induction false} InstallSucceedsIff(oracles: seq<Oracle>, fromRoundId: uint32, payees: map<Addr, Addr>)
    ensures Install(oracles, fromRoundId, payees).Success?
         <==> Distinct(Signers(oracles)) && Distinct(Transmitters(oracles))
  {
    if |oracles| > 0 {
      InstallSucceedsIff(oracles[..|oracles| - 1], fromRoundId, payees);
      InstallStepIff(oracles, fromRoundId, payees);
      DistinctStepIff(oracles);
    }
  }

  lemma DistinctExtend<T>(s: seq<T>, x: T)
    ensures Distinct(s + [x]) <==> Distinct(s) && x !in s
  {
    if Distinct(s + [x]) {
      forall i, j | 0 <= i < j < |s| ensures s[i] != s[j] {
        assert (s + [x])[i] != (s + [x])[j];
      }
      forall i | 0 <= i < |s| ensures s[i] != x {
        assert (s + [x])[i] != (s + [x])[|s|];
      }
    }
  }
}
