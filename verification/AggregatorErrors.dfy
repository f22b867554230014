/**
 Which error a message fails with: a table of the checks of each message in their order, and the
 proof that the contract reports the first one that fails.
 */
module AggregatorErrors {
  import opened Wrappers
  import opened Bytes
  import opened Seqs
  import opened Digest
  import opened AggregatorSpec
  import opened AggregatorPayouts
  import opened AggregatorInvariant
  import opened AggregatorAccounting
  import opened AggregatorGuards
  import Quorum
  import Reimbursement
  import Report

  // ---------- transmissions ----------

  /** An epoch and round later than those of the last transmission. */
  predicate Later(config: Config, context: seq<byte>)
    requires |context| == 96
  {
    var epoch := FromBe(context[59..63]);
    epoch > config.epoch || (epoch == config.epoch && context[63] > config.round)
  }

  predicate AllOfSize96(signatures: seq<seq<byte>>) {
    forall i :: 0 <= i < |signatures| ==> |signatures[i]| == 96
  }

  /** The first n keys are distinct and belong to signers. */
  predicate GoodUpTo(keys: seq<Key>, signers: set<Key>, n: nat)
    requires n <= |keys|
  {
    && (forall i :: 0 <= i < n ==> keys[i] in signers)
    && (forall i, j :: 0 <= i < j < n ==> keys[i] != keys[j])
  }

  /** The first bad key is one of nobody's. */
  ghost predicate StrangerFirst(keys: seq<Key>, signers: set<Key>) {
    exists n: nat :: n < |keys| && GoodUpTo(keys, signers, n) && keys[n] !in signers
  }

  function KeysOf(signatures: seq<seq<byte>>): (keys: seq<Key>)
    requires AllOfSize96(signatures)
    ensures |keys| == |signatures| && forall i :: 0 <= i < |keys| ==> keys[i] == signatures[i][..32]
  {
    seq(|signatures|, i requires 0 <= i < |signatures| => signatures[i][..32])
  }

  /** The checks of a transmission up to its signatures. */
  ghost function UnsignedError(
      lib: Lib, s: State, sender: Addr, context: seq<byte>, report: seq<byte>,
      signatures: seq<seq<byte>>): Option<Error>
  {
    if !AllOfSize96(signatures) || |context| != 96 then Some(InvalidInput)
    else if !Later(s.config, context) then Some(StaleReport)
    else if sender !in s.transmitters then Some(Unauthorized)
    else if context[..32] != s.config.latestConfigDigest then Some(DigestMismatch)
    else if |signatures| != s.config.f + 1 then Some(WrongNumberOfSignatures)
    else if |report| >= 0x1_0000_0000 then Some(InvalidInput)
    else if StrangerFirst(KeysOf(signatures), s.signers) then Some(Unauthorized)
    else if !GoodUpTo(KeysOf(signatures), s.signers, |signatures|) then Some(RepeatedAddress)
    else if !SignedFor(lib, lib.hash(Be(|report|, 4) + report + context), signatures) then Some(InvalidSignature)
    else None
  }

  /** The checks of a report. */
  function ReportError(config: Config, raw: seq<byte>, count: nat): Option<Error> {
    if !IsWholeReport(raw) || !(config.f < Observed(raw) <= 31) then Some(InvalidInput)
    else if !(config.minAnswer <= Middle(raw) <= config.maxAnswer) then Some(MedianOutOfRange)
    else if config.latestAggregatorRoundId + 1 >= 0x1_0000_0000 then Some(Aborted)
    else if !Reimbursable(config.billing, Price(raw), count) then Some(Aborted)
    else None
  }

  ghost function TransmitError(
      lib: Lib, s: State, sender: Addr, context: seq<byte>, report: seq<byte>,
      signatures: seq<seq<byte>>): Option<Error>
  {
    var unsigned := UnsignedError(lib, s, sender, context, report, signatures);
    if unsigned.Some? then unsigned
    else if ReportError(s.config, report, |signatures|).Some? then ReportError(s.config, report, |signatures|)
    else if s.transmitters[sender].payment + SenderCredit(s.config.billing, report, |signatures|) >= TWO_128 then
      Some(Aborted)
    else None
  }

  lemma StrangerSplit(keys: seq<Key>, signers: set<Key>, n: nat)
    requires |keys| == n + 1
    ensures GoodUpTo(keys[..n], signers, n) <==> GoodUpTo(keys, signers, n)
    ensures StrangerFirst(keys, signers)
       <==> StrangerFirst(keys[..n], signers) || (GoodUpTo(keys, signers, n) && keys[n] !in signers)
  {
    if StrangerFirst(keys[..n], signers) {
      var k: nat :| k < n && GoodUpTo(keys[..n], signers, k) && keys[..n][k] !in signers;
      assert GoodUpTo(keys, signers, k) && keys[k] !in signers;
    }
    if StrangerFirst(keys, signers) {
      var k: nat :| k < |keys| && GoodUpTo(keys, signers, k) && keys[k] !in signers;
      if k < n {
        assert GoodUpTo(keys[..n], signers, k) && keys[..n][k] !in signers;
      }
    }
  }

  lemma GoodSplit(keys: seq<Key>, signers: set<Key>, n: nat)
    requires |keys| == n + 1
    ensures GoodUpTo(keys, signers, n + 1)
       <==> GoodUpTo(keys, signers, n) && keys[n] in signers && keys[n] !in keys[..n]
  {
  }

  lemma CollectLast(signers: set<Key>, entries: seq<Quorum.Entry>)
    requires |entries| > 0
    ensures var front, key := Quorum.Collect(signers, entries[..|entries| - 1]), entries[|entries| - 1].key;
            && (front.Failure? ==> Quorum.Collect(signers, entries) == front)
            && (front.Success? ==>
                  && (Quorum.Collect(signers, entries) == Failure(Quorum.NotASigner) <==> key !in signers)
                  && (Quorum.Collect(signers, entries).Success? <==> key in signers && key !in front.value.pkeys))
  {
  }

  /** The signature loop stops at the first key that is bad, for the reason that it is. */
  lemma {:induction false} CollectFails(signers: set<Key>, entries: seq<Quorum.Entry>, keys: seq<Key>)
    requires |keys| == |entries| && forall i :: 0 <= i < |keys| ==> keys[i] == entries[i].key
    ensures var c := Quorum.Collect(signers, entries);
            && (c.Success? <==> GoodUpTo(keys, signers, |keys|))
            && (c == Failure(Quorum.NotASigner) <==> StrangerFirst(keys, signers))
  {
    if |entries| > 0 {
      var n := |entries| - 1;
      CollectFails(signers, entries[..n], keys[..n]);
      CollectLast(signers, entries);
      StrangerSplit(keys, signers, n);
      GoodSplit(keys, signers, n);
      hide Quorum.Collect, GoodUpTo, StrangerFirst;
      if Quorum.Collect(signers, entries[..n]).Success? {
        Quorum.CollectMembers(signers, entries[..n]);
        forall k ensures k in Quorum.Collect(signers, entries[..n]).value.pkeys <==> k in keys[..n] {
          SameKeys(entries[..n], keys[..n], k);
        }
      }
    }
  }

  lemma SameKeys(entries: seq<Quorum.Entry>, keys: seq<Key>, k: Key)
    requires |keys| == |entries| && forall i :: 0 <= i < |keys| ==> keys[i] == entries[i].key
    ensures k in keys <==> exists i :: 0 <= i < |entries| && entries[i].key == k
  {
    if k in keys {
      var i :| 0 <= i < |keys| && keys[i] == k;
      assert entries[i].key == k;
    }
  }

  lemma KeysOfEntries(signatures: seq<seq<byte>>)
    requires AllOfSize96(signatures)
    ensures forall i :: 0 <= i < |signatures| ==> KeysOf(signatures)[i] == Entries(signatures)[i].key
  {
  }

  lemma LaterIsNewer(config: Config, context: seq<byte>)
    requires |context| == 96
    ensures Later(config, context) <==> Newer(config, ParseContext(context))
    ensures ParseContext(context).configDigest == context[..32]
  {
  }

  lemma UnsignedFails(
      lib: Lib, s: State, sender: Addr, context: seq<byte>, report: seq<byte>, signatures: seq<seq<byte>>)
    ensures match UnsignedError(lib, s, sender, context, report, signatures)
            case Some(e) => CheckTransmit(lib, s, sender, context, report, signatures) == Rejected(e)
            case None => CheckTransmit(lib, s, sender, context, report, signatures) == Accepted
  {
    if AllOfSize96(signatures) && |context| == 96 {
      var hash := lib.hash(Be(|report|, 4) + report + context);
      KeysOfEntries(signatures);
      CollectFails(s.signers, Entries(signatures), KeysOf(signatures));
      CollectedIff(lib, s, hash, signatures);
      LaterIsNewer(s.config, context);
      hide Quorum.Collect, GoodUpTo, StrangerFirst, KeysOf, Later, Newer, ParseContext, SignedFor, Be, Entries;
    } else if AllOfSize96(signatures) {
    } else {
      var i :| 0 <= i < |signatures| && |signatures[i]| != 96;
    }
  }

  lemma ReportFails(config: Config, env: Env, ctx: ReportContext, raw: seq<byte>, count: nat)
    ensures match ReportError(config, raw, count)
            case Some(e) => Record(config, env, ctx, raw, count) == Failure(e)
            case None => Record(config, env, ctx, raw, count).Success?
  {
    RecordedIff(config, env, ctx, raw, count);
    DecodedParts(raw);
    if IsWholeReport(raw) {
      ReimbursableIff(config.billing, Price(raw), count);
    }
    hide Report.DecodeReport, Reimbursement.CalculateReimbursement, Reimbursable, Reimbursed, Middle, Price,
      IsWholeReport;
  }

  lemma TransmitFails(
      lib: Lib, env: Env, s: State, sender: Addr, context: seq<byte>, report: seq<byte>, signatures: seq<seq<byte>>)
    ensures match TransmitError(lib, s, sender, context, report, signatures)
            case Some(e) => StepTransmit(lib, env, s, sender, context, report, signatures) == Failure(e)
            case None => StepTransmit(lib, env, s, sender, context, report, signatures).Success?
  {
    UnsignedFails(lib, s, sender, context, report, signatures);
    TransmitIff(lib, env, s, sender, context, report, signatures);
    TransmitInSteps(lib, env, s, sender, context, report, signatures);
    if |context| == 96 {
      ReportFails(s.config, env, ParseContext(context), report, |signatures|);
    }
    hide CheckTransmit, Record, UnsignedError, ReportError, TransmitPasses, ParseContext;
  }

  // ---------- all messages ----------

  /** The checks of the proposal messages. */
  function ProposalError(s: State, sender: Addr, msg: Msg): Option<Error>
    requires msg.ClearProposal? || msg.FinalizeProposal? || msg.ProposeConfig? || msg.ProposeOffchainConfig?
  {
    if msg.ProposeConfig? && exists i :: 0 <= i < |msg.newSigners| && |msg.newSigners[i]| != 32 then Some(InvalidInput)
    else if msg.id !in s.proposals then Some(NotFound)
    else if sender != s.owner && sender != s.proposals[msg.id].owner then Some(Unauthorized)
    else
      var p := s.proposals[msg.id];
      match msg
      case FinalizeProposal(_) =>
        if p.finalized || p.offchainConfig == [] || p.oracles == [] then Some(InvalidInput) else None
      case ProposeConfig(_, signers, transmitters, payees, f, onchainConfig) =>
        if f == 0 then Some(InvalidInput)
        else if |signers| > 31 then Some(TooManySigners)
        else if CanPropose(s, msg.id, signers, transmitters, payees, f, onchainConfig) then None
        else Some(InvalidInput)
      case ProposeOffchainConfig(_, _, offchainConfig) =>
        if p.finalized || offchainConfig == [] then Some(InvalidInput) else None
      case _ => None
  }

  ghost function AcceptError(lib: Lib, env: Env, s: State, sender: Addr, id: uint128, digest: seq<byte>): Option<Error>
    requires RoundsInPast(s.config, s.transmitters)
  {
    if |digest| != 32 then Some(InvalidInput)
    else if sender != s.owner then Some(Unauthorized)
    else if id !in s.proposals then Some(NotFound)
    else
      var p := s.proposals[id];
      if !p.finalized then Some(InvalidInput)
      else if lib.hash(ProposalPreimage(p.oracles, p.f, p.offchainConfigVersion, p.offchainConfig)) != digest then
        Some(InvalidInput)
      else if !CanPayAll(s) then Some(Aborted)
      else if !Distinct(Signers(p.oracles)) || !Distinct(Transmitters(p.oracles)) then Some(RepeatedAddress)
      else if s.config.configCount + 1 >= 0x1_0000_0000 || |env.chainId| >= 256 then Some(Aborted)
      else None
  }

  /** The first check of a message that fails, if one does. */
  ghost function ErrorOf(lib: Lib, env: Env, s: State, sender: Addr, msg: Msg): Option<Error>
    requires RoundsInPast(s.config, s.transmitters)
  {
    match msg
    case BeginProposal => if s.nextProposalId + 1 < TWO_128 then None else Some(Aborted)
    case AcceptProposal(id, digest) => AcceptError(lib, env, s, sender, id, digest)
    case SetLinkToken(linkToken, _) =>
      if sender != s.owner then Some(Unauthorized)
      else if linkToken == s.config.linkToken then None
      else if !env.newTokenAnswers then Some(NotFound)
      else if !CanPayAll(s) then Some(Aborted)
      else None
    case SetBilling(_) =>
      if sender != s.owner && !env.hasAccess then Some(Unauthorized)
      else if !CanPayAll(s) then Some(Aborted)
      else None
    case WithdrawFunds(_, _) =>
      if sender != s.owner && !env.hasAccess then Some(Unauthorized)
      else if !CanPayAll(s) then Some(Aborted)
      else None
    case WithdrawPayment(transmitter) =>
      if !IsPayee(s, sender, transmitter) then Some(Unauthorized)
      else if transmitter !in s.transmitters then Some(NotFound)
      else if OwedTo(s.config, s.transmitters, transmitter) >= TWO_128 then Some(Aborted)
      else None
    case TransferPayeeship(transmitter, proposed) =>
      if sender == proposed then Some(TransferToSelf)
      else if !IsPayee(s, sender, transmitter) then Some(Unauthorized)
      else None
    case AcceptPayeeship(transmitter) =>
      if transmitter !in s.proposedPayees then Some(NotFound)
      else if s.proposedPayees[transmitter] != sender then Some(Unauthorized)
      else None
    case Transmit(context, report, signatures) => TransmitError(lib, s, sender, context, report, signatures)
    case _ => ProposalError(s, sender, msg)
  }

  /** With a payee for every transmitter a payout only fails by overflow. */
  lemma {:induction false} PayOutAborts(config: Config, ts: map<Addr, Transmitter>, payees: map<Addr, Addr>,
      keys: seq<Addr>)
    requires forall k :: k in keys ==> k in ts && k in payees
    ensures PayOut(config, ts, payees, keys).Failure? ==> PayOut(config, ts, payees, keys).error == Aborted
  {
    if |keys| > 0 {
      PayOutAborts(config, ts, payees, keys[..|keys| - 1]);
      hide Owed;
    }
  }

  lemma PayAllAborts(s: State)
    requires Inv(s)
    ensures PayAll(s).Failure? ==> PayAll(s).error == Aborted
  {
    SortedKeysAscend(s.transmitters.Keys);
    PayOutAborts(s.config, s.transmitters, s.payees, SortedKeys(s.transmitters.Keys));
  }

  lemma {:induction false} InstallRepeats(oracles: seq<Oracle>, fromRoundId: uint32, payees: map<Addr, Addr>)
    ensures Install(oracles, fromRoundId, payees).Failure? ==>
              Install(oracles, fromRoundId, payees).error == RepeatedAddress
  {
    if |oracles| > 0 {
      InstallRepeats(oracles[..|oracles| - 1], fromRoundId, payees);
    }
  }

  lemma {:induction false} SumRoundsAborts(config: Config, ts: map<Addr, Transmitter>, keys: seq<Addr>)
    requires forall k :: k in keys ==> k in ts
    ensures SumRounds(config, ts, keys).Failure? ==> SumRounds(config, ts, keys).error == Aborted
  {
    if |keys| > 0 {
      SumRoundsAborts(config, ts, keys[..|keys| - 1]);
    }
  }

  lemma LinkDueAborts(s: State)
    ensures TotalLinkDue(s).Failure? ==> TotalLinkDue(s).error == Aborted
  {
    SortedKeysAscend(s.transmitters.Keys);
    SumRoundsAborts(s.config, s.transmitters, SortedKeys(s.transmitters.Keys));
  }

  lemma AcceptFails(lib: Lib, env: Env, s: State, sender: Addr, id: uint128, digest: seq<byte>)
    requires Inv(s)
    ensures match AcceptError(lib, env, s, sender, id, digest)
            case Some(e) => StepAcceptProposal(lib, env, s, sender, id, digest) == Failure(e)
            case None => StepAcceptProposal(lib, env, s, sender, id, digest).Success?
  {
    PayAllIff(s);
    PayAllAborts(s);
    if id in s.proposals {
      InstallSucceedsIff(s.proposals[id].oracles, s.config.latestAggregatorRoundId, s.payees);
      InstallRepeats(s.proposals[id].oracles, s.config.latestAggregatorRoundId, s.payees);
    }
    hide PayAll, Install, ConfigAfter, SetConfigEvent, ProposalPreimage, Distinct, CanPayAll;
  }

  lemma WithdrawalFails(lib: Lib, env: Env, s: State, sender: Addr, msg: Msg)
    requires Inv(s) && msg.WithdrawFunds?
    ensures match ErrorOf(lib, env, s, sender, msg)
            case Some(e) => Step(lib, env, s, sender, msg) == Failure(e)
            case None => Step(lib, env, s, sender, msg).Success?
  {
    TransmittersAreFew(s);
    TotalLinkDueIsTotalOwed(s);
    LinkDueAborts(s);
    hide PayAll, TotalLinkDue, TotalOwed, StepTransmit, StepAcceptProposal, HistoryComplete, OracleSetSized,
      ProposalsNumbered, Owed;
  }

  lemma PaymentsFail(lib: Lib, env: Env, s: State, sender: Addr, msg: Msg)
    requires Inv(s) && (msg.SetLinkToken? || msg.SetBilling? || msg.WithdrawPayment?)
    ensures match ErrorOf(lib, env, s, sender, msg)
            case Some(e) => Step(lib, env, s, sender, msg) == Failure(e)
            case None => Step(lib, env, s, sender, msg).Success?
  {
    PayAllIff(s);
    PayAllAborts(s);
    hide PayAll, TotalOwed, StepTransmit, StepAcceptProposal, HistoryComplete, OracleSetSized, ProposalsNumbered, Owed;
  }

  lemma ProposalsFail(lib: Lib, env: Env, s: State, sender: Addr, msg: Msg)
    requires RoundsInPast(s.config, s.transmitters)
    requires msg.BeginProposal? || msg.ClearProposal? || msg.FinalizeProposal? || msg.ProposeConfig?
          || msg.ProposeOffchainConfig? || msg.TransferPayeeship? || msg.AcceptPayeeship?
    ensures match ErrorOf(lib, env, s, sender, msg)
            case Some(e) => Step(lib, env, s, sender, msg) == Failure(e)
            case None => Step(lib, env, s, sender, msg).Success?
  {
    hide DigestOf, StepTransmit, StepAcceptProposal, StepSetLinkToken, StepSetBilling, StepWithdrawFunds,
      StepWithdrawPayment, RoundsInPast, TransmitError, AcceptError, CanPayAll;
  }

  /**
   In every reachable state a message fails with the error of the first of its checks that does
   not hold, and goes through if all of them hold.
   */
  lemma StepFailsWith(lib: Lib, env: Env, s: State, sender: Addr, msg: Msg)
    requires Inv(s)
    ensures match ErrorOf(lib, env, s, sender, msg)
            case Some(e) => Step(lib, env, s, sender, msg) == Failure(e)
            case None => Step(lib, env, s, sender, msg).Success?
  {
    match msg {
      case Transmit(context, report, signatures) =>
        TransmitFails(lib, env, s, sender, context, report, signatures);
        hide StepTransmit, TransmitError, Inv;
      case AcceptProposal(id, digest) =>
        AcceptFails(lib, env, s, sender, id, digest);
        hide StepAcceptProposal, AcceptError;
      case _ =>
        if msg.WithdrawFunds? {
          WithdrawalFails(lib, env, s, sender, msg);
        } else if msg.SetLinkToken? || msg.SetBilling? || msg.WithdrawPayment? {
          PaymentsFail(lib, env, s, sender, msg);
        } else {
          ProposalsFail(lib, env, s, sender, msg);
        }
    }
  }
}
