/**
 The aggregator contract as an object: its storage maps are fields that the message handlers
 load, save and remove entries of. Every handler is proved against its function in
 AggregatorSpec; a handler that fails may leave partial writes, which Execute reverts.
 */
module AggregatorContract {
  import opened Wrappers
  import opened Bytes
  import opened Seqs
  import opened Digest
  import opened Reimbursement
  import opened AggregatorSpec
  import ConfigEvent
  import Quorum
  import Report

  /** A failed prefix decides the result of a payout. */
  lemma {:induction false} PayOutFailsEarly(
      config: Config, ts: map<Addr, Transmitter>, payees: map<Addr, Addr>, keys: seq<Addr>, n: nat)
    requires forall k :: k in keys ==> k in ts
    requires n <= |keys| && PayOut(config, ts, payees, keys[..n]).Failure?
    ensures PayOut(config, ts, payees, keys) == PayOut(config, ts, payees, keys[..n])
  {
    if n == |keys| {
      assert keys[..n] == keys;
    } else {
      assert keys[..|keys| - 1][..n] == keys[..n];
      PayOutFailsEarly(config, ts, payees, keys[..|keys| - 1], n);
    }
  }

  /** One more transmitter extends the payout, or decides its result. */
  lemma PayOutStep(config: Config, ts: map<Addr, Transmitter>, payees: map<Addr, Addr>, keys: seq<Addr>, i: nat,
      done: Payout)
    requires forall k :: k in keys ==> k in ts
    requires i < |keys| && PayOut(config, ts, payees, keys[..i]) == Success(done)
    ensures PayOut(config, ts, payees, keys[..i + 1]) == PayOne(config, ts, payees, done, keys[i])
    ensures PayOne(config, ts, payees, done, keys[i]).Failure? ==>
              PayOut(config, ts, payees, keys) == PayOne(config, ts, payees, done, keys[i])
  {
    assert keys[..i + 1][..i] == keys[..i];
    if PayOne(config, ts, payees, done, keys[i]).Failure? {
      PayOutFailsEarly(config, ts, payees, keys, i + 1);
    }
  }

  lemma {:induction false} InstallFailsEarly(oracles: seq<Oracle>, fromRoundId: uint32, payees: map<Addr, Addr>, n: nat)
    requires n <= |oracles| && Install(oracles[..n], fromRoundId, payees).Failure?
    ensures Install(oracles, fromRoundId, payees) == Failure(RepeatedAddress)
  {
    if n == |oracles| {
      assert oracles[..n] == oracles;
      if Install(oracles[..n - 1], fromRoundId, payees).Failure? {
        assert oracles[..|oracles| - 1][..n - 1] == oracles[..n - 1];
        InstallFailsEarly(oracles[..|oracles| - 1], fromRoundId, payees, n - 1);
      }
    } else {
      assert oracles[..|oracles| - 1][..n] == oracles[..n];
      InstallFailsEarly(oracles[..|oracles| - 1], fromRoundId, payees, n);
    }
  }

  lemma {:induction false} SumRoundsFailsEarly(config: Config, ts: map<Addr, Transmitter>, keys: seq<Addr>, n: nat)
    requires forall k :: k in keys ==> k in ts
    requires n <= |keys| && SumRounds(config, ts, keys[..n]).Failure?
    ensures SumRounds(config, ts, keys) == SumRounds(config, ts, keys[..n])
  {
    if n == |keys| {
      assert keys[..n] == keys;
    } else {
      assert keys[..|keys| - 1][..n] == keys[..n];
      SumRoundsFailsEarly(config, ts, keys[..|keys| - 1], n);
    }
  }

  lemma SumRoundsStep(config: Config, ts: map<Addr, Transmitter>, keys: seq<Addr>, i: nat)
    requires forall k :: k in keys ==> k in ts
    requires i < |keys| && SumRounds(config, ts, keys[..i]).Success?
    ensures keys[..i + 1][..i] == keys[..i]
    ensures SumRounds(config, ts, keys[..i + 1]).Failure? ==> SumRounds(config, ts, keys) == Failure(Aborted)
  {
    assert keys[..i + 1][..i] == keys[..i];
    if SumRounds(config, ts, keys[..i + 1]).Failure? {
      SumRoundsFailsEarly(config, ts, keys, i + 1);
    }
  }

  method AllKeys(s: set<seq<byte>>) returns (keys: seq<seq<byte>>)
    ensures forall k :: k in s ==> exists j :: 0 <= j < |keys| && keys[j] == k
  {
    keys := RangeKeys(s);
    assert forall k :: k in s ==> k in keys;
  }

  lemma AcceptedKnowsSender(lib: Lib, s: State, sender: Addr, reportContext: seq<byte>, report: seq<byte>,
      signatures: seq<seq<byte>>)
    requires CheckTransmit(lib, s, sender, reportContext, report, signatures).Accepted?
    ensures sender in s.transmitters && |reportContext| == REPORT_CONTEXT_SIZE
  {
  }

  lemma RecordKeepsBilling(config: Config, env: Env, ctx: ReportContext, raw: seq<byte>, signatureCount: nat)
    requires Record(config, env, ctx, raw, signatureCount).Success?
    ensures Record(config, env, ctx, raw, signatureCount).value.config.billing == config.billing
  {
  }

  class Aggregator {
    var owner: Addr
    var config: Config
    var proposals: map<uint128, Proposal>
    var nextProposalId: uint128
    var transmitters: map<Addr, Transmitter>
    var signers: set<Key>
    var transmissions: map<uint32, Transmission>
    var payees: map<Addr, Addr>
    var proposedPayees: map<Addr, Addr>

    function Storage(): State
      reads this
    {
      State(owner, config, proposals, nextProposalId, transmitters, signers, transmissions, payees, proposedPayees)
    }

    /** The result and the storage are what the specification says. */
    ghost predicate Follows(r: Result<Response, Error>, spec: Result<Outcome, Error>)
      reads this
    {
      if spec.Success? then r == Success(spec.value.response) && Storage() == spec.value.state
      else r == Failure(spec.error)
    }

    constructor (owner: Addr, linkToken: Addr, minAnswer: int128, maxAnswer: int128)
      ensures Storage() == InitialState(owner, linkToken, minAnswer, maxAnswer)
    {
      this.owner := owner;
      config := Config(linkToken, minAnswer, maxAnswer, 0, 0, 0, seq(32, _ => 0), 0, 0, 0, 0,
                       Billing(0, 0, 0, None, None, None));
      proposals, nextProposalId := map[], 0;
      transmitters, signers, transmissions := map[], {}, map[];
      payees, proposedPayees := map[], map[];
      new;
      assert config == InitialState(owner, linkToken, minAnswer, maxAnswer).config;
    }

    // ---------- proposals ----------

    method ExecuteBeginProposal(sender: Addr) returns (r: Result<Response, Error>)
      modifies this
      ensures Follows(r, StepBeginProposal(old(Storage()), sender))
    {
      if nextProposalId + 1 >= TWO_128 {
        return Failure(Aborted);
      }
      nextProposalId := nextProposalId + 1;
      proposals := proposals[nextProposalId := Proposal(sender, false, [], 0, 0, [])];
      return Success(Response([], [ConfigEvent.Attribute("proposal_id", DecimalDigits(nextProposalId))]));
    }

    /** Loads a proposal for the contract owner or its own owner. */
    method LoadProposal(sender: Addr, id: uint128) returns (r: Result<Proposal, Error>)
      ensures r == if MayEdit(Storage(), sender, id) then Success(proposals[id]) else Failure(EditError(Storage(), id))
    {
      if id !in proposals {
        return Failure(NotFound);
      }
      var proposal := proposals[id];
      if sender != owner && proposal.owner != sender {
        return Failure(Unauthorized);
      }
      return Success(proposal);
    }

    method ExecuteClearProposal(sender: Addr, id: uint128) returns (r: Result<Response, Error>)
      modifies this
      ensures Follows(r, StepClearProposal(old(Storage()), sender, id))
    {
      var _ :- LoadProposal(sender, id);
      proposals := proposals - {id};
      return Success(NOTHING);
    }

    method ExecuteFinalizeProposal(lib: Lib, sender: Addr, id: uint128) returns (r: Result<Response, Error>)
      modifies this
      ensures Follows(r, StepFinalizeProposal(lib, old(Storage()), sender, id))
    {
      var proposal :- LoadProposal(sender, id);
      if proposal.finalized {
        return Failure(InvalidInput);
      }
      if proposal.offchainConfig == [] || proposal.oracles == [] {
        return Failure(InvalidInput);
      }
      proposal := proposal.(finalized := true);
      proposals := proposals[id := proposal];
      var digest := ProposalDigest(lib.hash, proposal.oracles, proposal.f, proposal.offchainConfigVersion,
                                   proposal.offchainConfig);
      return Success(Response([], [ConfigEvent.Attribute("proposal_id", DecimalDigits(id)),
                                   ConfigEvent.Attribute("digest", HexEncode(digest))]));
    }

    method ExecuteProposeConfig(
        sender: Addr, id: uint128, newSigners: seq<Key>, newTransmitters: seq<Addr>, newPayees: seq<Addr>,
        f: byte, onchainConfig: seq<byte>)
      returns (r: Result<Response, Error>)
      modifies this
      ensures Follows(r, StepProposeConfig(old(Storage()), sender, id, newSigners, newTransmitters, newPayees, f,
                                           onchainConfig))
    {
      if exists i :: 0 <= i < |newSigners| && |newSigners[i]| != KEY_SIZE {
        return Failure(InvalidInput);
      }
      var proposal :- LoadProposal(sender, id);
      if f == 0 {
        return Failure(InvalidInput);
      }
      if |newSigners| > MAX_ORACLES {
        return Failure(TooManySigners);
      }
      if |newTransmitters| != |newSigners| || |newPayees| != |newSigners|
         || 3 * f >= |newSigners| || onchainConfig != []
      {
        return Failure(InvalidInput);
      }
      if proposal.finalized {
        return Failure(InvalidInput);
      }
      var oracles := seq(|newSigners|, i requires 0 <= i < |newSigners| =>
                         Oracle(newSigners[i], newTransmitters[i], newPayees[i]));
      assert oracles == Zip(newSigners, newTransmitters, newPayees);
      proposals := proposals[id := proposal.(f := f, oracles := oracles)];
      return Success(NOTHING);
    }

    method ExecuteProposeOffchainConfig(sender: Addr, id: uint128, version: uint64, offchainConfig: seq<byte>)
      returns (r: Result<Response, Error>)
      modifies this
      ensures Follows(r, StepProposeOffchainConfig(old(Storage()), sender, id, version, offchainConfig))
    {
      var proposal :- LoadProposal(sender, id);
      if offchainConfig == [] {
        return Failure(InvalidInput);
      }
      if proposal.finalized {
        return Failure(InvalidInput);
      }
      proposals := proposals[id := proposal.(offchainConfigVersion := version, offchainConfig := offchainConfig)];
      return Success(NOTHING);
    }

    // ---------- payouts ----------

    /** Pays every transmitter that is owed something, in key order. */
    method PayOracles() returns (r: Result<(uint128, seq<Transfer>), Error>)
      modifies `transmitters
      ensures PayAll(old(Storage())).Success? ==>
                && r == Success((PayAll(old(Storage())).value.total, PayAll(old(Storage())).value.transfers))
                && transmitters == PayAll(old(Storage())).value.transmitters
      ensures PayAll(old(Storage())).Failure? ==> r == Failure(PayAll(old(Storage())).error)
    {
      var stored := transmitters;
      var keys := RangeKeys(stored.Keys);
      var total: uint128 := 0;
      var transfers: seq<Transfer> := [];
      for i := 0 to |keys|
        invariant PayOut(config, stored, payees, keys[..i]) == Success(Payout(total, transmitters, transfers))
      {
        var key := keys[i];
        PayOutStep(config, stored, payees, keys, i, Payout(total, transmitters, transfers));
        var paid := OwedPayment(config, stored[key]);
        if paid.Failure? {
          return Failure(paid.error);
        }
        var amount := paid.value;
        if amount != 0 {
          if key !in payees {
            return Failure(NotFound);
          }
          if total + amount >= TWO_128 {
            return Failure(Aborted);
          }
          transmitters := transmitters[key := Transmitter(0, config.latestAggregatorRoundId)];
          transfers := transfers + [Transfer(config.linkToken, payees[key], amount, Some(key))];
          total := total + amount;
        }
      }
      assert keys[..|keys|] == keys;
      return Success((total, transfers));
    }

    // ---------- accepting a proposal ----------

    method ClearTransmitters()
      modifies `transmitters
      ensures transmitters == map[]
    {
      var keys := AllKeys(transmitters.Keys);
      for i := 0 to |keys|
        invariant forall k :: k in transmitters ==> exists j :: i <= j < |keys| && keys[j] == k
      {
        transmitters := transmitters - {keys[i]};
      }
    }

    method ClearSigners()
      modifies `signers
      ensures signers == {}
    {
      var keys := AllKeys(signers);
      for i := 0 to |keys|
        invariant forall k :: k in signers ==> exists j :: i <= j < |keys| && keys[j] == k
      {
        signers := signers - {keys[i]};
      }
    }

    method InstallOracles(oracles: seq<Oracle>) returns (ok: bool)
      requires transmitters == map[] && signers == {}
      modifies `transmitters, `signers, `payees
      ensures ok <==> Install(oracles, config.latestAggregatorRoundId, old(payees)).Success?
      ensures !ok ==> Install(oracles, config.latestAggregatorRoundId, old(payees)) == Failure(RepeatedAddress)
      ensures ok ==>
                Install(oracles, config.latestAggregatorRoundId, old(payees)).value
                == Installed(signers, transmitters, payees)
    {
      for i := 0 to |oracles|
        invariant Install(oracles[..i], config.latestAggregatorRoundId, old(payees))
               == Success(Installed(signers, transmitters, payees))
      {
        assert oracles[..i + 1][..i] == oracles[..i];
        var o := oracles[i];
        if o.signer in signers {
          InstallFailsEarly(oracles, config.latestAggregatorRoundId, old(payees), i + 1);
          return false;
        }
        signers := signers + {o.signer};
        if o.transmitter in transmitters {
          InstallFailsEarly(oracles, config.latestAggregatorRoundId, old(payees), i + 1);
          return false;
        }
        transmitters := transmitters[o.transmitter := Transmitter(0, config.latestAggregatorRoundId)];
        payees := payees[o.transmitter := o.payee];
      }
      assert oracles[..|oracles|] == oracles;
      return true;
    }

    /** Writes the configuration record of an accepted proposal and describes it in an event. */
    method SaveConfig(lib: Lib, env: Env, proposal: Proposal) returns (r: Result<seq<ConfigEvent.Attribute>, Error>)
      modifies `config
      ensures !CanCount(env, old(config)) ==> r == Failure(Aborted)
      ensures CanCount(env, old(config)) ==>
                && config == ConfigAfter(lib, env, old(config), proposal)
                && r == Success(SetConfigEvent(lib, old(config), config, proposal))
    {
      var onchainConfig := BuildOnchainConfig(config.minAnswer, config.maxAnswer);
      var previousBlock := config.latestConfigBlockNumber;
      if config.configCount + 1 >= TWO_32 {
        return Failure(Aborted);
      }
      config := config.(f := proposal.f, latestConfigBlockNumber := env.blockHeight,
                        configCount := config.configCount + 1);
      var configDigest := ConfigDigestFromData(lib.hash, env.chainId, env.self, config.configCount, proposal.oracles,
                                               proposal.f, onchainConfig, proposal.offchainConfigVersion,
                                               proposal.offchainConfig);
      if configDigest.None? {
        return Failure(Aborted);
      }
      config := config.(latestConfigDigest := configDigest.value, n := |proposal.oracles| % TWO_8, epoch := 0,
                        round := 0);
      return Success(ConfigEvent.SetConfigAttributes(
        lib.base64, previousBlock, config.latestConfigDigest, config.configCount, proposal.oracles, proposal.f,
        onchainConfig, proposal.offchainConfigVersion, proposal.offchainConfig));
    }

    /** Clears the old oracle set and installs the new one; payees are never cleared. */
    method ReplaceOracles(oracles: seq<Oracle>) returns (ok: bool)
      modifies `transmitters, `signers, `payees
      ensures ok <==> Install(oracles, config.latestAggregatorRoundId, old(payees)).Success?
      ensures !ok ==> Install(oracles, config.latestAggregatorRoundId, old(payees)) == Failure(RepeatedAddress)
      ensures ok ==>
                Install(oracles, config.latestAggregatorRoundId, old(payees)).value
                == Installed(signers, transmitters, payees)
    {
      ClearTransmitters();
      ClearSigners();
      ok := InstallOracles(oracles);
    }

    method LoadAcceptable(lib: Lib, sender: Addr, id: uint128, digest: seq<byte>) returns (r: Result<Proposal, Error>)
      ensures r == if |digest| != 32 then Failure(InvalidInput)
                   else if sender != owner then Failure(Unauthorized)
                   else if id !in proposals then Failure(NotFound)
                   else if !Acceptable(lib, Storage(), id, digest) then Failure(InvalidInput)
                   else Success(proposals[id])
    {
      if |digest| != 32 {
        return Failure(InvalidInput);
      }
      if sender != owner {
        return Failure(Unauthorized);
      }
      if id !in proposals {
        return Failure(NotFound);
      }
      var proposal := proposals[id];
      if !proposal.finalized {
        return Failure(InvalidInput);
      }
      var expected := ProposalDigest(lib.hash, proposal.oracles, proposal.f, proposal.offchainConfigVersion,
                                     proposal.offchainConfig);
      if expected != digest {
        return Failure(InvalidInput);
      }
      return Success(proposal);
    }

    method ExecuteAcceptProposal(lib: Lib, env: Env, sender: Addr, id: uint128, digest: seq<byte>)
      returns (r: Result<Response, Error>)
      modifies this
      ensures Follows(r, StepAcceptProposal(lib, env, old(Storage()), sender, id, digest))
    {
      hide PayAll, Install, ConfigAfter, SetConfigEvent, DigestOf;
      ghost var s := Storage();
      var proposal :- LoadAcceptable(lib, sender, id, digest);
      var paid :- PayOracles();
      assert PayAll(s).Success?;
      var ok := ReplaceOracles(proposal.oracles);
      if !ok {
        return Failure(RepeatedAddress);
      }
      assert Install(proposal.oracles, s.config.latestAggregatorRoundId, s.payees)
           == Success(Installed(signers, transmitters, payees));
      var attributes :- SaveConfig(lib, env, proposal);
      proposals := proposals - {id};
      r := Success(Response(paid.1, attributes));
    }

    // ---------- transmitting ----------

    method VerifyReport(lib: Lib, sender: Addr, reportContext: seq<byte>, report: seq<byte>, signatures: seq<seq<byte>>)
      returns (verdict: Verdict)
      ensures verdict == CheckTransmit(lib, Storage(), sender, reportContext, report, signatures)
    {
      if exists i :: 0 <= i < |signatures| && |signatures[i]| != SIGNATURE_ENTRY_SIZE {
        return Rejected(InvalidInput);
      }
      if |reportContext| != REPORT_CONTEXT_SIZE {
        return Rejected(InvalidInput);
      }
      var ctx := ParseContext(reportContext);
      if !Newer(config, ctx) {
        return Rejected(StaleReport);
      }
      if sender !in transmitters {
        return Rejected(Unauthorized);
      }
      if config.latestConfigDigest != ctx.configDigest {
        return Rejected(DigestMismatch);
      }
      if |signatures| != config.f + 1 {
        return Rejected(WrongNumberOfSignatures);
      }
      if |report| >= TWO_32 {
        return Rejected(InvalidInput);
      }
      var hash := lib.hash(Be(|report|, 4) + report + reportContext);
      var collected := Quorum.CollectSignatures(signers, Entries(signatures));
      match collected {
        case Failure(NotASigner) => return Rejected(Unauthorized);
        case Failure(RepeatedSigner) => return Rejected(RepeatedAddress);
        case Success(c) =>
          if !lib.verify(hash, c.sigs, c.pkeys) {
            return Rejected(InvalidSignature);
          }
      }
      return Accepted;
    }

    method RecordReport(env: Env, ctx: ReportContext, raw: seq<byte>, signatureCount: nat)
      returns (r: Result<uint128, Error>)
      modifies `config, `transmissions
      ensures var spec := Record(old(config), env, ctx, raw, signatureCount);
              if spec.Success? then
                && r == Success(spec.value.reimbursement)
                && config == spec.value.config
                && transmissions == old(transmissions)[config.latestAggregatorRoundId := spec.value.transmission]
              else r == Failure(spec.error)
    {
      var decoded := Report.DecodeReport(raw);
      if decoded.Failure? {
        return Failure(InvalidInput);
      }
      var report := decoded.value;
      var n := |report.observations|;
      if n > MAX_ORACLES || config.f >= n {
        return Failure(InvalidInput);
      }
      config := config.(epoch := ctx.epoch, round := ctx.round);
      var median := report.observations[n / 2];
      if !(config.minAnswer <= median <= config.maxAnswer) {
        return Failure(MedianOutOfRange);
      }
      if config.latestAggregatorRoundId + 1 >= TWO_32 {
        return Failure(Aborted);
      }
      config := config.(latestAggregatorRoundId := config.latestAggregatorRoundId + 1);
      var reimbursement := CalculateReimbursement(config.billing, report.juelsPerFeeCoin, signatureCount);
      if reimbursement.None? {
        return Failure(Aborted);
      }
      transmissions := transmissions[config.latestAggregatorRoundId :=
                         Transmission(median, report.observationsTimestamp, env.timeSeconds % TWO_32)];
      return Success(reimbursement.value);
    }

    method ExecuteTransmit(lib: Lib, env: Env, sender: Addr, reportContext: seq<byte>, report: seq<byte>,
        signatures: seq<seq<byte>>)
      returns (r: Result<Response, Error>)
      modifies this
      ensures Follows(r, StepTransmit(lib, env, old(Storage()), sender, reportContext, report, signatures))
    {
      hide CheckTransmit, Record, ParseContext;
      var verdict := VerifyReport(lib, sender, reportContext, report, signatures);
      if verdict.Rejected? {
        return Failure(verdict.error);
      }
      AcceptedKnowsSender(lib, Storage(), sender, reportContext, report, signatures);
      var oracle := transmitters[sender];
      ghost var before := config;
      var reimbursement :- RecordReport(env, ParseContext(reportContext), report, |signatures|);
      RecordKeepsBilling(before, env, ParseContext(reportContext), report, |signatures|);
      var amount := config.billing.transmissionPaymentGjuels * GIGA + reimbursement;
      if amount >= TWO_128 || oracle.payment + amount >= TWO_128 {
        return Failure(Aborted);
      }
      transmitters := transmitters[sender := oracle.(payment := oracle.payment + amount)];
      return Success(NOTHING);
    }

    // ---------- token and billing ----------

    method ExecuteSetLinkToken(env: Env, sender: Addr, linkToken: Addr, recipient: Addr)
      returns (r: Result<Response, Error>)
      modifies this
      ensures Follows(r, StepSetLinkToken(env, old(Storage()), sender, linkToken, recipient))
    {
      if sender != owner {
        return Failure(Unauthorized);
      }
      if linkToken == config.linkToken {
        return Success(NOTHING);
      }
      var oldLinkToken := config.linkToken;
      if !env.newTokenAnswers {
        return Failure(NotFound);
      }
      var paid :- PayOracles();
      var remaining := if env.balance > paid.0 then env.balance - paid.0 else 0;
      config := config.(linkToken := linkToken);
      return Success(Response(paid.1 + [Transfer(oldLinkToken, recipient, remaining, None)], []));
    }

    method ExecuteSetBilling(env: Env, sender: Addr, billing: Billing) returns (r: Result<Response, Error>)
      modifies this
      ensures Follows(r, StepSetBilling(env, old(Storage()), sender, billing))
    {
      if sender != owner && !env.hasAccess {
        return Failure(Unauthorized);
      }
      var paid :- PayOracles();
      config := config.(billing := billing);
      return Success(Response(paid.1, []));
    }

    method ExecuteWithdrawPayment(sender: Addr, transmitter: Addr) returns (r: Result<Response, Error>)
      modifies this
      ensures Follows(r, StepWithdrawPayment(old(Storage()), sender, transmitter))
    {
      if transmitter !in payees || payees[transmitter] != sender {
        return Failure(Unauthorized);
      }
      if transmitter !in transmitters {
        return Failure(NotFound);
      }
      var owed := OwedPayment(config, transmitters[transmitter]);
      if owed.Failure? {
        return Failure(owed.error);
      }
      if owed.value == 0 {
        return Success(NOTHING);
      }
      transmitters := transmitters[transmitter := Transmitter(0, config.latestAggregatorRoundId)];
      return Success(Response([Transfer(config.linkToken, payees[transmitter], owed.value, Some(transmitter))], []));
    }

    /** One pass over the transmitters. */
    method ComputeLinkDue() returns (r: Result<uint128, Error>)
      ensures r == TotalLinkDue(Storage())
    {
      var keys := RangeKeys(transmitters.Keys);
      var rounds: uint128, reimbursements: uint128 := 0, 0;
      for i := 0 to |keys|
        invariant SumRounds(config, transmitters, keys[..i]) == Success((rounds, reimbursements))
      {
        SumRoundsStep(config, transmitters, keys, i);
        var t := transmitters[keys[i]];
        if t.fromRoundId > config.latestAggregatorRoundId
           || config.latestAggregatorRoundId - t.fromRoundId + rounds >= TWO_128
           || reimbursements + t.payment >= TWO_128 {
          return Failure(Aborted);
        }
        rounds := config.latestAggregatorRoundId - t.fromRoundId + rounds;
        reimbursements := reimbursements + t.payment;
      }
      assert keys[..|keys|] == keys;
      r := LinkDueFrom(config, (rounds, reimbursements));
    }

    method ExecuteWithdrawFunds(env: Env, sender: Addr, recipient: Addr, amount: uint128)
      returns (r: Result<Response, Error>)
      modifies this
      ensures Follows(r, StepWithdrawFunds(env, old(Storage()), sender, recipient, amount))
    {
      if sender != owner && !env.hasAccess {
        return Failure(Unauthorized);
      }
      var due :- ComputeLinkDue();
      var available := if env.balance > due then env.balance - due else 0;
      var taken := if amount < available then amount else available;
      return Success(Response([Transfer(config.linkToken, recipient, taken, None)], []));
    }

    // ---------- payees ----------

    method ExecuteTransferPayeeship(sender: Addr, transmitter: Addr, proposed: Addr)
      returns (r: Result<Response, Error>)
      modifies this
      ensures Follows(r, StepTransferPayeeship(old(Storage()), sender, transmitter, proposed))
    {
      if sender == proposed {
        return Failure(TransferToSelf);
      }
      if transmitter !in payees || payees[transmitter] != sender {
        return Failure(Unauthorized);
      }
      proposedPayees := proposedPayees[transmitter := proposed];
      return Success(NOTHING);
    }

    method ExecuteAcceptPayeeship(sender: Addr, transmitter: Addr) returns (r: Result<Response, Error>)
      modifies this
      ensures Follows(r, StepAcceptPayeeship(old(Storage()), sender, transmitter))
    {
      if transmitter !in proposedPayees {
        return Failure(NotFound);
      }
      if proposedPayees[transmitter] != sender {
        return Failure(Unauthorized);
      }
      payees := payees[transmitter := sender];
      proposedPayees := proposedPayees - {transmitter};
      return Success(NOTHING);
    }

    // ---------- all messages ----------

    method Dispatch(lib: Lib, env: Env, sender: Addr, msg: Msg) returns (r: Result<Response, Error>)
      modifies this
      ensures Follows(r, Step(lib, env, old(Storage()), sender, msg))
    {
      match msg {
        case BeginProposal => r := ExecuteBeginProposal(sender);
        case ClearProposal(id) => r := ExecuteClearProposal(sender, id);
        case FinalizeProposal(id) => r := ExecuteFinalizeProposal(lib, sender, id);
        case AcceptProposal(id, digest) => r := ExecuteAcceptProposal(lib, env, sender, id, digest);
        case ProposeConfig(id, newSigners, newTransmitters, newPayees, f, onchainConfig) =>
          r := ExecuteProposeConfig(sender, id, newSigners, newTransmitters, newPayees, f, onchainConfig);
        case ProposeOffchainConfig(id, version, offchainConfig) =>
          r := ExecuteProposeOffchainConfig(sender, id, version, offchainConfig);
        case Transmit(reportContext, report, signatures) =>
          r := ExecuteTransmit(lib, env, sender, reportContext, report, signatures);
        case SetLinkToken(linkToken, recipient) => r := ExecuteSetLinkToken(env, sender, linkToken, recipient);
        case SetBilling(billing) => r := ExecuteSetBilling(env, sender, billing);
        case WithdrawPayment(transmitter) => r := ExecuteWithdrawPayment(sender, transmitter);
        case WithdrawFunds(recipient, amount) => r := ExecuteWithdrawFunds(env, sender, recipient, amount);
        case TransferPayeeship(transmitter, proposed) => r := ExecuteTransferPayeeship(sender, transmitter, proposed);
        case AcceptPayeeship(transmitter) => r := ExecuteAcceptPayeeship(sender, transmitter);
      }
    }

    /** The chain discards every write of a failed message. */
    method Execute(lib: Lib, env: Env, sender: Addr, msg: Msg) returns (r: Result<Response, Error>)
      modifies this
      ensures Follows(r, Step(lib, env, old(Storage()), sender, msg))
      ensures r.Failure? ==> Storage() == old(Storage())
    {
      var saved := Storage();
      r := Dispatch(lib, env, sender, msg);
      if r.Failure? {
        owner, config, proposals, nextProposalId := saved.owner, saved.config, saved.proposals, saved.nextProposalId;
        transmitters, signers, transmissions := saved.transmitters, saved.signers, saved.transmissions;
        payees, proposedPayees := saved.payees, saved.proposedPayees;
      }
    }
  }
}
