/**
 The contract and the node together: what a node learns from an accepted proposal, what an
 accepted transmission proves about its signers, and which answer it leaves behind.
 */
module AggregatorNode {
  import opened Wrappers
  import opened Bytes
  import opened Seqs
  import opened Medians
  import opened Digest
  import opened Reimbursement
  import opened AggregatorSpec
  import opened AggregatorInvariant
  import ConfigEvent
  import Quorum
  import Report

  /** The attributes as the chain reports them, behind the contract address it adds. */
  function Reported(env: Env, attributes: seq<ConfigEvent.Attribute>): seq<ConfigEvent.Attribute> {
    [ConfigEvent.Attribute("_contract_address", env.self)] + attributes
  }

  lemma AcceptedEvent(lib: Lib, env: Env, s: State, sender: Addr, id: uint128, digest: seq<byte>)
    requires StepAcceptProposal(lib, env, s, sender, id, digest).Success?
    ensures id in s.proposals && s.proposals[id].finalized && DigestOf(lib, s.proposals[id]) == digest
    ensures CanCount(env, s.config)
    ensures var o := StepAcceptProposal(lib, env, s, sender, id, digest).value;
            && o.state.config == ConfigAfter(lib, env, s.config, s.proposals[id])
            && o.response.attributes == SetConfigEvent(lib, s.config, o.state.config, s.proposals[id])
  {
  }

  /**
   From the event of an accepted proposal the node recovers the configuration exactly when the
   off-chain version is below 2^63, and the digest it then computes is the contract's own.
   */
  lemma NodeAgreesOnConfig(lib: Lib, env: Env, s: State, sender: Addr, id: uint128, digest: seq<byte>)
    requires Inv(s) && lib.base64.Inverse()
    requires StepAcceptProposal(lib, env, s, sender, id, digest).Success?
    ensures id in s.proposals
    ensures var o := StepAcceptProposal(lib, env, s, sender, id, digest).value;
            var p := s.proposals[id];
            var parsed := ConfigEvent.Parsed(lib.base64, Reported(env, o.response.attributes));
            && (parsed.Success? <==> p.offchainConfigVersion < TWO_63)
            && (parsed.Success? ==>
                  && parsed.value.output
                     == ContractConfig(o.state.config.latestConfigDigest, o.state.config.configCount,
                                       Signers(p.oracles), Transmitters(p.oracles), p.f,
                                       OnchainConfig(s.config.minAnswer, s.config.maxAnswer),
                                       p.offchainConfigVersion, p.offchainConfig)
                  && NodeDigest(lib.hash, env.chainId, env.self, parsed.value.output)
                     == Some(o.state.config.latestConfigDigest))
  {
    AcceptedEvent(lib, env, s, sender, id, digest);
    var p := s.proposals[id];
    var config := ConfigAfter(lib, env, s.config, p);
    assert ProposalSized(p);
    ConfigEvent.EventRoundTrip(
      lib.base64, env.self, s.config.latestConfigBlockNumber, config.latestConfigDigest, config.configCount,
      p.oracles, p.f, OnchainConfig(s.config.minAnswer, s.config.maxAnswer), p.offchainConfigVersion, p.offchainConfig);
  }

  /** Two proposals with one digest are the same proposal, unless the hash collides on them. */
  lemma DigestPinsProposal(lib: Lib, p: Proposal, q: Proposal, addressLength: nat)
    requires ProposalSized(p) && ProposalSized(q) && |p.offchainConfig| < TWO_32 && |q.offchainConfig| < TWO_32
    requires forall i :: 0 <= i < |p.oracles| ==> OracleSized(p.oracles[i], addressLength)
    requires forall i :: 0 <= i < |q.oracles| ==> OracleSized(q.oracles[i], addressLength)
    requires var a, b := ProposalPreimage(p.oracles, p.f, p.offchainConfigVersion, p.offchainConfig),
                         ProposalPreimage(q.oracles, q.f, q.offchainConfigVersion, q.offchainConfig);
             lib.hash(a) == lib.hash(b) ==> a == b
    requires DigestOf(lib, p) == DigestOf(lib, q)
    ensures p.oracles == q.oracles && p.f == q.f && p.offchainConfigVersion == q.offchainConfigVersion
            && p.offchainConfig == q.offchainConfig
  {
    ProposalPreimageUnambiguous(p.oracles, p.f, p.offchainConfigVersion, p.offchainConfig,
                                q.oracles, q.f, q.offchainConfigVersion, q.offchainConfig, addressLength);
  }

  /**
   An accepted transmission carries valid signatures of f + 1 distinct signers, so for any f
   faulty ones at least one accepted signature is an honest signer's.
   */
  lemma TransmissionHasHonestSigner(
      lib: Lib, env: Env, s: State, sender: Addr, reportContext: seq<byte>, report: seq<byte>,
      signatures: seq<seq<byte>>, faulty: set<Key>)
    requires StepTransmit(lib, env, s, sender, reportContext, report, signatures).Success? && |faulty| <= s.config.f
    ensures forall i :: 0 <= i < |signatures| ==> |signatures[i]| == SIGNATURE_ENTRY_SIZE
    ensures |signatures| == s.config.f + 1
    ensures forall i, j :: 0 <= i < j < |signatures| ==> signatures[i][..KEY_SIZE] != signatures[j][..KEY_SIZE]
    ensures exists i ::
              && 0 <= i < |signatures|
              && signatures[i][..KEY_SIZE] in s.signers && signatures[i][..KEY_SIZE] !in faulty
    ensures var c := Quorum.Collect(s.signers, Entries(signatures));
            && c.Success? && StrictlySorted(c.value.pkeys)
            && multiset(Quorum.Pairs(c.value)) == multiset(Entries(signatures))
            && lib.verify(lib.hash(Be(|report|, 4) + report + reportContext), c.value.sigs, c.value.pkeys)
  {
    CheckedSignatures(lib, s, sender, reportContext, report, signatures);
    var entries := Entries(signatures);
    Quorum.CollectSucceedsIff(s.signers, entries);
    Quorum.CollectSorted(s.signers, entries);
    Quorum.CollectKeepsPairs(s.signers, entries);
    Quorum.QuorumHasHonestSigner(s.signers, entries, s.config.f, faulty);
    forall i, j | 0 <= i < j < |signatures| ensures signatures[i][..KEY_SIZE] != signatures[j][..KEY_SIZE] {
      assert entries[i].key != entries[j].key;
    }
    var i :| 0 <= i < |entries| && entries[i].key in s.signers && entries[i].key !in faulty;
    assert signatures[i][..KEY_SIZE] == entries[i].key;
  }

  lemma CheckedSignatures(lib: Lib, s: State, sender: Addr, reportContext: seq<byte>, report: seq<byte>,
      signatures: seq<seq<byte>>)
    requires CheckTransmit(lib, s, sender, reportContext, report, signatures).Accepted?
    ensures forall i :: 0 <= i < |signatures| ==> |signatures[i]| == SIGNATURE_ENTRY_SIZE
    ensures |signatures| == s.config.f + 1 && |reportContext| == 96 && |report| < TWO_32
    ensures var c := Quorum.Collect(s.signers, Entries(signatures));
            c.Success? && lib.verify(lib.hash(Be(|report|, 4) + report + reportContext), c.value.sigs, c.value.pkeys)
  {
  }

  /** The new round holds the answer the node reads from the same report, and it is within bounds. */
  lemma StoredAnswerIsNodeMedian(
      lib: Lib, env: Env, s: State, sender: Addr, reportContext: seq<byte>, report: seq<byte>,
      signatures: seq<seq<byte>>)
    requires StepTransmit(lib, env, s, sender, reportContext, report, signatures).Success?
    ensures var s' := StepTransmit(lib, env, s, sender, reportContext, report, signatures).value.state;
            var round := s'.config.latestAggregatorRoundId;
            && round == s.config.latestAggregatorRoundId + 1
            && round in s'.transmissions
            && Report.MedianOf(report) == Success(s'.transmissions[round].answer)
            && s.config.minAnswer <= s'.transmissions[round].answer <= s.config.maxAnswer
  {
    Report.NodeReadsStoredAnswer(report);
  }

  /** What a transmission stores and credits, in terms of the decoded report. */
  lemma TransmitReads(
      lib: Lib, env: Env, s: State, sender: Addr, reportContext: seq<byte>, report: seq<byte>,
      signatures: seq<seq<byte>>)
    requires StepTransmit(lib, env, s, sender, reportContext, report, signatures).Success?
    ensures Report.DecodeReport(report).Success?
    ensures var d := Report.DecodeReport(report).value;
            var s' := StepTransmit(lib, env, s, sender, reportContext, report, signatures).value.state;
            var round := s'.config.latestAggregatorRoundId;
            && |d.observations| > 0 && round in s'.transmissions
            && s'.transmissions[round].answer == d.observations[|d.observations| / 2]
            && s'.transmissions[round].observationsTimestamp == d.observationsTimestamp
            && sender in s.transmitters && sender in s'.transmitters
            && CalculateReimbursement(s.config.billing, d.juelsPerFeeCoin, |signatures|).Some?
            && s'.transmitters[sender].payment
               == s.transmitters[sender].payment
                  + TransmitterCredit(s.config.billing,
                      CalculateReimbursement(s.config.billing, d.juelsPerFeeCoin, |signatures|).value)
  {
    assert sender in s.transmitters;
    hide Report.DecodeReport, CalculateReimbursement;
  }

  /** A report without observations is refused by the contract, although its decoder reads it. */
  lemma EmptyReportIsRefused(
      lib: Lib, env: Env, s: State, sender: Addr, reportContext: seq<byte>, report: seq<byte>,
      signatures: seq<seq<byte>>)
    requires Report.DecodeReport(report).Success? && Report.DecodeReport(report).value.observations == []
    ensures StepTransmit(lib, env, s, sender, reportContext, report, signatures).Failure?
  {
    if StepTransmit(lib, env, s, sender, reportContext, report, signatures).Success? {
      TransmitReads(lib, env, s, sender, reportContext, report, signatures);
    }
  }

  /**
   If the transmitted report was built from n >= 2f + 1 observations of which at most f are
   arbitrary, the stored answer and timestamp lie between honest ones. If the honest prices are
   not negative, the sender is reimbursed at a price between honest ones.
   */
  lemma StoredRoundBetweenHonest(
      lib: Lib, env: Env, s: State, sender: Addr, reportContext: seq<byte>, signatures: seq<seq<byte>>,
      input: seq<Report.Observation>, timestamp: uint32, juels: int128, p: seq<Report.Observation>, honest: set<nat>,
      f: nat)
    requires IsMedian(timestamp, input, Report.BY_TIMESTAMP) && IsMedian(juels, input, Report.BY_JUELS)
    requires IsSorting(p, input, Report.BY_VALUE) && Report.Encodable(p, juels)
    requires (forall i :: i in honest ==> i < |input|) && |input| >= 2 * f + 1 && |honest| >= |input| - f
    requires StepTransmit(lib, env, s, sender, reportContext, Report.EncodeReport(timestamp, p, juels),
                          signatures).Success?
    ensures var s' := StepTransmit(lib, env, s, sender, reportContext, Report.EncodeReport(timestamp, p, juels),
                                   signatures).value.state;
            var round := s'.config.latestAggregatorRoundId;
            && round in s'.transmissions
            && Between(s'.transmissions[round].answer, input, Report.BY_VALUE, honest)
            && Between(s'.transmissions[round].observationsTimestamp, input, Report.BY_TIMESTAMP, honest)
            && sender in s.transmitters && sender in s'.transmitters
            && ((forall i :: i in honest ==> input[i].juelsPerFeeCoin >= 0) ==>
                  exists price: uint128 ::
                    && Between(price, input, Report.BY_JUELS, honest)
                    && CalculateReimbursement(s.config.billing, price, |signatures|).Some?
                    && s'.transmitters[sender].payment
                       == s.transmitters[sender].payment
                          + TransmitterCredit(s.config.billing,
                              CalculateReimbursement(s.config.billing, price, |signatures|).value))
  {
    var report := Report.EncodeReport(timestamp, p, juels);
    Report.StoredAnswerBetweenHonest(input, timestamp, juels, p, honest, f);
    TransmitReads(lib, env, s, sender, reportContext, report, signatures);
    hide StepTransmit, Report.EncodeReport, Report.DecodeReport, IsMedian, IsSorting, Report.Encodable, Between;
    hide CalculateReimbursement, TransmitterCredit;
    var price := Report.DecodeReport(report).value.juelsPerFeeCoin;
    assert CalculateReimbursement(s.config.billing, price, |signatures|).Some?;
  }

  /** A negative median price is reimbursed as a price beyond 2^127. */
  lemma NegativePriceIsReimbursed(
      lib: Lib, env: Env, s: State, sender: Addr, reportContext: seq<byte>, signatures: seq<seq<byte>>,
      timestamp: uint32, juels: int128, p: seq<Report.Observation>)
    requires Report.Encodable(p, juels) && juels < 0
    requires StepTransmit(lib, env, s, sender, reportContext, Report.EncodeReport(timestamp, p, juels),
                          signatures).Success?
    ensures var s' := StepTransmit(lib, env, s, sender, reportContext, Report.EncodeReport(timestamp, p, juels),
                                   signatures).value.state;
            var reimbursement := CalculateReimbursement(s.config.billing, juels + TWO_128, |signatures|);
            && juels + TWO_128 >= TWO_127 && reimbursement.Some?
            && sender in s.transmitters && sender in s'.transmitters
            && s'.transmitters[sender].payment
               == s.transmitters[sender].payment + TransmitterCredit(s.config.billing, reimbursement.value)
  {
    Report.PriceReadsBackIff(timestamp, p, juels);
    TransmitReads(lib, env, s, sender, reportContext, Report.EncodeReport(timestamp, p, juels), signatures);
    hide StepTransmit, Report.EncodeReport, Report.DecodeReport, CalculateReimbursement, TransmitterCredit;
  }
}
