/**
 What every message keeps: the invariant of all reachable contract states, and the facts that
 only ever grow (round history, configuration order, frozen proposals).
 */
module AggregatorInvariant {
  import opened Wrappers
  import opened Bytes
  import opened AggregatorSpec
  import opened AggregatorPayouts

  /** Rounds 1..latest are recorded, each with an answer inside the configured bounds. */
  ghost predicate HistoryComplete(s: State) {
    && (forall r: uint32 :: r in s.transmissions <==> 1 <= r <= s.config.latestAggregatorRoundId)
    && (forall r :: r in s.transmissions ==> s.config.minAnswer <= s.transmissions[r].answer <= s.config.maxAnswer)
  }

  ghost predicate OracleSetSized(s: State) {
    && (forall k :: k in s.transmitters ==> k in s.payees)
    && (s.config.configCount == 0 ==> s.transmitters == map[] && s.signers == {})
    && (s.config.configCount > 0 ==>
          && s.config.n == |s.transmitters| == |s.signers|
          && s.config.f >= 1 && 3 * s.config.f < s.config.n <= MAX_ORACLES)
  }

  ghost predicate ProposalSized(p: Proposal) {
    && (p.oracles != [] ==> p.f >= 1 && 3 * p.f < |p.oracles| <= MAX_ORACLES)
    && (forall i :: 0 <= i < |p.oracles| ==> |p.oracles[i].signer| == KEY_SIZE)
    && (p.finalized ==> p.oracles != [] && p.offchainConfig != [])
  }

  ghost predicate ProposalsNumbered(s: State) {
    forall id :: id in s.proposals ==> 1 <= id <= s.nextProposalId && ProposalSized(s.proposals[id])
  }

  ghost predicate Inv(s: State) {
    RoundsInPast(s.config, s.transmitters) && HistoryComplete(s) && OracleSetSized(s) && ProposalsNumbered(s)
  }

  /** Lexicographic order on (config count, epoch, round). */
  predicate OrderLess(a: Config, b: Config) {
    || a.configCount < b.configCount
    || (a.configCount == b.configCount && (a.epoch < b.epoch || (a.epoch == b.epoch && a.round < b.round)))
  }

  predicate SameOrder(a: Config, b: Config) {
    a.configCount == b.configCount && a.epoch == b.epoch && a.round == b.round
      && a.latestConfigDigest == b.latestConfigDigest
  }

  /** No proposal id comes back, and a finalized proposal keeps its content while it exists. */
  ghost predicate ProposalsFrozen(s: State, s': State) {
    && s.nextProposalId <= s'.nextProposalId
    && (forall id :: id in s'.proposals && id !in s.proposals ==> id > s.nextProposalId)
    && (forall id :: id in s.proposals && id in s'.proposals && s.proposals[id].finalized ==>
        s'.proposals[id] == s.proposals[id])
  }

  /** Recorded rounds stay as they are. */
  ghost predicate HistoryKept(s: State, s': State) {
    && s.config.latestAggregatorRoundId <= s'.config.latestAggregatorRoundId
    && (forall r :: r in s.transmissions ==> r in s'.transmissions && s'.transmissions[r] == s.transmissions[r])
  }

  ghost predicate Grows(s: State, s': State) {
    && ProposalsFrozen(s, s') && HistoryKept(s, s')
    && s.owner == s'.owner
    && s.config.minAnswer == s'.config.minAnswer && s.config.maxAnswer == s'.config.maxAnswer
    && (SameOrder(s.config, s'.config) || OrderLess(s.config, s'.config))
  }

  lemma InitialInv(owner: Addr, linkToken: Addr, minAnswer: int128, maxAnswer: int128)
    ensures Inv(InitialState(owner, linkToken, minAnswer, maxAnswer))
  {
  }

  // ---------- proposals ----------

  lemma BeginKeeps(s: State, sender: Addr)
    requires Inv(s) && StepBeginProposal(s, sender).Success?
    ensures var s' := StepBeginProposal(s, sender).value.state; Inv(s') && Grows(s, s')
  {
  }

  lemma ClearKeeps(s: State, sender: Addr, id: uint128)
    requires Inv(s) && StepClearProposal(s, sender, id).Success?
    ensures var s' := StepClearProposal(s, sender, id).value.state; Inv(s') && Grows(s, s')
  {
  }

  lemma FinalizeKeeps(lib: Lib, s: State, sender: Addr, id: uint128)
    requires Inv(s) && StepFinalizeProposal(lib, s, sender, id).Success?
    ensures var s' := StepFinalizeProposal(lib, s, sender, id).value.state; Inv(s') && Grows(s, s')
  {
  }

  lemma ProposeConfigKeeps(s: State, sender: Addr, id: uint128, signers: seq<Key>, transmitters: seq<Addr>,
      payees: seq<Addr>, f: byte, onchainConfig: seq<byte>)
    requires Inv(s) && StepProposeConfig(s, sender, id, signers, transmitters, payees, f, onchainConfig).Success?
    ensures var s' := StepProposeConfig(s, sender, id, signers, transmitters, payees, f, onchainConfig).value.state;
            Inv(s') && Grows(s, s')
  {
    var s' := StepProposeConfig(s, sender, id, signers, transmitters, payees, f, onchainConfig).value.state;
    assert ProposalSized(s'.proposals[id]);
  }

  lemma ProposeOffchainConfigKeeps(s: State, sender: Addr, id: uint128, version: uint64, offchainConfig: seq<byte>)
    requires Inv(s) && StepProposeOffchainConfig(s, sender, id, version, offchainConfig).Success?
    ensures var s' := StepProposeOffchainConfig(s, sender, id, version, offchainConfig).value.state;
            Inv(s') && Grows(s, s')
  {
    var s' := StepProposeOffchainConfig(s, sender, id, version, offchainConfig).value.state;
    assert ProposalSized(s'.proposals[id]);
  }

  /** Installing a sized oracle set under a fresh configuration record. */
  lemma InstallKeeps(s: State, id: uint128, p: Proposal, config: Config, installed: Installed)
    requires Inv(s) && id in s.proposals && p == s.proposals[id] && p.finalized
    requires Install(p.oracles, s.config.latestAggregatorRoundId, s.payees) == Success(installed)
    requires config.f == p.f && config.n == |p.oracles| && config.configCount == s.config.configCount + 1
    requires config.latestAggregatorRoundId == s.config.latestAggregatorRoundId
    requires config.minAnswer == s.config.minAnswer && config.maxAnswer == s.config.maxAnswer
    ensures var s' := s.(config := config, proposals := s.proposals - {id}, transmitters := installed.transmitters,
                         signers := installed.signers, payees := installed.payees);
            Inv(s') && Grows(s, s') && OrderLess(s.config, s'.config)
  {
    InstallMembers(p.oracles, s.config.latestAggregatorRoundId, s.payees);
    InstallPayees(p.oracles, s.config.latestAggregatorRoundId, s.payees);
    assert ProposalSized(p);
  }

  lemma AcceptOutcome(lib: Lib, env: Env, s: State, sender: Addr, id: uint128, digest: seq<byte>)
    requires StepAcceptProposal(lib, env, s, sender, id, digest).Success?
    ensures id in s.proposals && s.proposals[id].finalized && CanCount(env, s.config)
    ensures var p := s.proposals[id];
            var installed := Install(p.oracles, s.config.latestAggregatorRoundId, s.payees);
            && installed.Success?
            && StepAcceptProposal(lib, env, s, sender, id, digest).value.state
               == s.(config := ConfigAfter(lib, env, s.config, p), proposals := s.proposals - {id},
                     transmitters := installed.value.transmitters, signers := installed.value.signers,
                     payees := installed.value.payees)
  {
    hide PayAll, Install, ConfigAfter, SetConfigEvent, DigestOf;
  }

  lemma ConfigAfterFields(lib: Lib, env: Env, config: Config, p: Proposal)
    requires CanCount(env, config) && |p.oracles| <= MAX_ORACLES
    ensures var after := ConfigAfter(lib, env, config, p);
            && after.f == p.f && after.n == |p.oracles| && after.configCount == config.configCount + 1
            && after.latestAggregatorRoundId == config.latestAggregatorRoundId
            && after.minAnswer == config.minAnswer && after.maxAnswer == config.maxAnswer
  {
    hide ConfigDigestOf;
  }

  lemma FinalizedIsSized(s: State, id: uint128)
    requires Inv(s) && id in s.proposals && s.proposals[id].finalized
    ensures s.proposals[id].oracles != [] && |s.proposals[id].oracles| <= MAX_ORACLES
  {
    assert ProposalSized(s.proposals[id]);
  }

  lemma AcceptKeeps(lib: Lib, env: Env, s: State, sender: Addr, id: uint128, digest: seq<byte>)
    requires Inv(s) && StepAcceptProposal(lib, env, s, sender, id, digest).Success?
    ensures var s' := StepAcceptProposal(lib, env, s, sender, id, digest).value.state;
            Inv(s') && Grows(s, s') && OrderLess(s.config, s'.config)
  {
    AcceptOutcome(lib, env, s, sender, id, digest);
    FinalizedIsSized(s, id);
    var p := s.proposals[id];
    ConfigAfterFields(lib, env, s.config, p);
    hide StepAcceptProposal, Inv, Grows, Install, ConfigAfter, OrderLess;
    var installed := Install(p.oracles, s.config.latestAggregatorRoundId, s.payees).value;
    InstallKeeps(s, id, p, ConfigAfter(lib, env, s.config, p), installed);
  }

  // ---------- transmitting ----------

  lemma TransmitOutcome(lib: Lib, env: Env, s: State, sender: Addr, reportContext: seq<byte>, report: seq<byte>,
      signatures: seq<seq<byte>>)
    requires StepTransmit(lib, env, s, sender, reportContext, report, signatures).Success?
    ensures var s' := StepTransmit(lib, env, s, sender, reportContext, report, signatures).value.state;
            var round := s.config.latestAggregatorRoundId + 1;
            && s' == s.(config := s'.config, transmissions := s'.transmissions, transmitters := s'.transmitters)
            && s'.config == s.config.(epoch := s'.config.epoch, round := s'.config.round,
                                      latestAggregatorRoundId := round)
            && OrderLess(s.config, s'.config)
            && round in s'.transmissions && s.config.minAnswer <= s'.transmissions[round].answer <= s.config.maxAnswer
            && (forall r: uint32 :: r != round ==> (r in s'.transmissions <==> r in s.transmissions))
            && (forall r: uint32 :: r != round && r in s.transmissions ==> s'.transmissions[r] == s.transmissions[r])
            && sender in s.transmitters && s'.transmitters.Keys == s.transmitters.Keys
            && (forall k :: k in s.transmitters ==> s'.transmitters[k].fromRoundId == s.transmitters[k].fromRoundId)
            && |reportContext| == REPORT_CONTEXT_SIZE
            && ParseContext(reportContext)
               == ReportContext(s'.config.latestConfigDigest, s'.config.epoch, s'.config.round)
  {
    var s' := StepTransmit(lib, env, s, sender, reportContext, report, signatures).value.state;
    assert s'.transmitters.Keys == s.transmitters.Keys;
  }

  lemma TransmitKeeps(lib: Lib, env: Env, s: State, sender: Addr, reportContext: seq<byte>, report: seq<byte>,
      signatures: seq<seq<byte>>)
    requires Inv(s) && StepTransmit(lib, env, s, sender, reportContext, report, signatures).Success?
    ensures var s' := StepTransmit(lib, env, s, sender, reportContext, report, signatures).value.state;
            && Inv(s') && Grows(s, s') && OrderLess(s.config, s'.config)
            && s'.config.configCount == s.config.configCount > 0
            && |reportContext| == REPORT_CONTEXT_SIZE
            && ParseContext(reportContext)
               == ReportContext(s'.config.latestConfigDigest, s'.config.epoch, s'.config.round)
            && s'.config.latestConfigDigest == s.config.latestConfigDigest
  {
    TransmitOutcome(lib, env, s, sender, reportContext, report, signatures);
    var s' := StepTransmit(lib, env, s, sender, reportContext, report, signatures).value.state;
    hide StepTransmit, ProposalSized, HistoryComplete, HistoryKept, OracleSetSized, RoundsInPast;
    HistoryGrows(s, s');
    OracleSetStays(s, s');
  }

  lemma HistoryGrows(s: State, s': State)
    requires HistoryComplete(s) && RoundsInPast(s.config, s.transmitters)
    requires s'.config.latestAggregatorRoundId == s.config.latestAggregatorRoundId + 1
    requires s'.config.minAnswer == s.config.minAnswer && s'.config.maxAnswer == s.config.maxAnswer
    requires var round := s.config.latestAggregatorRoundId + 1;
             && round in s'.transmissions && s.config.minAnswer <= s'.transmissions[round].answer <= s.config.maxAnswer
             && (forall r: uint32 :: r != round ==> (r in s'.transmissions <==> r in s.transmissions))
             && (forall r: uint32 :: r != round && r in s.transmissions ==> s'.transmissions[r] == s.transmissions[r])
    requires s'.transmitters.Keys == s.transmitters.Keys
    requires forall k :: k in s.transmitters ==> s'.transmitters[k].fromRoundId == s.transmitters[k].fromRoundId
    ensures HistoryComplete(s') && HistoryKept(s, s') && RoundsInPast(s'.config, s'.transmitters)
  {
  }

  lemma OracleSetStays(s: State, s': State)
    requires OracleSetSized(s)
    requires s'.config.configCount == s.config.configCount && s'.config.f == s.config.f && s'.config.n == s.config.n
    requires s'.signers == s.signers && s'.payees == s.payees && s'.transmitters.Keys == s.transmitters.Keys
    ensures OracleSetSized(s')
    ensures s.transmitters != map[] ==> s.config.configCount > 0
  {
    assert |s'.transmitters.Keys| == |s'.transmitters| && |s.transmitters.Keys| == |s.transmitters|;
  }

  // ---------- payments ----------

  lemma PayoutKeeps(s: State, config: Config)
    requires Inv(s) && PayAll(s).Success?
    requires config == s.config.(linkToken := config.linkToken, billing := config.billing)
    ensures var s' := s.(config := config, transmitters := PayAll(s).value.transmitters);
            Inv(s') && Grows(s, s')
  {
    PayAllEffect(s);
    SettledOwesNothing(s);
    var after := PayAll(s).value.transmitters;
    assert |after.Keys| == |after| && |s.transmitters.Keys| == |s.transmitters|;
    assert after.Keys == s.transmitters.Keys;
  }

  lemma WithdrawPaymentKeeps(s: State, sender: Addr, transmitter: Addr)
    requires Inv(s) && StepWithdrawPayment(s, sender, transmitter).Success?
    ensures var s' := StepWithdrawPayment(s, sender, transmitter).value.state; Inv(s') && Grows(s, s')
  {
    var s' := StepWithdrawPayment(s, sender, transmitter).value.state;
    assert s' == s.(transmitters := s'.transmitters) && s'.transmitters.Keys == s.transmitters.Keys;
    assert RoundsInPast(s'.config, s'.transmitters);
    hide StepWithdrawPayment, ProposalSized, OracleSetSized, RoundsInPast;
    OracleSetStays(s, s');
  }

  lemma PayeeStepsKeep(s: State, sender: Addr, transmitter: Addr, proposed: Addr)
    requires Inv(s)
    ensures StepTransferPayeeship(s, sender, transmitter, proposed).Success? ==>
              var s' := StepTransferPayeeship(s, sender, transmitter, proposed).value.state; Inv(s') && Grows(s, s')
    ensures StepAcceptPayeeship(s, sender, transmitter).Success? ==>
              var s' := StepAcceptPayeeship(s, sender, transmitter).value.state; Inv(s') && Grows(s, s')
  {
  }

  lemma GrowsToItself(s: State)
    ensures Grows(s, s)
  {
  }

  /** Every successful message keeps the invariant, and no history is lost. */
  lemma StepKeeps(lib: Lib, env: Env, s: State, sender: Addr, msg: Msg)
    requires Inv(s) && Step(lib, env, s, sender, msg).Success?
    ensures Inv(Step(lib, env, s, sender, msg).value.state)
    ensures Grows(s, Step(lib, env, s, sender, msg).value.state)
  {
    GrowsToItself(s);
    hide Inv, Grows, StepTransmit, StepAcceptProposal, PayAll;
    match msg {
      case BeginProposal => BeginKeeps(s, sender);
      case ClearProposal(id) => ClearKeeps(s, sender, id);
      case FinalizeProposal(id) => FinalizeKeeps(lib, s, sender, id);
      case AcceptProposal(id, digest) => AcceptKeeps(lib, env, s, sender, id, digest);
      case ProposeConfig(id, signers, transmitters, payees, f, onchainConfig) =>
        ProposeConfigKeeps(s, sender, id, signers, transmitters, payees, f, onchainConfig);
      case ProposeOffchainConfig(id, version, offchainConfig) =>
        ProposeOffchainConfigKeeps(s, sender, id, version, offchainConfig);
      case Transmit(reportContext, report, signatures) =>
        TransmitKeeps(lib, env, s, sender, reportContext, report, signatures);
      case SetLinkToken(linkToken, recipient) => SetLinkTokenKeeps(env, s, sender, linkToken, recipient);
      case SetBilling(billing) => PayoutKeeps(s, s.config.(billing := billing));
      case WithdrawPayment(transmitter) => WithdrawPaymentKeeps(s, sender, transmitter);
      case WithdrawFunds(recipient, amount) =>
      case TransferPayeeship(transmitter, proposed) => PayeeStepsKeep(s, sender, transmitter, proposed);
      case AcceptPayeeship(transmitter) => PayeeStepsKeep(s, sender, transmitter, sender);
    }
  }

  lemma SetLinkTokenKeeps(env: Env, s: State, sender: Addr, linkToken: Addr, recipient: Addr)
    requires Inv(s) && StepSetLinkToken(env, s, sender, linkToken, recipient).Success?
    ensures var s' := StepSetLinkToken(env, s, sender, linkToken, recipient).value.state; Inv(s') && Grows(s, s')
  {
    if linkToken != s.config.linkToken {
      PayoutKeeps(s, s.config.(linkToken := linkToken));
    }
  }

  /** Transmissions and accepted proposals move the order strictly forward; nothing else touches it. */
  lemma StepOrder(lib: Lib, env: Env, s: State, sender: Addr, msg: Msg)
    requires Step(lib, env, s, sender, msg).Success?
    ensures var config := Step(lib, env, s, sender, msg).value.state.config;
            if msg.Transmit? || msg.AcceptProposal? then OrderLess(s.config, config) else SameOrder(s.config, config)
  {
  }

  /** Only an accepted proposal changes the configuration count or the digest. */
  lemma StepDigest(lib: Lib, env: Env, s: State, sender: Addr, msg: Msg)
    requires Step(lib, env, s, sender, msg).Success? && !msg.AcceptProposal?
    ensures var config := Step(lib, env, s, sender, msg).value.state.config;
            config.configCount == s.config.configCount && config.latestConfigDigest == s.config.latestConfigDigest
  {
    if !msg.Transmit? {
      StepOrder(lib, env, s, sender, msg);
    }
  }
}
