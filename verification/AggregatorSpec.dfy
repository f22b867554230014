/**
 What each message does to the aggregator contract: storage as a value, and one function per
 message from a state to the next state and response, or to the error that reverts it.
 */
module AggregatorSpec {
  import opened Wrappers
  import opened Bytes
  import opened Seqs
  import opened Digest
  import opened Reimbursement
  import ConfigEvent
  import Quorum
  import Report

  type Addr = seq<byte>
  type Key = seq<byte>

  const GIGA: nat := 1_000_000_000
  const MAX_ORACLES: nat := 31
  const REPORT_CONTEXT_SIZE: nat := 96
  const KEY_SIZE: nat := 32
  const SIGNATURE_ENTRY_SIZE: nat := 96

  datatype Config = Config(
    linkToken: Addr,
    minAnswer: int128,
    maxAnswer: int128,
    f: byte,
    n: byte,
    configCount: uint32,
    latestConfigDigest: Hash32,
    latestConfigBlockNumber: uint64,
    latestAggregatorRoundId: uint32,
    epoch: uint32,
    round: byte,
    billing: Billing)

  datatype Proposal = Proposal(
    owner: Addr,
    finalized: bool,
    oracles: seq<Oracle>,
    f: byte,
    offchainConfigVersion: uint64,
    offchainConfig: seq<byte>)

  datatype Transmitter = Transmitter(payment: uint128, fromRoundId: uint32)

  datatype Transmission = Transmission(answer: int128, observationsTimestamp: uint32, transmissionTimestamp: uint32)

  /** The contract's storage. */
  datatype State = State(
    owner: Addr,
    config: Config,
    proposals: map<uint128, Proposal>,
    nextProposalId: uint128,
    transmitters: map<Addr, Transmitter>,
    signers: set<Key>,
    transmissions: map<uint32, Transmission>,
    payees: map<Addr, Addr>,
    proposedPayees: map<Addr, Addr>)

  datatype Msg =
    | BeginProposal
    | ClearProposal(id: uint128)
    | FinalizeProposal(id: uint128)
    | AcceptProposal(id: uint128, digest: seq<byte>)
    | ProposeConfig(id: uint128, newSigners: seq<Key>, newTransmitters: seq<Addr>, newPayees: seq<Addr>, f: byte,
                    onchainConfig: seq<byte>)
    | ProposeOffchainConfig(id: uint128, version: uint64, offchainConfig: seq<byte>)
    | Transmit(reportContext: seq<byte>, report: seq<byte>, signatures: seq<seq<byte>>)
    | SetLinkToken(linkToken: Addr, recipient: Addr)
    | SetBilling(billing: Billing)
    | WithdrawPayment(transmitter: Addr)
    | WithdrawFunds(recipient: Addr, amount: uint128)
    | TransferPayeeship(transmitter: Addr, proposed: Addr)
    | AcceptPayeeship(transmitter: Addr)

  datatype Error =
    | Unauthorized | TooManySigners | StaleReport | DigestMismatch | WrongNumberOfSignatures | RepeatedAddress
    | InvalidSignature | InvalidInput | MedianOutOfRange | TransferToSelf | NotFound
    | Aborted  // checked arithmetic or a failed unwrap

  /** A token transfer queued by a step. forOracle says on whose behalf a payout is made. */
  datatype Transfer = Transfer(token: Addr, recipient: Addr, amount: uint128, forOracle: Option<Addr>)

  datatype Response = Response(transfers: seq<Transfer>, attributes: seq<ConfigEvent.Attribute>)

  datatype Outcome = Outcome(state: State, response: Response)

  /**
   The surroundings of one call: the block, the answer of the billing access controller, the
   contract's balance of the current LINK token, and whether a new token answers a balance query.
   */
  datatype Env = Env(
    chainId: seq<byte>,
    self: Addr,
    blockHeight: uint64,
    timeSeconds: uint64,
    hasAccess: bool,
    balance: uint128,
    newTokenAnswers: bool)

  /** Library functions the contract calls. */
  datatype Lib = Lib(hash: Hash, verify: (Hash32, seq<seq<byte>>, seq<seq<byte>>) -> bool, base64: ConfigEvent.Base64)

  const NOTHING: Response := Response([], [])

  function InitialState(owner: Addr, linkToken: Addr, minAnswer: int128, maxAnswer: int128): State {
    State(owner,
          Config(linkToken, minAnswer, maxAnswer, 0, 0, 0, seq(32, _ => 0), 0, 0, 0, 0,
                 Billing(0, 0, 0, None, None, None)),
          map[], 0, map[], {}, map[], map[], map[])
  }

  // ---------- proposals ----------

  function StepBeginProposal(s: State, sender: Addr): Result<Outcome, Error> {
    if s.nextProposalId + 1 >= TWO_128 then Failure(Aborted)
    else
      var id := s.nextProposalId + 1;
      Success(Outcome(
        s.(nextProposalId := id, proposals := s.proposals[id := Proposal(sender, false, [], 0, 0, [])]),
        Response([], [ConfigEvent.Attribute("proposal_id", DecimalDigits(id))])))
  }

  predicate MayEdit(s: State, sender: Addr, id: uint128) {
    id in s.proposals && (sender == s.owner || sender == s.proposals[id].owner)
  }

  function EditError(s: State, id: uint128): Error {
    if id in s.proposals then Unauthorized else NotFound
  }

  function StepClearProposal(s: State, sender: Addr, id: uint128): Result<Outcome, Error> {
    if !MayEdit(s, sender, id) then Failure(EditError(s, id))
    else Success(Outcome(s.(proposals := s.proposals - {id}), NOTHING))
  }

  function DigestOf(lib: Lib, p: Proposal): Hash32 {
    lib.hash(ProposalPreimage(p.oracles, p.f, p.offchainConfigVersion, p.offchainConfig))
  }

  function StepFinalizeProposal(lib: Lib, s: State, sender: Addr, id: uint128): Result<Outcome, Error> {
    if !MayEdit(s, sender, id) then Failure(EditError(s, id))
    else
      var p := s.proposals[id];
      if p.finalized || p.offchainConfig == [] || p.oracles == [] then Failure(InvalidInput)
      else
        Success(Outcome(
          s.(proposals := s.proposals[id := p.(finalized := true)]),
          Response([], [ConfigEvent.Attribute("proposal_id", DecimalDigits(id)),
                        ConfigEvent.Attribute("digest", HexEncode(DigestOf(lib, p)))])))
  }

  function Zip(signers: seq<Key>, transmitters: seq<Addr>, payees: seq<Addr>): (oracles: seq<Oracle>)
    requires |signers| == |transmitters| == |payees|
    ensures |oracles| == |signers|
  {
    seq(|signers|, i requires 0 <= i < |signers| => Oracle(signers[i], transmitters[i], payees[i]))
  }

  function StepProposeConfig(
      s: State, sender: Addr, id: uint128, signers: seq<Key>, transmitters: seq<Addr>, payees: seq<Addr>,
      f: byte, onchainConfig: seq<byte>): Result<Outcome, Error> {
    if exists i :: 0 <= i < |signers| && |signers[i]| != KEY_SIZE then Failure(InvalidInput)
    else if !MayEdit(s, sender, id) then Failure(EditError(s, id))
    else if f == 0 then Failure(InvalidInput)
    else if |signers| > MAX_ORACLES then Failure(TooManySigners)
    else if |transmitters| != |signers| || |payees| != |signers| || 3 * f >= |signers| || onchainConfig != [] then
      Failure(InvalidInput)
    else if s.proposals[id].finalized then Failure(InvalidInput)
    else
      Success(Outcome(
        s.(proposals := s.proposals[id := s.proposals[id].(f := f, oracles := Zip(signers, transmitters, payees))]),
        NOTHING))
  }

  function StepProposeOffchainConfig(s: State, sender: Addr, id: uint128, version: uint64,
      offchainConfig: seq<byte>): Result<Outcome, Error>
  {
    if !MayEdit(s, sender, id) then Failure(EditError(s, id))
    else if offchainConfig == [] || s.proposals[id].finalized then Failure(InvalidInput)
    else
      Success(Outcome(
        s.(proposals := s.proposals[id := s.proposals[id].(offchainConfigVersion := version,
                                                           offchainConfig := offchainConfig)]),
        NOTHING))
  }

  // ---------- payouts ----------

  function PerRound(b: Billing): nat {
    b.observationPaymentGjuels * GIGA
  }

  lemma NonNegative(a: nat, b: nat)
    ensures a * b >= 0
  {
  }

  function Owed(config: Config, t: Transmitter): nat
    requires t.fromRoundId <= config.latestAggregatorRoundId
  {
    NonNegative(PerRound(config.billing), config.latestAggregatorRoundId - t.fromRoundId);
    PerRound(config.billing) * (config.latestAggregatorRoundId - t.fromRoundId) + t.payment
  }

  function OwedPayment(config: Config, t: Transmitter): Result<uint128, Error> {
    if t.fromRoundId > config.latestAggregatorRoundId then Failure(Aborted)
    else if Owed(config, t) >= TWO_128 then Failure(Aborted)
    else Success(Owed(config, t))
  }

  datatype Payout = Payout(total: uint128, transmitters: map<Addr, Transmitter>, transfers: seq<Transfer>)

  /** Pays the given transmitters in order; those owed nothing are skipped untouched. */
  function PayOut(config: Config, ts: map<Addr, Transmitter>, payees: map<Addr, Addr>, keys: seq<Addr>): Result<Payout,
      Error>
    requires forall k :: k in keys ==> k in ts
  {
    if |keys| == 0 then Success(Payout(0, ts, []))
    else
      var done :- PayOut(config, ts, payees, keys[..|keys| - 1]);
      PayOne(config, ts, payees, done, keys[|keys| - 1])
  }

  function PayOne(config: Config, ts: map<Addr, Transmitter>, payees: map<Addr, Addr>, done: Payout,
      key: Addr): Result<Payout, Error>
    requires key in ts
  {
    var amount :- OwedPayment(config, ts[key]);
    if amount == 0 then Success(done)
    else if key !in payees then Failure(NotFound)
    else if done.total + amount >= TWO_128 then Failure(Aborted)
    else
      Success(Payout(
        done.total + amount,
        done.transmitters[key := Transmitter(0, config.latestAggregatorRoundId)],
        done.transfers + [Transfer(config.linkToken, payees[key], amount, Some(key))]))
  }

  ghost function PayAll(s: State): Result<Payout, Error> {
    PayOut(s.config, s.transmitters, s.payees, SortedKeys(s.transmitters.Keys))
  }

  // ---------- accepting a proposal ----------

  datatype Installed = Installed(signers: set<Key>, transmitters: map<Addr, Transmitter>, payees: map<Addr, Addr>)

  function Install(oracles: seq<Oracle>, fromRoundId: uint32, payees: map<Addr, Addr>): Result<Installed, Error> {
    if |oracles| == 0 then Success(Installed({}, map[], payees))
    else
      var done :- Install(oracles[..|oracles| - 1], fromRoundId, payees);
      var o := oracles[|oracles| - 1];
      if o.signer in done.signers || o.transmitter in done.transmitters then Failure(RepeatedAddress)
      else
        Success(Installed(
          done.signers + {o.signer},
          done.transmitters[o.transmitter := Transmitter(0, fromRoundId)],
          done.payees[o.transmitter := o.payee]))
  }

  function ConfigDigestOf(lib: Lib, env: Env, config: Config, configCount: uint32, p: Proposal): Hash32 {
    Mask(lib.hash(ConfigPreimage(env.chainId, env.self, configCount, Signers(p.oracles), Transmitters(p.oracles), p.f,
                                 OnchainConfig(config.minAnswer, config.maxAnswer), p.offchainConfigVersion,
                                 p.offchainConfig)))
  }

  predicate CanCount(env: Env, config: Config) {
    config.configCount + 1 < TWO_32 && |env.chainId| < TWO_8
  }

  /** The configuration record once p is in force. */
  function ConfigAfter(lib: Lib, env: Env, config: Config, p: Proposal): Config
    requires CanCount(env, config)
  {
    var count := config.configCount + 1;
    config.(f := p.f, n := |p.oracles| % TWO_8, configCount := count,
            latestConfigDigest := ConfigDigestOf(lib, env, config, count, p),
            latestConfigBlockNumber := env.blockHeight, epoch := 0, round := 0)
  }

  function SetConfigEvent(lib: Lib, before: Config, after: Config, p: Proposal): seq<ConfigEvent.Attribute> {
    ConfigEvent.SetConfigAttributes(
      lib.base64, before.latestConfigBlockNumber, after.latestConfigDigest, after.configCount, p.oracles, p.f,
      OnchainConfig(before.minAnswer, before.maxAnswer), p.offchainConfigVersion, p.offchainConfig)
  }

  predicate Acceptable(lib: Lib, s: State, id: uint128, digest: seq<byte>) {
    id in s.proposals && s.proposals[id].finalized && DigestOf(lib, s.proposals[id]) == digest
  }

  ghost function StepAcceptProposal(lib: Lib, env: Env, s: State, sender: Addr, id: uint128,
      digest: seq<byte>): Result<Outcome, Error>
  {
    if |digest| != 32 then Failure(InvalidInput)
    else if sender != s.owner then Failure(Unauthorized)
    else if id !in s.proposals then Failure(NotFound)
    else if !Acceptable(lib, s, id, digest) then Failure(InvalidInput)
    else
      var p := s.proposals[id];
      var payout :- PayAll(s);
      var installed :- Install(p.oracles, s.config.latestAggregatorRoundId, s.payees);
      if !CanCount(env, s.config) then Failure(Aborted)
      else
        var config := ConfigAfter(lib, env, s.config, p);
        Success(Outcome(
          s.(config := config, proposals := s.proposals - {id}, transmitters := installed.transmitters,
             signers := installed.signers, payees := installed.payees),
          Response(payout.transfers, SetConfigEvent(lib, s.config, config, p))))
  }

  // ---------- transmitting ----------

  datatype ReportContext = ReportContext(configDigest: Hash32, epoch: uint32, round: byte)

  function ParseContext(raw: seq<byte>): ReportContext
    requires |raw| == REPORT_CONTEXT_SIZE
  {
    ReportContext(raw[..32], U32FromBe(raw[59..63]), raw[63])
  }

  predicate Newer(config: Config, ctx: ReportContext) {
    config.epoch < ctx.epoch || (config.epoch == ctx.epoch && config.round < ctx.round)
  }

  function Entries(signatures: seq<seq<byte>>): (entries: seq<Quorum.Entry>)
    requires forall i :: 0 <= i < |signatures| ==> |signatures[i]| == SIGNATURE_ENTRY_SIZE
    ensures |entries| == |signatures|
  {
    seq(|signatures|, i requires 0 <= i < |signatures| =>
      Quorum.Entry(signatures[i][..KEY_SIZE], signatures[i][KEY_SIZE..]))
  }

  function SignedHash(lib: Lib, report: seq<byte>, reportContext: seq<byte>): Hash32 {
    lib.hash(Be(|report|, 4) + report + reportContext)
  }

  datatype Verdict = Accepted | Rejected(error: Error)

  /** Everything checked before the report itself is read. */
  function CheckTransmit(lib: Lib, s: State, sender: Addr, reportContext: seq<byte>, report: seq<byte>,
      signatures: seq<seq<byte>>): Verdict
  {
    if exists i :: 0 <= i < |signatures| && |signatures[i]| != SIGNATURE_ENTRY_SIZE then Rejected(InvalidInput)
    else if |reportContext| != REPORT_CONTEXT_SIZE then Rejected(InvalidInput)
    else
      var ctx := ParseContext(reportContext);
      if !Newer(s.config, ctx) then Rejected(StaleReport)
      else if sender !in s.transmitters then Rejected(Unauthorized)
      else if s.config.latestConfigDigest != ctx.configDigest then Rejected(DigestMismatch)
      else if |signatures| != s.config.f + 1 then Rejected(WrongNumberOfSignatures)
      else if |report| >= TWO_32 then Rejected(InvalidInput)
      else
        match Quorum.Collect(s.signers, Entries(signatures))
        case Failure(NotASigner) => Rejected(Unauthorized)
        case Failure(RepeatedSigner) => Rejected(RepeatedAddress)
        case Success(collected) =>
          if lib.verify(SignedHash(lib, report, reportContext), collected.sigs, collected.pkeys) then Accepted
          else Rejected(InvalidSignature)
  }

  datatype Recorded = Recorded(config: Config, transmission: Transmission, reimbursement: uint128)

  /** Reads the report and opens the next aggregator round with its median. */
  function Record(config: Config, env: Env, ctx: ReportContext, raw: seq<byte>, signatureCount: nat): Result<Recorded,
      Error>
  {
    match Report.DecodeReport(raw)
    case Failure(_) => Failure(InvalidInput)
    case Success(report) =>
      var n := |report.observations|;
      if n > MAX_ORACLES || config.f >= n then Failure(InvalidInput)
      else
        var median := report.observations[n / 2];
        if !(config.minAnswer <= median <= config.maxAnswer) then Failure(MedianOutOfRange)
        else if config.latestAggregatorRoundId + 1 >= TWO_32 then Failure(Aborted)
        else
          match CalculateReimbursement(config.billing, report.juelsPerFeeCoin, signatureCount)
          case None => Failure(Aborted)
          case Some(reimbursement) =>
            Success(Recorded(
              config.(epoch := ctx.epoch, round := ctx.round,
                      latestAggregatorRoundId := config.latestAggregatorRoundId + 1),
              Transmission(median, report.observationsTimestamp, env.timeSeconds % TWO_32),
              reimbursement))
  }

  function TransmitterCredit(b: Billing, reimbursement: uint128): nat {
    b.transmissionPaymentGjuels * GIGA + reimbursement
  }

  function StepTransmit(lib: Lib, env: Env, s: State, sender: Addr, reportContext: seq<byte>, report: seq<byte>,
      signatures: seq<seq<byte>>): Result<Outcome, Error>
  {
    match CheckTransmit(lib, s, sender, reportContext, report, signatures)
    case Rejected(e) => Failure(e)
    case Accepted =>
      var recorded :- Record(s.config, env, ParseContext(reportContext), report, |signatures|);
      var amount := TransmitterCredit(s.config.billing, recorded.reimbursement);
      var t := s.transmitters[sender];
      if amount >= TWO_128 || t.payment + amount >= TWO_128 then Failure(Aborted)
      else
        Success(Outcome(
          s.(config := recorded.config,
             transmissions := s.transmissions[recorded.config.latestAggregatorRoundId := recorded.transmission],
             transmitters := s.transmitters[sender := t.(payment := t.payment + amount)]),
          NOTHING))
  }

  // ---------- token and billing ----------

  ghost function StepSetLinkToken(env: Env, s: State, sender: Addr, linkToken: Addr, recipient: Addr): Result<Outcome,
      Error>
  {
    if sender != s.owner then Failure(Unauthorized)
    else if linkToken == s.config.linkToken then Success(Outcome(s, NOTHING))
    else if !env.newTokenAnswers then Failure(NotFound)
    else
      var payout :- PayAll(s);
      var remaining := if env.balance > payout.total then env.balance - payout.total else 0;
      Success(Outcome(
        s.(config := s.config.(linkToken := linkToken), transmitters := payout.transmitters),
        Response(payout.transfers + [Transfer(s.config.linkToken, recipient, remaining, None)], [])))
  }

  ghost function StepSetBilling(env: Env, s: State, sender: Addr, billing: Billing): Result<Outcome, Error> {
    if sender != s.owner && !env.hasAccess then Failure(Unauthorized)
    else
      var payout :- PayAll(s);
      Success(Outcome(
        s.(config := s.config.(billing := billing), transmitters := payout.transmitters),
        Response(payout.transfers, [])))
  }

  function StepWithdrawPayment(s: State, sender: Addr, transmitter: Addr): Result<Outcome, Error> {
    if transmitter !in s.payees || s.payees[transmitter] != sender then Failure(Unauthorized)
    else if transmitter !in s.transmitters then Failure(NotFound)
    else
      var amount :- OwedPayment(s.config, s.transmitters[transmitter]);
      if amount == 0 then Success(Outcome(s, NOTHING))
      else
        Success(Outcome(
          s.(transmitters := s.transmitters[transmitter := Transmitter(0, s.config.latestAggregatorRoundId)]),
          Response([Transfer(s.config.linkToken, sender, amount, Some(transmitter))], [])))
  }

  /** One pass over the transmitters, summing rounds and reimbursements separately. */
  function SumRounds(config: Config, ts: map<Addr, Transmitter>, keys: seq<Addr>): Result<(uint128, uint128), Error>
    requires forall k :: k in keys ==> k in ts
  {
    if |keys| == 0 then Success((0, 0))
    else
      var sums :- SumRounds(config, ts, keys[..|keys| - 1]);
      var t := ts[keys[|keys| - 1]];
      if t.fromRoundId > config.latestAggregatorRoundId then Failure(Aborted)
      else
        var rounds := config.latestAggregatorRoundId - t.fromRoundId + sums.0;
        var reimbursements := sums.1 + t.payment;
        if rounds >= TWO_128 || reimbursements >= TWO_128 then Failure(Aborted)
        else Success((rounds, reimbursements))
  }

  ghost function TotalLinkDue(s: State): Result<uint128, Error> {
    var sums :- SumRounds(s.config, s.transmitters, SortedKeys(s.transmitters.Keys));
    LinkDueFrom(s.config, sums)
  }

  function LinkDueFrom(config: Config, sums: (uint128, uint128)): Result<uint128, Error> {
    var product := PerRound(config.billing) * sums.0;
    if product >= TWO_128 || product + sums.1 >= TWO_128 then Failure(Aborted)
    else Success(product + sums.1)
  }

  ghost function StepWithdrawFunds(env: Env, s: State, sender: Addr, recipient: Addr, amount: uint128): Result<Outcome,
      Error>
  {
    if sender != s.owner && !env.hasAccess then Failure(Unauthorized)
    else
      var due :- TotalLinkDue(s);
      var available := if env.balance > due then env.balance - due else 0;
      var taken := if amount < available then amount else available;
      Success(Outcome(s, Response([Transfer(s.config.linkToken, recipient, taken, None)], [])))
  }

  // ---------- payees ----------

  function StepTransferPayeeship(s: State, sender: Addr, transmitter: Addr, proposed: Addr): Result<Outcome, Error> {
    if sender == proposed then Failure(TransferToSelf)
    else if transmitter !in s.payees || s.payees[transmitter] != sender then Failure(Unauthorized)
    else Success(Outcome(s.(proposedPayees := s.proposedPayees[transmitter := proposed]), NOTHING))
  }

  function StepAcceptPayeeship(s: State, sender: Addr, transmitter: Addr): Result<Outcome, Error> {
    if transmitter !in s.proposedPayees then Failure(NotFound)
    else if s.proposedPayees[transmitter] != sender then Failure(Unauthorized)
    else
      Success(Outcome(
        s.(payees := s.payees[transmitter := sender], proposedPayees := s.proposedPayees - {transmitter}),
        NOTHING))
  }

  // ---------- all messages ----------

  ghost function Step(lib: Lib, env: Env, s: State, sender: Addr, msg: Msg): Result<Outcome, Error> {
    match msg
    case BeginProposal => StepBeginProposal(s, sender)
    case ClearProposal(id) => StepClearProposal(s, sender, id)
    case FinalizeProposal(id) => StepFinalizeProposal(lib, s, sender, id)
    case AcceptProposal(id, digest) => StepAcceptProposal(lib, env, s, sender, id, digest)
    case ProposeConfig(id, signers, transmitters, payees, f, onchainConfig) =>
      StepProposeConfig(s, sender, id, signers, transmitters, payees, f, onchainConfig)
    case ProposeOffchainConfig(id, version, offchainConfig) =>
      StepProposeOffchainConfig(s, sender, id, version, offchainConfig)
    case Transmit(reportContext, report, signatures) =>
      StepTransmit(lib, env, s, sender, reportContext, report, signatures)
    case SetLinkToken(linkToken, recipient) => StepSetLinkToken(env, s, sender, linkToken, recipient)
    case SetBilling(billing) => StepSetBilling(env, s, sender, billing)
    case WithdrawPayment(transmitter) => StepWithdrawPayment(s, sender, transmitter)
    case WithdrawFunds(recipient, amount) => StepWithdrawFunds(env, s, sender, recipient, amount)
    case TransferPayeeship(transmitter, proposed) => StepTransferPayeeship(s, sender, transmitter, proposed)
    case AcceptPayeeship(transmitter) => StepAcceptPayeeship(s, sender, transmitter)
  }
}
