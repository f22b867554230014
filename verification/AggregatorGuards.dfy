/**
 Who may send which message, and when exactly a message goes through: tables that name the
 caller and the conditions of each message, and the proof that the contract keeps to them in
 every state it can reach.
 */
module AggregatorGuards {
  import opened Wrappers
  import opened Bytes
  import opened Seqs
  import opened Runs
  import opened Digest
  import opened Reimbursement
  import opened AggregatorSpec
  import opened AggregatorPayouts
  import opened AggregatorInvariant
  import opened AggregatorRuns
  import opened AggregatorAccounting
  import opened AggregatorSolvency
  import opened AggregatorNode
  import ConfigEvent
  import Quorum
  import Report

  // ---------- who may call ----------

  /** The callers of each message. */
  predicate MayCall(s: State, hasAccess: bool, sender: Addr, msg: Msg) {
    match msg
    case BeginProposal => true
    case ClearProposal(id) => OwnsProposal(s, sender, id)
    case FinalizeProposal(id) => OwnsProposal(s, sender, id)
    case ProposeConfig(id, _, _, _, _, _) => OwnsProposal(s, sender, id)
    case ProposeOffchainConfig(id, _, _) => OwnsProposal(s, sender, id)
    case AcceptProposal(_, _) => sender == s.owner
    case SetLinkToken(_, _) => sender == s.owner
    case SetBilling(_) => sender == s.owner || hasAccess
    case WithdrawFunds(_, _) => sender == s.owner || hasAccess
    case WithdrawPayment(transmitter) => IsPayee(s, sender, transmitter)
    case TransferPayeeship(transmitter, _) => IsPayee(s, sender, transmitter)
    case AcceptPayeeship(transmitter) => transmitter in s.proposedPayees && s.proposedPayees[transmitter] == sender
    case Transmit(_, _, _) => sender in s.transmitters
  }

  predicate OwnsProposal(s: State, sender: Addr, id: uint128) {
    id in s.proposals && (sender == s.owner || sender == s.proposals[id].owner)
  }

  predicate IsPayee(s: State, sender: Addr, transmitter: Addr) {
    transmitter in s.payees && s.payees[transmitter] == sender
  }

  /** Any other sender fails. */
  lemma OnlyCallersSucceed(lib: Lib, env: Env, s: State, sender: Addr, msg: Msg)
    requires Step(lib, env, s, sender, msg).Success?
    ensures MayCall(s, env.hasAccess, sender, msg)
  {
    match msg {
      case Transmit(reportContext, report, signatures) =>
        hide Record;
      case _ =>
        hide StepTransmit, PayAll, TotalLinkDue, Install, OwedPayment, ConfigAfter, SetConfigEvent, DigestOf;
    }
  }

  /** Over runs: at every point, a message of anyone else leaves state and balances as they are. */
  lemma OthersChangeNothing(lib: Lib, self: Addr, w: World, acts: seq<Act>, i: nat)
    requires i < |acts| && acts[i].Call?
    requires !MayCall(At(Machine(lib, self), w, acts, i).state, acts[i].hasAccess, acts[i].sender, acts[i].msg)
    ensures At(Machine(lib, self), w, acts, i + 1) == At(Machine(lib, self), w, acts, i)
  {
    var before := At(Machine(lib, self), w, acts, i);
    AtNext(Machine(lib, self), w, acts, i);
    if Committed(lib, self, before, acts[i]).Some? {
      CommittedOutcome(lib, self, before, acts[i]);
      hide Committed, Step, MayCall;
      OnlyCallersSucceed(lib, EnvOf(self, before, acts[i]), before.state, acts[i].sender, acts[i].msg);
    }
  }

  /**
   Over runs: the contract's balance of a token falls only by a message whose caller may send it,
   and by more than payouts to payees only if the owner, or someone the billing access controller
   lets in, withdraws funds or the owner changes the token.
   */
  lemma BalanceFallsByAuthority(lib: Lib, self: Addr, w: World, acts: seq<Act>, i: nat, token: Addr)
    requires Fresh(w) && i < |acts|
    ensures var before, after := At(Machine(lib, self), w, acts, i), At(Machine(lib, self), w, acts, i + 1);
            Balance(after.tokens, token, self) < Balance(before.tokens, token, self) ==>
              && acts[i].Call?
              && MayCall(before.state, acts[i].hasAccess, acts[i].sender, acts[i].msg)
              && ToPayees(TransfersOf(lib, self, before, acts[i]), before.state.payees)
              && (SumWhere(TransfersOf(lib, self, before, acts[i]), IsWithdrawal(self)) > 0 ==>
                    || acts[i].sender == before.state.owner
                    || (acts[i].hasAccess && acts[i].msg.WithdrawFunds?))
  {
    ReachableInv(lib, self, w, acts[..i]);
    AtNext(Machine(lib, self), w, acts, i);
    var before, after := At(Machine(lib, self), w, acts, i), At(Machine(lib, self), w, acts, i + 1);
    hide Balance, Next, Inv, MayCall;
    if Balance(after.tokens, token, self) < Balance(before.tokens, token, self) {
      FallByAuthority(lib, self, before, acts[i], token);
    }
  }

  lemma FallByAuthority(lib: Lib, self: Addr, w: World, act: Act, token: Addr)
    requires Inv(w.state)
    requires Balance(Next(lib, self, w, act).tokens, token, self) < Balance(w.tokens, token, self)
    ensures act.Call? && MayCall(w.state, act.hasAccess, act.sender, act.msg)
    ensures ToPayees(TransfersOf(lib, self, w, act), w.state.payees)
    ensures SumWhere(TransfersOf(lib, self, w, act), IsWithdrawal(self)) > 0 ==>
              act.sender == w.state.owner || (act.hasAccess && act.msg.WithdrawFunds?)
  {
    StepConserves(lib, self, token, w, act);
    assert act.Call? && Committed(lib, self, w, act).Some? by {
      hide Step, MoveTokens, Balance, RunTransfers;
    }
    CommittedOutcome(lib, self, w, act);
    PaymentIsPaidFor(lib, self, w, act, act.sender);
    var env := EnvOf(self, w, act);
    hide Committed, Step, MayCall, Inv, Balance;
    OnlyCallersSucceed(lib, env, w.state, act.sender, act.msg);
    if !act.msg.WithdrawFunds? && !act.msg.SetLinkToken? {
      OnlyPayouts(lib, env, w.state, act.sender, act.msg);
      SumWhereNone(TransfersOf(lib, self, w, act), IsWithdrawal(self));
    } else {
      CallersOfWithdrawals(w.state, act.hasAccess, act.sender, act.msg);
    }
  }

  lemma CallersOfWithdrawals(s: State, hasAccess: bool, sender: Addr, msg: Msg)
    requires MayCall(s, hasAccess, sender, msg) && (msg.WithdrawFunds? || msg.SetLinkToken?)
    ensures sender == s.owner || (hasAccess && msg.WithdrawFunds?)
  {
  }

  // ---------- what is signed ----------

  /** The bytes whose hash the oracles sign: length, report and context. */
  function SignedBytes(report: seq<byte>, reportContext: seq<byte>): seq<byte> {
    Be(|report|, 4) + report + reportContext
  }

  /** No two pairs of report and context are signed by the same bytes. */
  lemma SignedBytesUnambiguous(report: seq<byte>, context: seq<byte>, report': seq<byte>, context': seq<byte>)
    requires |context| == |context'| == 96 && |report| < TWO_32 && |report'| < TWO_32
    requires SignedBytes(report, context) == SignedBytes(report', context')
    ensures report == report' && context == context'
  {
    assert SignedBytes(report, context) == Be(|report|, 4) + (report + context);
    assert SignedBytes(report', context') == Be(|report'|, 4) + (report' + context');
    SplitEqual(Be(|report|, 4), report + context, Be(|report'|, 4), report' + context');
    Pow256Values();
    BeInjective(|report|, |report'|, 4);
    SplitEqual(report, context, report', context');
  }

  /** The signatures of a transmission, in ascending order of their keys, are valid for hash and keys. */
  ghost predicate SignedFor(lib: Lib, hash: Hash32, signatures: seq<seq<byte>>)
    requires forall i :: 0 <= i < |signatures| ==> |signatures[i]| == SIGNATURE_ENTRY_SIZE
  {
    exists c: Quorum.Collected ::
      && |c.pkeys| == |c.sigs| && StrictlySorted(c.pkeys)
      && multiset(Quorum.Pairs(c)) == multiset(Entries(signatures))
      && lib.verify(hash, c.sigs, c.pkeys)
  }

  /** An accepted transmission is signed over length, report and context. */
  lemma TransmissionIsSigned(
      lib: Lib, env: Env, s: State, sender: Addr, reportContext: seq<byte>, report: seq<byte>,
      signatures: seq<seq<byte>>)
    requires StepTransmit(lib, env, s, sender, reportContext, report, signatures).Success?
    ensures |reportContext| == 96 && |report| < TWO_32
    ensures forall i :: 0 <= i < |signatures| ==> |signatures[i]| == 96
    ensures SignedFor(lib, lib.hash(Be(|report|, 4) + report + reportContext), signatures)
  {
    assert CheckTransmit(lib, s, sender, reportContext, report, signatures).Accepted?;
    hide StepTransmit;
    CheckedSignatures(lib, s, sender, reportContext, report, signatures);
    hide CheckTransmit, Be;
    var entries := Entries(signatures);
    Quorum.CollectSorted(s.signers, entries);
    Quorum.CollectKeepsPairs(s.signers, entries);
    var c := Quorum.Collect(s.signers, entries).value;
    assert lib.verify(lib.hash(Be(|report|, 4) + report + reportContext), c.sigs, c.pkeys);
  }

  /** Signatures that are valid for one hash only serve one report in one context, unless the hash collides. */
  lemma SignaturesBindContext(
      lib: Lib, env: Env, s: State, sender: Addr, context: seq<byte>, report: seq<byte>,
      env': Env, s': State, sender': Addr, context': seq<byte>, report': seq<byte>, signatures: seq<seq<byte>>)
    requires StepTransmit(lib, env, s, sender, context, report, signatures).Success?
    requires StepTransmit(lib, env', s', sender', context', report', signatures).Success?
    requires forall i :: 0 <= i < |signatures| ==> |signatures[i]| == 96
    requires forall h: Hash32, h': Hash32 :: SignedFor(lib, h, signatures) && SignedFor(lib, h', signatures) ==> h == h'
    ensures (report == report' && context == context')
         || (SignedBytes(report, context) != SignedBytes(report', context')
             && lib.hash(SignedBytes(report, context)) == lib.hash(SignedBytes(report', context')))
  {
    TransmissionIsSigned(lib, env, s, sender, context, report, signatures);
    TransmissionIsSigned(lib, env', s', sender', context', report', signatures);
    hide StepTransmit, SignedFor;
    if SignedBytes(report, context) == SignedBytes(report', context') {
      SignedBytesUnambiguous(report, context, report', context');
    }
  }

  /** Digest, epoch and round are where the node writes them in a context. */
  lemma ContextFields(digest: Hash32, padding: seq<byte>, epoch: uint32, round: byte, extra: seq<byte>)
    requires |padding| == 27 && |extra| == 32
    ensures ParseContext(digest + padding + Be(epoch, 4) + [round] + extra) == ReportContext(digest, epoch, round)
  {
    var raw := digest + padding + Be(epoch, 4) + [round] + extra;
    assert raw[..32] == digest && raw[59..63] == Be(epoch, 4) && raw[63] == round;
    Pow256Values();
    BeRoundTrip(epoch, 4);
  }

  // ---------- when a transmission goes through ----------

  lemma {:induction false} PairsDetermineKeys(c: Quorum.Collected, c': Quorum.Collected, k: Key)
    requires |c.pkeys| == |c.sigs| && |c'.pkeys| == |c'.sigs|
    requires multiset(Quorum.Pairs(c)) == multiset(Quorum.Pairs(c')) && k in c.pkeys
    ensures k in c'.pkeys
  {
    var i :| 0 <= i < |c.pkeys| && c.pkeys[i] == k;
    assert Quorum.Pairs(c)[i] in multiset(Quorum.Pairs(c'));
    var j :| 0 <= j < |c'.pkeys| && Quorum.Pairs(c')[j] == Quorum.Pairs(c)[i];
    assert c'.pkeys[j] == k;
  }

  /** Keys in strict order determine how the entries are laid out. */
  lemma SortedPairsUnique(c: Quorum.Collected, c': Quorum.Collected)
    requires |c.pkeys| == |c.sigs| && |c'.pkeys| == |c'.sigs|
    requires StrictlySorted(c.pkeys) && StrictlySorted(c'.pkeys)
    requires multiset(Quorum.Pairs(c)) == multiset(Quorum.Pairs(c'))
    ensures c == c'
  {
    var keys := set k | k in c.pkeys;
    forall k ensures k in c.pkeys <==> k in c'.pkeys {
      if k in c.pkeys {
        PairsDetermineKeys(c, c', k);
      }
      if k in c'.pkeys {
        PairsDetermineKeys(c', c, k);
      }
    }
    ListingIsUnique(c.pkeys, c'.pkeys, keys);
    SortedIsDistinct(c.pkeys);
    forall i | 0 <= i < |c.sigs| ensures c.sigs[i] == c'.sigs[i] {
      assert Quorum.Pairs(c)[i] in multiset(Quorum.Pairs(c'));
      var j :| 0 <= j < |c'.pkeys| && Quorum.Pairs(c')[j] == Quorum.Pairs(c)[i];
      assert c'.pkeys[j] == c.pkeys[i];
    }
  }

  /** f + 1 entries with distinct keys of current signers. */
  ghost predicate IsQuorum(s: State, signatures: seq<seq<byte>>) {
    && |signatures| == s.config.f + 1
    && (forall i :: 0 <= i < |signatures| ==> |signatures[i]| == 96)
    && (forall i :: 0 <= i < |signatures| ==> signatures[i][..32] in s.signers)
    && (forall i, j :: 0 <= i < j < |signatures| ==> signatures[i][..32] != signatures[j][..32])
  }

  /** The context is of the current configuration, and later than the last one. */
  predicate IsNextContext(config: Config, context: seq<byte>) {
    && |context| == 96
    && context[..32] == config.latestConfigDigest
    && (|| FromBe(context[59..63]) > config.epoch
        || (FromBe(context[59..63]) == config.epoch && context[63] > config.round))
  }

  lemma CollectedIff(lib: Lib, s: State, hash: Hash32, signatures: seq<seq<byte>>)
    requires forall i :: 0 <= i < |signatures| ==> |signatures[i]| == 96
    ensures var c := Quorum.Collect(s.signers, Entries(signatures));
            && (c.Success? <==>
                  && (forall i :: 0 <= i < |signatures| ==> signatures[i][..32] in s.signers)
                  && (forall i, j :: 0 <= i < j < |signatures| ==> signatures[i][..32] != signatures[j][..32]))
            && (c.Success? ==> (lib.verify(hash, c.value.sigs, c.value.pkeys) <==> SignedFor(lib, hash, signatures)))
  {
    var entries := Entries(signatures);
    Quorum.CollectSucceedsIff(s.signers, entries);
    forall i | 0 <= i < |signatures| ensures entries[i].key == signatures[i][..32] {
    }
    if Quorum.Collect(s.signers, entries).Success? {
      var c := Quorum.Collect(s.signers, entries).value;
      Quorum.CollectSorted(s.signers, entries);
      Quorum.CollectKeepsPairs(s.signers, entries);
      forall c': Quorum.Collected
        | |c'.pkeys| == |c'.sigs| && StrictlySorted(c'.pkeys) && multiset(Quorum.Pairs(c')) == multiset(entries)
        ensures c' == c
      {
        SortedPairsUnique(c, c');
      }
    }
  }

  lemma ChecksInOrder(
      lib: Lib, s: State, sender: Addr, context: seq<byte>, report: seq<byte>, signatures: seq<seq<byte>>)
    ensures CheckTransmit(lib, s, sender, context, report, signatures).Accepted? <==>
              && (forall i :: 0 <= i < |signatures| ==> |signatures[i]| == 96)
              && |context| == 96
              && Newer(s.config, ParseContext(context))
              && s.config.latestConfigDigest == ParseContext(context).configDigest
              && sender in s.transmitters && |signatures| == s.config.f + 1 && |report| < TWO_32
              && var c := Quorum.Collect(s.signers, Entries(signatures));
                 c.Success? && lib.verify(lib.hash(Be(|report|, 4) + report + context), c.value.sigs, c.value.pkeys)
  {
    hide Quorum.Collect, Be, ParseContext, Newer;
  }

  lemma NextContextIff(config: Config, context: seq<byte>)
    requires |context| == 96
    ensures IsNextContext(config, context) <==>
              Newer(config, ParseContext(context)) && config.latestConfigDigest == ParseContext(context).configDigest
  {
  }

  /** The checks before the report is read pass exactly for a transmitter with a next context and a signed quorum. */
  lemma CheckedIff(
      lib: Lib, s: State, sender: Addr, context: seq<byte>, report: seq<byte>, signatures: seq<seq<byte>>)
    ensures CheckTransmit(lib, s, sender, context, report, signatures).Accepted? <==>
              && sender in s.transmitters
              && IsNextContext(s.config, context) && IsQuorum(s, signatures) && |report| < TWO_32
              && SignedFor(lib, lib.hash(Be(|report|, 4) + report + context), signatures)
  {
    ChecksInOrder(lib, s, sender, context, report, signatures);
    if |context| == 96 {
      NextContextIff(s.config, context);
    }
    if forall i :: 0 <= i < |signatures| ==> |signatures[i]| == 96 {
      CollectedIff(lib, s, lib.hash(Be(|report|, 4) + report + context), signatures);
    }
    hide CheckTransmit, Quorum.Collect, SignedFor, Be, Newer, ParseContext;
  }

  // ---------- when a report is recorded ----------

  /** The reimbursement of a transmission at a price, and whether its parts fit. */
  function Reimbursed(b: Billing, price: nat, count: nat): nat {
    Cost(b, count) * price / 1_000_000_000_000_000_000
  }

  function Gas(b: Billing, count: nat): nat {
    b.gasPerSignature.UnwrapOr(4_096) * count + b.gasBase.UnwrapOr(146_000)
  }

  function Cost(b: Billing, count: nat): nat {
    b.recommendedGasPriceMicro / 1_000_000 * (Gas(b, count) * b.gasAdjustment.UnwrapOr(140)) / 100
  }

  predicate Reimbursable(b: Billing, price: nat, count: nat) {
    Gas(b, count) < TWO_64 && Cost(b, count) < TWO_128 && Reimbursed(b, price, count) < TWO_128
  }

  lemma ReimbursableIff(b: Billing, price: uint128, count: nat)
    ensures CalculateReimbursement(b, price, count).Some? <==> Reimbursable(b, price, count)
    ensures Reimbursable(b, price, count) ==>
              CalculateReimbursement(b, price, count).value == Reimbursed(b, price, count)
  {
    ReimbursementIff(b, price, count);
    hide CalculateReimbursement;
  }

  /** A report of n observations has 37 bytes in front, 16 for each observation and 16 for the price. */
  predicate IsWholeReport(raw: seq<byte>) {
    |raw| >= 37 && |raw| == 53 + 16 * Observed(raw)
  }

  function Observed(raw: seq<byte>): nat
    requires |raw| >= 37
  {
    raw[36]
  }

  function Middle(raw: seq<byte>): int
    requires IsWholeReport(raw) && Observed(raw) > 0
  {
    var at := 37 + 16 * (Observed(raw) / 2);
    var n := FromBe(raw[at..at + 16]);
    if n >= TWO_127 then n - TWO_128 else n
  }

  function Price(raw: seq<byte>): nat
    requires IsWholeReport(raw)
  {
    FromBe(raw[37 + 16 * Observed(raw)..])
  }

  lemma DecodedParts(raw: seq<byte>)
    ensures Report.DecodeReport(raw).Success? <==> IsWholeReport(raw)
    ensures IsWholeReport(raw) ==>
              var d := Report.DecodeReport(raw).value;
              && |d.observations| == Observed(raw)
              && d.juelsPerFeeCoin == Price(raw)
              && d.observationsTimestamp == FromBe(raw[..4])
              && (Observed(raw) > 0 ==> d.observations[Observed(raw) / 2] == Middle(raw))
  {
    Report.ReadersAcceptIff(raw);
    if IsWholeReport(raw) {
      var n := Observed(raw);
      var rest := raw[37..];
      assert rest[16 * n..] == raw[37 + 16 * n..];
      if n > 0 {
        assert rest[..16 * n][16 * (n / 2)..16 * (n / 2 + 1)] == raw[37 + 16 * (n / 2)..37 + 16 * (n / 2) + 16];
      }
    }
  }

  /** More observations than faulty oracles, at most 31, and the middle one within the bounds. */
  predicate IsGoodReport(config: Config, raw: seq<byte>) {
    && IsWholeReport(raw) && config.f < Observed(raw) <= 31
    && config.minAnswer <= Middle(raw) <= config.maxAnswer
  }

  lemma RecordedIff(config: Config, env: Env, ctx: ReportContext, raw: seq<byte>, count: nat)
    ensures var r := Record(config, env, ctx, raw, count);
            && (r.Success? <==>
                  && IsGoodReport(config, raw)
                  && config.latestAggregatorRoundId + 1 < TWO_32
                  && Reimbursable(config.billing, Price(raw), count))
            && (r.Success? ==>
                  && r.value.config == config.(epoch := ctx.epoch, round := ctx.round,
                                               latestAggregatorRoundId := config.latestAggregatorRoundId + 1)
                  && r.value.transmission == Transmission(Middle(raw), FromBe(raw[..4]), env.timeSeconds % TWO_32)
                  && r.value.reimbursement == Reimbursed(config.billing, Price(raw), count))
  {
    DecodedParts(raw);
    if IsWholeReport(raw) {
      ReimbursableIff(config.billing, Report.DecodeReport(raw).value.juelsPerFeeCoin, count);
    }
    hide Report.DecodeReport, CalculateReimbursement, Reimbursable, Reimbursed, Middle, Price, IsWholeReport;
  }

  // ---------- transmit as a whole ----------

  /** What the sender is credited: the payment in giga-juels, and the reimbursement. */
  function SenderCredit(b: Billing, raw: seq<byte>, count: nat): nat
    requires IsWholeReport(raw)
  {
    b.transmissionPaymentGjuels * 1_000_000_000 + Reimbursed(b, Price(raw), count)
  }

  ghost predicate TransmitPasses(
      lib: Lib, s: State, sender: Addr, context: seq<byte>, report: seq<byte>, signatures: seq<seq<byte>>) {
    && sender in s.transmitters
    && IsNextContext(s.config, context) && IsQuorum(s, signatures) && |report| < TWO_32
    && SignedFor(lib, lib.hash(Be(|report|, 4) + report + context), signatures)
    && IsGoodReport(s.config, report) && s.config.latestAggregatorRoundId + 1 < TWO_32
    && Reimbursable(s.config.billing, Price(report), |signatures|)
    && s.transmitters[sender].payment + SenderCredit(s.config.billing, report, |signatures|) < TWO_128
  }

  lemma RecordOfParsed(config: Config, env: Env, context: seq<byte>, raw: seq<byte>, count: nat)
    requires |context| == 96 && Record(config, env, ParseContext(context), raw, count).Success?
    ensures Record(config, env, ParseContext(context), raw, count).value.config
         == config.(epoch := FromBe(context[59..63]), round := context[63],
                    latestAggregatorRoundId := config.latestAggregatorRoundId + 1)
  {
    RecordedIff(config, env, ParseContext(context), raw, count);
    hide Record;
  }

  lemma TransmitInSteps(
      lib: Lib, env: Env, s: State, sender: Addr, context: seq<byte>, report: seq<byte>, signatures: seq<seq<byte>>)
    ensures var r := StepTransmit(lib, env, s, sender, context, report, signatures);
            var accepted := CheckTransmit(lib, s, sender, context, report, signatures).Accepted?;
            && (accepted ==> sender in s.transmitters && |context| == 96)
            && (r.Success? ==> accepted)
            && (accepted ==>
                  var recorded := Record(s.config, env, ParseContext(context), report, |signatures|);
                  && (r.Success? ==> recorded.Success?)
                  && (recorded.Success? ==>
                        var t := s.transmitters[sender];
                        var amount := s.config.billing.transmissionPaymentGjuels * 1_000_000_000
                                      + recorded.value.reimbursement;
                        && (r.Success? <==> t.payment + amount < TWO_128)
                        && (r.Success? ==>
                              r.value.state
                              == s.(config := recorded.value.config,
                                    transmissions := s.transmissions[recorded.value.config.latestAggregatorRoundId
                                                                       := recorded.value.transmission],
                                    transmitters := s.transmitters[sender := t.(payment := t.payment + amount)]))))
  {
    if CheckTransmit(lib, s, sender, context, report, signatures).Accepted? {
      ChecksInOrder(lib, s, sender, context, report, signatures);
    }
    hide CheckTransmit, Record, ParseContext;
  }

  /** A transmission succeeds exactly under these conditions. */
  lemma TransmitIff(
      lib: Lib, env: Env, s: State, sender: Addr, context: seq<byte>, report: seq<byte>, signatures: seq<seq<byte>>)
    ensures StepTransmit(lib, env, s, sender, context, report, signatures).Success?
       <==> TransmitPasses(lib, s, sender, context, report, signatures)
  {
    CheckedIff(lib, s, sender, context, report, signatures);
    TransmitInSteps(lib, env, s, sender, context, report, signatures);
    if CheckTransmit(lib, s, sender, context, report, signatures).Accepted? {
      RecordedIff(s.config, env, ParseContext(context), report, |signatures|);
    }
    hide StepTransmit, CheckTransmit, Record, ParseContext, SignedFor, IsQuorum, IsNextContext, IsGoodReport,
      Reimbursable,
      Reimbursed, Be, Price;
  }

  /** What a transmission stores, in terms of the bytes of context and report. */
  lemma TransmitStores(
      lib: Lib, env: Env, s: State, sender: Addr, context: seq<byte>, report: seq<byte>, signatures: seq<seq<byte>>)
    requires StepTransmit(lib, env, s, sender, context, report, signatures).Success?
    ensures TransmitPasses(lib, s, sender, context, report, signatures)
    ensures var round := s.config.latestAggregatorRoundId + 1;
            var t := s.transmitters[sender];
            StepTransmit(lib, env, s, sender, context, report, signatures).value.state
            == s.(config := s.config.(epoch := FromBe(context[59..63]), round := context[63],
                                      latestAggregatorRoundId := round),
                  transmissions := s.transmissions[round := Transmission(Middle(report), FromBe(report[..4]),
                                                                         env.timeSeconds % 0x1_0000_0000)],
                  transmitters := s.transmitters[sender := t.(
                    payment := t.payment + SenderCredit(s.config.billing, report, |signatures|))])
  {
    TransmitIff(lib, env, s, sender, context, report, signatures);
    TransmitInSteps(lib, env, s, sender, context, report, signatures);
    RecordedIff(s.config, env, ParseContext(context), report, |signatures|);
    RecordOfParsed(s.config, env, context, report, |signatures|);
    hide StepTransmit, CheckTransmit, Record, ParseContext, SignedFor, IsQuorum, Reimbursable, Reimbursed, Be, FromBe,
      Price, Middle;
  }

  /** A debt is what was credited directly and the observation payment for every round since the last payout. */
  lemma OwedInNumbers(config: Config, ts: map<Addr, Transmitter>, t: Addr)
    requires RoundsInPast(config, ts)
    ensures OwedTo(config, ts, t)
         == if t in ts then
              config.billing.observationPaymentGjuels * 1_000_000_000
                * (config.latestAggregatorRoundId - ts[t].fromRoundId) + ts[t].payment
            else 0
  {
  }

  lemma CreditInNumbers(b: Billing, raw: seq<byte>, count: nat)
    requires IsWholeReport(raw) && Reimbursable(b, Price(raw), count)
    ensures ReportReimbursement(b, raw, count) == Reimbursed(b, Price(raw), count)
  {
    DecodedParts(raw);
    ReimbursableIff(b, Price(raw), count);
    hide Report.DecodeReport, CalculateReimbursement, Reimbursable, Reimbursed, Middle;
  }

  /**
   What a transmission earns, in juels: the observation payment for every transmitter, and on top
   of that the transmission payment and the gas for its sender. Nobody else's debt changes.
   */
  lemma TransmitEarns(
      lib: Lib, env: Env, s: State, sender: Addr, context: seq<byte>, report: seq<byte>, signatures: seq<seq<byte>>,
      t: Addr)
    requires Inv(s) && StepTransmit(lib, env, s, sender, context, report, signatures).Success?
    ensures var s' := StepTransmit(lib, env, s, sender, context, report, signatures).value.state;
            && RoundsInPast(s'.config, s'.transmitters) && IsWholeReport(report)
            && OwedTo(s'.config, s'.transmitters, t)
               == OwedTo(s.config, s.transmitters, t)
                  + (if t in s.transmitters then s.config.billing.observationPaymentGjuels * 1_000_000_000 else 0)
                  + (if t == sender then
                       s.config.billing.transmissionPaymentGjuels * 1_000_000_000
                         + Reimbursed(s.config.billing, Price(report), |signatures|)
                     else 0)
  {
    TransmitStores(lib, env, s, sender, context, report, signatures);
    CreditInNumbers(s.config.billing, report, |signatures|);
    TransmitLedger(lib, env, s, sender, context, report, signatures, t);
    hide StepTransmit, OwedTo, Inv, IsWholeReport, Reimbursed, Price, ReportReimbursement;
  }

  // ---------- what is sent to whom ----------

  /** Every debt is paid in the current token to the payee of the oracle, and nothing else. */
  ghost predicate PaysEveryone(s: State, transfers: seq<Transfer>)
    requires RoundsInPast(s.config, s.transmitters)
  {
    && (forall t: Addr :: PaidFor(transfers, t) == OwedTo(s.config, s.transmitters, t))
    && (forall i :: 0 <= i < |transfers| ==> IsPayment(s, transfers[i]))
  }

  predicate IsPayment(s: State, t: Transfer) {
    && t.token == s.config.linkToken && t.amount > 0
    && t.forOracle.Some? && t.forOracle.value in s.payees && t.recipient == s.payees[t.forOracle.value]
  }

  /** What is left of the balance when all debts are covered. */
  ghost function Free(s: State, balance: nat): nat
    requires RoundsInPast(s.config, s.transmitters)
  {
    var debts := TotalOwed(s.config, s.transmitters);
    if balance > debts then balance - debts else 0
  }

  /** The transfers of each message, the balance being that of the contract in its current token. */
  ghost predicate Sends(s: State, balance: nat, sender: Addr, msg: Msg, transfers: seq<Transfer>)
    requires RoundsInPast(s.config, s.transmitters)
  {
    match msg
    case AcceptProposal(_, _) => PaysEveryone(s, transfers)
    case SetBilling(_) => PaysEveryone(s, transfers)
    case SetLinkToken(linkToken, recipient) =>
      if linkToken == s.config.linkToken then transfers == []
      else
        && |transfers| > 0 && PaysEveryone(s, transfers[..|transfers| - 1])
        && transfers[|transfers| - 1].(amount := 0) == Transfer(s.config.linkToken, recipient, 0, None)
        && transfers[|transfers| - 1].amount == Free(s, balance)
    case WithdrawFunds(recipient, amount) =>
      && |transfers| == 1 && transfers[0].(amount := 0) == Transfer(s.config.linkToken, recipient, 0, None)
      && transfers[0].amount == if amount < Free(s, balance) then amount else Free(s, balance)
    case WithdrawPayment(transmitter) =>
      var owed := OwedTo(s.config, s.transmitters, transmitter);
      if owed == 0 then transfers == []
      else
        && |transfers| == 1
        && transfers[0].(amount := 0) == Transfer(s.config.linkToken, sender, 0, Some(transmitter))
        && transfers[0].amount == owed && transmitter in s.payees && s.payees[transmitter] == sender
    case _ => transfers == []
  }

  lemma PayAllPays(s: State)
    requires RoundsInPast(s.config, s.transmitters) && PayAll(s).Success?
    ensures PaysEveryone(s, PayAll(s).value.transfers)
    ensures PayAll(s).value.total == TotalOwed(s.config, s.transmitters)
  {
    PayAllEffect(s);
    hide PayAll, OwedTo, TotalOwed, PaidFor;
    var transfers := PayAll(s).value.transfers;
    forall i | 0 <= i < |transfers| ensures IsPayment(s, transfers[i]) {
      assert IsPayoutOf(transfers[i], s.config.linkToken, SortedKeys(s.transmitters.Keys));
      assert ToPayee(transfers[i], s.payees);
    }
  }

  lemma FundsAreSent(lib: Lib, env: Env, s: State, sender: Addr, msg: Msg)
    requires Inv(s) && Step(lib, env, s, sender, msg).Success? && (msg.SetLinkToken? || msg.WithdrawFunds?)
    ensures Sends(s, env.balance, sender, msg, Step(lib, env, s, sender, msg).value.response.transfers)
  {
    if msg.WithdrawFunds? {
      TransmittersAreFew(s);
      TotalLinkDueIsTotalOwed(s);
    } else if msg.linkToken != s.config.linkToken {
      PayAllPays(s);
      var payouts := PayAll(s).value.transfers;
      var transfers := Step(lib, env, s, sender, msg).value.response.transfers;
      assert transfers[..|transfers| - 1] == payouts;
    }
    hide PayAll, TotalLinkDue, TotalOwed, PaysEveryone;
  }

  /** In every reachable state a message that goes through makes exactly its transfers. */
  lemma StepSends(lib: Lib, env: Env, s: State, sender: Addr, msg: Msg)
    requires Inv(s) && Step(lib, env, s, sender, msg).Success?
    ensures Sends(s, env.balance, sender, msg, Step(lib, env, s, sender, msg).value.response.transfers)
  {
    match msg {
      case Transmit(context, report, signatures) =>
        TransmitSendsNothing(lib, env, s, sender, context, report, signatures);
      case AcceptProposal(id, digest) =>
        AcceptShape(lib, env, s, sender, id, digest);
        hide StepAcceptProposal, PayAll, PaysEveryone;
        PayAllPays(s);
      case SetBilling(_) =>
        hide PaysEveryone;
        PayAllPays(s);
      case WithdrawPayment(transmitter) => WithdrawPaymentShape(s, sender, transmitter);
      case _ =>
        if msg.SetLinkToken? || msg.WithdrawFunds? {
          FundsAreSent(lib, env, s, sender, msg);
        }
    }
  }

  lemma TransmitSendsNothing(
      lib: Lib, env: Env, s: State, sender: Addr, context: seq<byte>, report: seq<byte>, signatures: seq<seq<byte>>)
    requires StepTransmit(lib, env, s, sender, context, report, signatures).Success?
    ensures StepTransmit(lib, env, s, sender, context, report, signatures).value.response.transfers == []
  {
    hide CheckTransmit, Record;
  }

  /**
   What proposal messages announce: the new id; on freezing, the digest that acceptance will ask
   for; on acceptance, the whole configuration with the block of the one before it.
   */
  lemma ProposalsAreAnnounced(lib: Lib, env: Env, s: State, sender: Addr, msg: Msg)
    requires Step(lib, env, s, sender, msg).Success?
    ensures msg.BeginProposal? ==>
              Step(lib, env, s, sender, msg).value.response.attributes
              == [ConfigEvent.Attribute("proposal_id", DecimalDigits(s.nextProposalId + 1))]
    ensures msg.FinalizeProposal? ==>
              && msg.id in s.proposals
              && var p := s.proposals[msg.id];
                 Step(lib, env, s, sender, msg).value.response.attributes
                 == [ConfigEvent.Attribute("proposal_id", DecimalDigits(msg.id)),
                     ConfigEvent.Attribute("digest", HexEncode(lib.hash(
                       ProposalPreimage(p.oracles, p.f, p.offchainConfigVersion, p.offchainConfig))))]
    ensures msg.AcceptProposal? ==>
              && msg.id in s.proposals && s.config.configCount + 1 < TWO_32
              && var p := s.proposals[msg.id];
                 Step(lib, env, s, sender, msg).value.response.attributes
                 == ConfigEvent.SetConfigAttributes(
                      lib.base64, s.config.latestConfigBlockNumber,
                      Step(lib, env, s, sender, msg).value.state.config.latestConfigDigest, s.config.configCount + 1,
                      p.oracles, p.f, OnchainConfig(s.config.minAnswer, s.config.maxAnswer), p.offchainConfigVersion,
                      p.offchainConfig)
  {
    hide StepTransmit, PayAll, TotalLinkDue, Install, OwedPayment, ProposalPreimage, DecimalDigits, HexEncode,
      ConfigEvent.SetConfigAttributes, OnchainConfig;
  }

  // ---------- when the other messages go through ----------

  /** All debts together fit into 128 bits, so a payout to everyone goes through. */
  ghost predicate CanPayAll(s: State)
    requires RoundsInPast(s.config, s.transmitters)
  {
    TotalOwed(s.config, s.transmitters) < TWO_128
  }

  /** In a reachable state every transmitter has a payee, so only the sum of the debts can stop a payout. */
  lemma PayAllIff(s: State)
    requires Inv(s)
    ensures PayAll(s).Success? <==> CanPayAll(s)
  {
    var keys := SortedKeys(s.transmitters.Keys);
    SortedKeysAscend(s.transmitters.Keys);
    SortedIsDistinct(keys);
    PayOutSucceedsIff(s.config, s.transmitters, s.payees, keys);
  }

  /** What an accepted proposal must be: frozen, known by its digest, and of distinct oracles. */
  ghost predicate CanAccept(lib: Lib, env: Env, s: State, id: uint128, digest: seq<byte>)
    requires RoundsInPast(s.config, s.transmitters)
  {
    && id in s.proposals && s.proposals[id].finalized
    && var p := s.proposals[id];
       && digest == lib.hash(ProposalPreimage(p.oracles, p.f, p.offchainConfigVersion, p.offchainConfig))
       && Distinct(Signers(p.oracles)) && Distinct(Transmitters(p.oracles))
       && s.config.configCount + 1 < 0x1_0000_0000 && |env.chainId| < 256
       && CanPayAll(s)
  }

  lemma AcceptIff(lib: Lib, env: Env, s: State, sender: Addr, id: uint128, digest: seq<byte>)
    requires Inv(s)
    ensures StepAcceptProposal(lib, env, s, sender, id, digest).Success?
       <==> sender == s.owner && CanAccept(lib, env, s, id, digest)
  {
    PayAllIff(s);
    if id in s.proposals {
      InstallSucceedsIff(s.proposals[id].oracles, s.config.latestAggregatorRoundId, s.payees);
    }
    hide Inv, PayAll, Install, ConfigAfter, SetConfigEvent, ProposalPreimage, Distinct, CanPayAll;
  }

  /** A configuration proposal for 4 to 31 oracles, more than three times as many as may be faulty. */
  predicate CanPropose(s: State, id: uint128, signers: seq<Key>, transmitters: seq<Addr>, payees: seq<Addr>, f: byte,
      onchainConfig: seq<byte>) {
    && id in s.proposals && !s.proposals[id].finalized
    && |signers| == |transmitters| == |payees| <= 31
    && 1 <= f && 3 * f < |signers|
    && (forall i :: 0 <= i < |signers| ==> |signers[i]| == 32)
    && onchainConfig == []
  }

  /** The conditions of each message, apart from who sends it. */
  ghost predicate Passes(lib: Lib, env: Env, s: State, sender: Addr, msg: Msg)
    requires RoundsInPast(s.config, s.transmitters)
  {
    match msg
    case BeginProposal => s.nextProposalId + 1 < TWO_128
    case ClearProposal(id) => true
    case FinalizeProposal(id) =>
      && id in s.proposals && !s.proposals[id].finalized
      && s.proposals[id].oracles != [] && s.proposals[id].offchainConfig != []
    case ProposeConfig(id, signers, transmitters, payees, f, onchainConfig) =>
      CanPropose(s, id, signers, transmitters, payees, f, onchainConfig)
    case ProposeOffchainConfig(id, _, offchainConfig) =>
      id in s.proposals && !s.proposals[id].finalized && offchainConfig != []
    case AcceptProposal(id, digest) => CanAccept(lib, env, s, id, digest)
    case SetLinkToken(linkToken, _) => linkToken == s.config.linkToken || (env.newTokenAnswers && CanPayAll(s))
    case SetBilling(_) => CanPayAll(s)
    case WithdrawFunds(_, _) => CanPayAll(s)
    case WithdrawPayment(transmitter) =>
      transmitter in s.transmitters && OwedTo(s.config, s.transmitters, transmitter) < TWO_128
    case TransferPayeeship(_, proposed) => sender != proposed
    case AcceptPayeeship(_) => true
    case Transmit(context, report, signatures) => TransmitPasses(lib, s, sender, context, report, signatures)
  }

  lemma ProposalsIff(lib: Lib, env: Env, s: State, sender: Addr, msg: Msg)
    requires RoundsInPast(s.config, s.transmitters)
    requires msg.BeginProposal? || msg.ClearProposal? || msg.FinalizeProposal? || msg.ProposeConfig?
          || msg.ProposeOffchainConfig? || msg.TransferPayeeship? || msg.AcceptPayeeship?
    ensures Step(lib, env, s, sender, msg).Success? <==>
            MayCall(s, env.hasAccess, sender, msg) && Passes(lib, env, s, sender, msg)
  {
    hide DigestOf, StepTransmit, StepAcceptProposal, StepSetLinkToken, StepSetBilling, StepWithdrawFunds,
      StepWithdrawPayment, RoundsInPast;
  }

  lemma PaymentsIff(lib: Lib, env: Env, s: State, sender: Addr, msg: Msg)
    requires Inv(s)
    requires msg.SetLinkToken? || msg.SetBilling? || msg.WithdrawFunds? || msg.WithdrawPayment?
    ensures Step(lib, env, s, sender, msg).Success? <==>
            MayCall(s, env.hasAccess, sender, msg) && Passes(lib, env, s, sender, msg)
  {
    PayAllIff(s);
    TransmittersAreFew(s);
    TotalLinkDueIsTotalOwed(s);
    hide PayAll, TotalLinkDue, TotalOwed, StepTransmit, StepAcceptProposal, HistoryComplete, OracleSetSized,
      ProposalsNumbered, Owed;
  }

  /**
   In every reachable state a message succeeds exactly if its sender may send it and its conditions
   hold.
   */
  lemma StepSucceedsIff(lib: Lib, env: Env, s: State, sender: Addr, msg: Msg)
    requires Inv(s)
    ensures Step(lib, env, s, sender, msg).Success? <==>
            MayCall(s, env.hasAccess, sender, msg) && Passes(lib, env, s, sender, msg)
  {
    match msg {
      case Transmit(context, report, signatures) =>
        TransmitIff(lib, env, s, sender, context, report, signatures);
        hide StepTransmit, TransmitPasses, Inv;
        TransmitNeedsTransmitter(lib, s, sender, context, report, signatures);
      case AcceptProposal(id, digest) =>
        AcceptIff(lib, env, s, sender, id, digest);
        hide StepAcceptProposal, CanAccept;
      case _ =>
        if msg.SetLinkToken? || msg.SetBilling? || msg.WithdrawFunds? || msg.WithdrawPayment? {
          PaymentsIff(lib, env, s, sender, msg);
        } else {
          ProposalsIff(lib, env, s, sender, msg);
        }
    }
  }

  lemma TransmitNeedsTransmitter(
      lib: Lib, s: State, sender: Addr, context: seq<byte>, report: seq<byte>, signatures: seq<seq<byte>>)
    ensures TransmitPasses(lib, s, sender, context, report, signatures) ==> sender in s.transmitters
  {
  }

  // ---------- what each message may change ----------

  predicate MovesMoney(msg: Msg) {
    msg.SetLinkToken? || msg.SetBilling? || msg.WithdrawFunds? || msg.WithdrawPayment?
  }

  /** The messages that pay or withdraw touch token, billing and debts, and nothing else. */
  lemma MoneyFrame(lib: Lib, env: Env, s: State, sender: Addr, msg: Msg)
    requires MovesMoney(msg) && Step(lib, env, s, sender, msg).Success?
    ensures var s' := Step(lib, env, s, sender, msg).value.state;
            s' == s.(config := s.config.(linkToken := s'.config.linkToken, billing := s'.config.billing),
                     transmitters := s'.transmitters)
  {
    hide PayAll, TotalLinkDue, OwedPayment, StepTransmit, StepAcceptProposal;
  }

  /** Only transmissions add rounds; only an accepted proposal changes signers, faults and digest. */
  lemma OraclesFrame(lib: Lib, env: Env, s: State, sender: Addr, msg: Msg)
    requires Step(lib, env, s, sender, msg).Success?
    ensures var s' := Step(lib, env, s, sender, msg).value.state;
            && s'.owner == s.owner
            && s'.config.minAnswer == s.config.minAnswer && s'.config.maxAnswer == s.config.maxAnswer
            && (!msg.Transmit? ==>
                  && s'.transmissions == s.transmissions
                  && s'.config.latestAggregatorRoundId == s.config.latestAggregatorRoundId)
            && (!msg.AcceptProposal? ==>
                  && s'.signers == s.signers && s'.config.f == s.config.f && s'.config.n == s.config.n
                  && s'.config.configCount == s.config.configCount
                  && s'.config.latestConfigDigest == s.config.latestConfigDigest
                  && s'.config.latestConfigBlockNumber == s.config.latestConfigBlockNumber)
            && (!msg.AcceptProposal? && !msg.Transmit? ==>
                  s'.config.epoch == s.config.epoch && s'.config.round == s.config.round)
  {
    match msg {
      case Transmit(context, report, signatures) =>
        TransmitStores(lib, env, s, sender, context, report, signatures);
        hide StepTransmit, TransmitPasses, SenderCredit, Middle, FromBe;
      case AcceptProposal(id, digest) =>
        AcceptOutcome(lib, env, s, sender, id, digest);
        hide StepAcceptProposal, Install, ConfigDigestOf;
      case _ =>
        hide StepTransmit, StepAcceptProposal, StepSetLinkToken, StepSetBilling, StepWithdrawFunds, StepWithdrawPayment,
          DigestOf;
        if MovesMoney(msg) {
          MoneyFrame(lib, env, s, sender, msg);
        }
    }
  }

  /** Only set_billing changes the billing, to what it says, and only set_link_token the token. */
  lemma SettingsFrame(lib: Lib, env: Env, s: State, sender: Addr, msg: Msg)
    requires Step(lib, env, s, sender, msg).Success?
    ensures var config := Step(lib, env, s, sender, msg).value.state.config;
            && config.billing == (if msg.SetBilling? then msg.billing else s.config.billing)
            && config.linkToken == (if msg.SetLinkToken? then msg.linkToken else s.config.linkToken)
  {
    match msg {
      case Transmit(context, report, signatures) =>
        TransmitStores(lib, env, s, sender, context, report, signatures);
        hide StepTransmit, TransmitPasses, SenderCredit, Middle, FromBe;
      case AcceptProposal(id, digest) =>
        AcceptOutcome(lib, env, s, sender, id, digest);
        hide StepAcceptProposal, Install, ConfigDigestOf;
      case _ =>
        hide StepTransmit, StepAcceptProposal, PayAll, TotalLinkDue, OwedPayment, DigestOf;
    }
  }

  /**
   A payee changes only by accepting, to whom the payee before proposed, or with an accepted
   proposal; a proposed payee is set only by the payee, and goes when it is accepted.
   */
  lemma PayeesFrame(lib: Lib, env: Env, s: State, sender: Addr, msg: Msg)
    requires Step(lib, env, s, sender, msg).Success?
    ensures var s' := Step(lib, env, s, sender, msg).value.state;
            && (!msg.AcceptProposal? ==>
                  s'.payees == if msg.AcceptPayeeship?
                               then s.payees[msg.transmitter := s.proposedPayees[msg.transmitter]]
                               else s.payees)
            && s'.proposedPayees
               == match msg
                  case TransferPayeeship(transmitter, proposed) => s.proposedPayees[transmitter := proposed]
                  case AcceptPayeeship(transmitter) => s.proposedPayees - {transmitter}
                  case _ => s.proposedPayees
  {
    OnlyCallersSucceed(lib, env, s, sender, msg);
    match msg {
      case Transmit(context, report, signatures) =>
        TransmitStores(lib, env, s, sender, context, report, signatures);
        hide StepTransmit, TransmitPasses, SenderCredit, Middle, FromBe;
      case AcceptProposal(id, digest) =>
        AcceptOutcome(lib, env, s, sender, id, digest);
        hide StepAcceptProposal, Install, ConfigAfter;
      case _ =>
        hide StepTransmit, StepAcceptProposal, PayAll, TotalLinkDue, OwedPayment, DigestOf;
    }
  }

  /** The proposal a message is about, if any. */
  function Subject(s: State, msg: Msg): Option<nat> {
    match msg
    case BeginProposal => Some(s.nextProposalId + 1)
    case ClearProposal(id) => Some(id)
    case FinalizeProposal(id) => Some(id)
    case AcceptProposal(id, _) => Some(id)
    case ProposeConfig(id, _, _, _, _, _) => Some(id)
    case ProposeOffchainConfig(id, _, _) => Some(id)
    case _ => None
  }

  /** A message touches no proposal but the one it is about; this is what becomes of that one. */
  lemma ProposalsFrame(lib: Lib, env: Env, s: State, sender: Addr, msg: Msg)
    requires Step(lib, env, s, sender, msg).Success?
    ensures var s' := Step(lib, env, s, sender, msg).value.state;
            && s'.nextProposalId == s.nextProposalId + (if msg.BeginProposal? then 1 else 0)
            && (forall id: uint128 :: Subject(s, msg) != Some(id) ==>
                  && (id in s'.proposals <==> id in s.proposals)
                  && (id in s.proposals ==> s'.proposals[id] == s.proposals[id]))
            && match msg
               case BeginProposal =>
                 var id := s.nextProposalId + 1;
                 id in s'.proposals && s'.proposals[id] == Proposal(sender, false, [], 0, 0, [])
               case ClearProposal(id) => id !in s'.proposals
               case AcceptProposal(id, _) => id !in s'.proposals
               case FinalizeProposal(id) =>
                 id in s.proposals && id in s'.proposals && s'.proposals[id] == s.proposals[id].(finalized := true)
               case ProposeConfig(id, signers, transmitters, payees, f, _) =>
                 && id in s.proposals && id in s'.proposals
                 && |signers| == |transmitters| == |payees| == |s'.proposals[id].oracles|
                 && (forall i :: 0 <= i < |signers| ==>
                       s'.proposals[id].oracles[i] == Oracle(signers[i], transmitters[i], payees[i]))
                 && s'.proposals[id].f == f
                 && s'.proposals[id] == s.proposals[id].(oracles := s'.proposals[id].oracles, f := f)
               case ProposeOffchainConfig(id, version, offchainConfig) =>
                 && id in s.proposals && id in s'.proposals
                 && s'.proposals[id]
                    == s.proposals[id].(offchainConfigVersion := version, offchainConfig := offchainConfig)
               case _ => true
  {
    match msg {
      case Transmit(context, report, signatures) =>
        TransmitStores(lib, env, s, sender, context, report, signatures);
        hide StepTransmit, TransmitPasses, SenderCredit, Middle, FromBe;
      case AcceptProposal(id, digest) =>
        AcceptOutcome(lib, env, s, sender, id, digest);
        hide StepAcceptProposal, Install, ConfigAfter;
      case _ =>
        hide StepTransmit, StepAcceptProposal, StepSetLinkToken, StepSetBilling, StepWithdrawFunds, StepWithdrawPayment,
          DigestOf;
        if MovesMoney(msg) {
          MoneyFrame(lib, env, s, sender, msg);
        }
    }
  }

  /** The configuration an accepted proposal puts in force, with its digest spelled out. */
  lemma AcceptSetsConfig(lib: Lib, env: Env, s: State, sender: Addr, id: uint128, digest: seq<byte>)
    requires Inv(s) && StepAcceptProposal(lib, env, s, sender, id, digest).Success?
    ensures id in s.proposals
    ensures var p := s.proposals[id];
            var config := StepAcceptProposal(lib, env, s, sender, id, digest).value.state.config;
            var bytes := ConfigPreimage(env.chainId, env.self, s.config.configCount + 1, Signers(p.oracles),
                                        Transmitters(p.oracles), p.f,
                                        OnchainConfig(s.config.minAnswer, s.config.maxAnswer),
                                        p.offchainConfigVersion, p.offchainConfig);
            && config.configCount == s.config.configCount + 1
            && config.f == p.f && config.n == |p.oracles|
            && config.latestConfigDigest == [0, 2] + lib.hash(bytes)[2..]
            && config.latestConfigBlockNumber == env.blockHeight
            && config.epoch == 0 && config.round == 0
  {
    AcceptOutcome(lib, env, s, sender, id, digest);
    FinalizedIsSized(s, id);
    hide StepAcceptProposal, Inv, Install, ConfigPreimage, OnchainConfig;
  }

  /** The oracles it puts in force: its signers, its transmitters, and a payee for each. */
  lemma AcceptSetsOracles(lib: Lib, env: Env, s: State, sender: Addr, id: uint128, digest: seq<byte>)
    requires StepAcceptProposal(lib, env, s, sender, id, digest).Success?
    ensures id in s.proposals
    ensures var oracles := s.proposals[id].oracles;
            var s' := StepAcceptProposal(lib, env, s, sender, id, digest).value.state;
            && (forall k :: k in s'.signers <==> k in Signers(oracles))
            && (forall k :: k in s'.transmitters <==> k in Transmitters(oracles))
            && (forall i :: 0 <= i < |oracles| ==>
                  oracles[i].transmitter in s'.payees && s'.payees[oracles[i].transmitter] == oracles[i].payee)
  {
    AcceptOutcome(lib, env, s, sender, id, digest);
    hide StepAcceptProposal, ConfigAfter;
    InstalledFor(s.proposals[id].oracles, s.config.latestAggregatorRoundId, s.payees);
    hide Install;
  }

  lemma InstalledFor(oracles: seq<Oracle>, fromRoundId: uint32, payees: map<Addr, Addr>)
    requires Install(oracles, fromRoundId, payees).Success?
    ensures var done := Install(oracles, fromRoundId, payees).value;
            && (forall k :: k in done.signers <==> k in Signers(oracles))
            && (forall k :: k in done.transmitters <==> k in Transmitters(oracles))
            && (forall i :: 0 <= i < |oracles| ==>
                  oracles[i].transmitter in done.payees && done.payees[oracles[i].transmitter] == oracles[i].payee)
  {
    InstallMembers(oracles, fromRoundId, payees);
    SetMembers(oracles);
    var done := Install(oracles, fromRoundId, payees).value;
    hide Install, SignerSet, TransmitterSet;
    forall i | 0 <= i < |oracles|
      ensures oracles[i].transmitter in done.payees && done.payees[oracles[i].transmitter] == oracles[i].payee
    {
      InstallPayeeOf(oracles, fromRoundId, payees, i);
    }
  }
}
