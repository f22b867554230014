/**
 A small feed of four oracles taken from instantiation through its first round: that the
 situations in which the results elsewhere make an exception are reached by real runs.
 */
module AggregatorWitness {
  import opened Wrappers
  import opened Bytes
  import opened Seqs
  import opened Runs
  import opened Digest
  import opened Reimbursement
  import opened AggregatorSpec
  import opened AggregatorPayouts
  import opened AggregatorInvariant
  import opened AggregatorRuns
  import opened AggregatorAccounting
  import opened AggregatorSolvency
  import opened AggregatorNode
  import ConfigEvent
  import Quorum
  import Report

  // ---------- the feed ----------

  const OWNER: Addr := [100]
  const LINK: Addr := [101]
  const FIRST: Addr := [1]
  const SECOND: Addr := [2]
  const FREE: Billing := Billing(0, 0, 0, None, None, None)
  const PAYING: Billing := Billing(0, 1, 0, None, None, None)

  function Filled(b: byte, n: nat): (s: seq<byte>)
    ensures |s| == n && forall i :: 0 <= i < n ==> s[i] == b
  {
    seq(n, _ => b)
  }

  function SomeKey(b: byte): (key: seq<byte>)
    ensures |key| == KEY_SIZE && key[0] == b
  {
    Filled(b, KEY_SIZE)
  }

  function FourSigners(): (keys: seq<seq<byte>>)
    ensures |keys| == 4 && forall i :: 0 <= i < 4 ==> |keys[i]| == KEY_SIZE && keys[i][0] == i + 1
  {
    [SomeKey(1), SomeKey(2), SomeKey(3), SomeKey(4)]
  }

  function FourAddresses(): (addresses: seq<Addr>)
    ensures |addresses| == 4 && forall i :: 0 <= i < 4 ==> addresses[i] == [i + 1]
  {
    [[1], [2], [3], [4]]
  }

  function Ask(sender: Addr, msg: Msg): Act {
    Call([], 0, 0, false, true, sender, msg)
  }

  function Start(): World {
    World(InitialState(OWNER, LINK, 0, 100), map[])
  }

  /** A state with the next proposal id used for p. */
  function With(s: State, id: uint128, p: Proposal): State {
    s.(nextProposalId := id, proposals := s.proposals[id := p])
  }

  function Blank(): Proposal {
    Proposal(OWNER, false, [], 0, 0, [])
  }

  function Offer(addresses: seq<Addr>, version: uint64, finalized: bool): Proposal
    requires |addresses| == 4
  {
    Proposal(OWNER, finalized, Zip(FourSigners(), addresses, addresses), 1, version, [7])
  }

  function Drafting(id: uint128, addresses: seq<Addr>, version: uint64): (acts: seq<Act>)
    ensures |acts| == 4
  {
    [Ask(OWNER, BeginProposal),
     Ask(OWNER, ProposeConfig(id, FourSigners(), addresses, addresses, 1, [])),
     Ask(OWNER, ProposeOffchainConfig(id, version, [7])),
     Ask(OWNER, FinalizeProposal(id))]
  }

  /** The storage while the only proposal is p. */
  function Drafted(p: Proposal): State {
    With(Start().state, 1, p)
  }

  function Agreed(version: uint64, finalized: bool): Proposal {
    Offer(FourAddresses(), version, finalized)
  }

  function SetUp(version: uint64): seq<Act> {
    Drafting(1, FourAddresses(), version)
  }

  function Accept(lib: Lib, version: uint64): Act {
    Ask(OWNER, AcceptProposal(1, DigestOf(lib, Agreed(version, true))))
  }

  // ---------- up to the first configuration ----------

  lemma QuietStep(lib: Lib, self: Addr, w: World, act: Act)
    requires act.Call? && Step(lib, EnvOf(self, w, act), w.state, act.sender, act.msg).Success?
    requires Step(lib, EnvOf(self, w, act), w.state, act.sender, act.msg).value.response.transfers == []
    ensures Committed(lib, self, w, act)
         == Some(Commit(Step(lib, EnvOf(self, w, act), w.state, act.sender, act.msg).value, w.tokens))
    ensures Next(lib, self, w, act)
         == World(Step(lib, EnvOf(self, w, act), w.state, act.sender, act.msg).value.state, w.tokens)
  {
    hide Step;
  }

  predicate CanDraft(s: State, id: uint128, addresses: seq<Addr>) {
    s.owner == OWNER && id == s.nextProposalId + 1 && |addresses| == 4
  }

  lemma Begun(lib: Lib, self: Addr, s: State, tokens: Tokens, id: uint128, addresses: seq<Addr>, version: uint64)
    requires CanDraft(s, id, addresses)
    ensures Next(lib, self, World(s, tokens), Drafting(id, addresses, version)[0])
         == World(With(s, id, Blank()), tokens)
  {
    QuietStep(lib, self, World(s, tokens), Drafting(id, addresses, version)[0]);
  }

  lemma Proposed(lib: Lib, self: Addr, s: State, tokens: Tokens, id: uint128, addresses: seq<Addr>, version: uint64)
    requires CanDraft(s, id, addresses)
    ensures Next(lib, self, World(With(s, id, Blank()), tokens), Drafting(id, addresses, version)[1])
         == World(With(s, id, Offer(addresses, 0, false).(offchainConfig := [])), tokens)
  {
    var before := With(s, id, Blank());
    var p := Offer(addresses, 0, false).(offchainConfig := []);
    assert before.proposals[id := p] == s.proposals[id := p];
    QuietStep(lib, self, World(before, tokens), Drafting(id, addresses, version)[1]);
  }

  lemma Versioned(lib: Lib, self: Addr, s: State, tokens: Tokens, id: uint128, addresses: seq<Addr>, version: uint64)
    requires CanDraft(s, id, addresses)
    ensures Next(lib, self, World(With(s, id, Offer(addresses, 0, false).(offchainConfig := [])), tokens),
                 Drafting(id, addresses, version)[2])
         == World(With(s, id, Offer(addresses, version, false)), tokens)
  {
    var before := With(s, id, Offer(addresses, 0, false).(offchainConfig := []));
    var p := Offer(addresses, version, false);
    assert before.proposals[id := p] == s.proposals[id := p];
    QuietStep(lib, self, World(before, tokens), Drafting(id, addresses, version)[2]);
  }

  lemma Finalized(lib: Lib, self: Addr, s: State, tokens: Tokens, id: uint128, addresses: seq<Addr>, version: uint64)
    requires CanDraft(s, id, addresses)
    ensures Next(lib, self, World(With(s, id, Offer(addresses, version, false)), tokens),
                 Drafting(id, addresses, version)[3])
         == World(With(s, id, Offer(addresses, version, true)), tokens)
  {
    var before := With(s, id, Offer(addresses, version, false));
    var p := Offer(addresses, version, true);
    assert before.proposals[id := p] == s.proposals[id := p];
    QuietStep(lib, self, World(before, tokens), Drafting(id, addresses, version)[3]);
  }

  /** Four messages of the owner put a finalized proposal with these addresses into any state. */
  lemma DraftingReaches(
      lib: Lib, self: Addr, s: State, tokens: Tokens, id: uint128, addresses: seq<Addr>, version: uint64)
    requires CanDraft(s, id, addresses)
    ensures Run(Machine(lib, self), World(s, tokens), Drafting(id, addresses, version))
         == World(With(s, id, Offer(addresses, version, true)), tokens)
  {
    var next, w, acts := Machine(lib, self), World(s, tokens), Drafting(id, addresses, version);
    Begun(lib, self, s, tokens, id, addresses, version);
    Proposed(lib, self, s, tokens, id, addresses, version);
    Versioned(lib, self, s, tokens, id, addresses, version);
    Finalized(lib, self, s, tokens, id, addresses, version);
    hide Next, With, Offer, Drafting, Blank;
    assert acts[..0] == [] && acts[..4] == acts;
    assert Run(next, w, acts[..0]) == w;
    AtNext(next, w, acts, 0);
    AtNext(next, w, acts, 1);
    AtNext(next, w, acts, 2);
    AtNext(next, w, acts, 3);
  }

  lemma ReachesFinalized(lib: Lib, self: Addr, version: uint64)
    ensures Run(Machine(lib, self), Start(), SetUp(version)) == World(Drafted(Agreed(version, true)), map[])
  {
    DraftingReaches(lib, self, Start().state, map[], 1, FourAddresses(), version);
  }

  lemma {:induction false} PayOutNothing(config: Config, ts: map<Addr, Transmitter>, payees: map<Addr, Addr>,
      keys: seq<Addr>)
    requires forall k :: k in keys ==> k in ts
    requires forall k :: k in keys ==> ts[k].fromRoundId <= config.latestAggregatorRoundId && Owed(config, ts[k]) == 0
    ensures PayOut(config, ts, payees, keys) == Success(Payout(0, ts, []))
  {
    if |keys| > 0 {
      PayOutNothing(config, ts, payees, keys[..|keys| - 1]);
      assert keys[|keys| - 1] in keys;
    }
  }

  /** When nobody is owed anything a payout does nothing. */
  lemma PayAllNothing(s: State)
    requires forall k :: k in s.transmitters ==>
               s.transmitters[k].fromRoundId <= s.config.latestAggregatorRoundId
                 && Owed(s.config, s.transmitters[k]) == 0
    ensures PayAll(s) == Success(Payout(0, s.transmitters, []))
  {
    PayOutNothing(s.config, s.transmitters, s.payees, SortedKeys(s.transmitters.Keys));
  }

  lemma FourInstall(addresses: seq<Addr>, version: uint64)
    requires |addresses| == 4 && Distinct(addresses)
    ensures var oracles := Offer(addresses, version, true).oracles;
            && Distinct(Signers(oracles)) && Distinct(Transmitters(oracles))
            && Signers(oracles) == FourSigners() && Transmitters(oracles) == addresses
  {
    var oracles := Offer(addresses, version, true).oracles;
    assert Signers(oracles) == FourSigners() && Transmitters(oracles) == addresses;
    forall i, j | 0 <= i < j < 4 ensures Signers(oracles)[i] != Signers(oracles)[j] {
      assert FourSigners()[i][0] != FourSigners()[j][0];
    }
  }

  lemma FourAreDistinct()
    ensures Distinct(FourAddresses())
  {
    forall i, j | 0 <= i < j < 4 ensures FourAddresses()[i] != FourAddresses()[j] {
      assert FourAddresses()[i][0] != FourAddresses()[j][0];
    }
  }

  /** What matters of the storage once the four oracles are in force. */
  ghost predicate InForce(lib: Lib, self: Addr, version: uint64, s: State) {
    && s.owner == OWNER
    && s.config == ConfigAfter(lib, EnvOf(self, Start(), Ask(OWNER, BeginProposal)), Start().state.config,
                               Agreed(version, true))
    && (forall k :: k in s.transmitters ==> s.transmitters[k] == Transmitter(0, 0))
    && FIRST in s.transmitters && SECOND in s.transmitters
    && (forall i :: 0 <= i < 4 ==> FourSigners()[i] in s.signers)
  }

  /** A finalized offer is accepted by a contract without a configuration, if its addresses are distinct. */
  lemma OfferIsAccepted(
      lib: Lib, self: Addr, w: World, id: uint128, addresses: seq<Addr>, version: uint64)
    requires |addresses| == 4 && Distinct(addresses)
    requires w.state.owner == OWNER && w.state.transmitters == map[] && w.state.config.configCount == 0
    requires id in w.state.proposals && w.state.proposals[id] == Offer(addresses, version, true)
    ensures var act := Ask(OWNER, AcceptProposal(id, DigestOf(lib, Offer(addresses, version, true))));
            var r := Step(lib, EnvOf(self, w, act), w.state, act.sender, act.msg);
            && r.Success? && r.value.response.transfers == []
            && r.value.state.config == ConfigAfter(lib, EnvOf(self, w, act), w.state.config, w.state.proposals[id])
  {
    FourInstall(addresses, version);
    var s := w.state;
    InstallSucceedsIff(s.proposals[id].oracles, s.config.latestAggregatorRoundId, s.payees);
    PayAllNothing(s);
    hide PayAll, Install, FourSigners, DigestOf, ConfigAfter, SetConfigEvent, Offer;
  }

  lemma AcceptSucceeds(lib: Lib, self: Addr, version: uint64)
    ensures var w, act := World(Drafted(Agreed(version, true)), map[]), Accept(lib, version);
            var r := Step(lib, EnvOf(self, w, act), w.state, act.sender, act.msg);
            r.Success? && r.value.response.transfers == []
  {
    FourAreDistinct();
    hide Step, Offer, FourAddresses;
    OfferIsAccepted(lib, self, World(Drafted(Agreed(version, true)), map[]), 1, FourAddresses(), version);
  }

  lemma FourInstalled(version: uint64)
    ensures var r := Install(Agreed(version, true).oracles, 0, map[]);
            && r.Success?
            && FIRST in r.value.transmitters && SECOND in r.value.transmitters
            && (forall k :: k in r.value.transmitters ==> r.value.transmitters[k] == Transmitter(0, 0))
            && (forall i :: 0 <= i < 4 ==> FourSigners()[i] in r.value.signers)
  {
    var oracles := Agreed(version, true).oracles;
    FourAreDistinct();
    FourInstall(FourAddresses(), version);
    InstallSucceedsIff(oracles, 0, map[]);
    InstallMembers(oracles, 0, map[]);
    SetMembers(oracles);
    hide Install, SignerSet, TransmitterSet, FourSigners;
    assert forall i :: 0 <= i < 4 ==> Signers(oracles)[i] in Signers(oracles);
    assert Transmitters(oracles)[0] == FIRST && Transmitters(oracles)[1] == SECOND;
  }

  lemma AcceptPutsInForce(lib: Lib, self: Addr, version: uint64)
    ensures var w, act := World(Drafted(Agreed(version, true)), map[]), Accept(lib, version);
            && Committed(lib, self, w, act).Some?
            && Next(lib, self, w, act).tokens == map[]
            && InForce(lib, self, version, Next(lib, self, w, act).state)
  {
    var w, act := World(Drafted(Agreed(version, true)), map[]), Accept(lib, version);
    AcceptSucceeds(lib, self, version);
    QuietStep(lib, self, w, act);
    AcceptOutcome(lib, EnvOf(self, w, act), w.state, OWNER, 1, act.msg.digest);
    FourInstalled(version);
    hide StepAcceptProposal, Install, ConfigAfter, FourSigners, FourAddresses, Zip, DigestOf, Offer;
  }

  /** The first configuration of the feed, whatever its version, is accepted by a run from instantiation. */
  lemma AnyVersionIsAccepted(lib: Lib, self: Addr, version: uint64)
    ensures Fresh(Start())
    ensures var w := Run(Machine(lib, self), Start(), SetUp(version));
            && Inv(w.state)
            && StepAcceptProposal(lib, EnvOf(self, w, Accept(lib, version)), w.state, OWNER, 1,
                                  DigestOf(lib, Agreed(version, true))).Success?
            && 1 in w.state.proposals && w.state.proposals[1].offchainConfigVersion == version
  {
    ReachesFinalized(lib, self, version);
    AcceptSucceeds(lib, self, version);
    ReachableInv(lib, self, Start(), SetUp(version));
    hide StepAcceptProposal, Inv, Run;
  }

  /** Versions from 2^63 on are accepted by the contract in such a run, and its event is not parsed by the node. */
  lemma HighVersionIsLost(lib: Lib, self: Addr, version: uint64)
    requires lib.base64.Inverse() && version >= TWO_63
    ensures var w := Run(Machine(lib, self), Start(), SetUp(version));
            var env := EnvOf(self, w, Accept(lib, version));
            var r := StepAcceptProposal(lib, env, w.state, OWNER, 1, DigestOf(lib, Agreed(version, true)));
            && r.Success?
            && ConfigEvent.Parsed(lib.base64, Reported(env, r.value.response.attributes)).Failure?
  {
    AnyVersionIsAccepted(lib, self, version);
    var w := Run(Machine(lib, self), Start(), SetUp(version));
    hide Run, StepAcceptProposal, Inv;
    NodeAgreesOnConfig(lib, EnvOf(self, w, Accept(lib, version)), w.state, OWNER, 1,
                       DigestOf(lib, Agreed(version, true)));
  }

  // ---------- two configurations with one digest ----------

  function TwoOffers(version: uint64): seq<Act> {
    Drafting(1, CUT_EARLY, version) + Drafting(2, CUT_LATE, version)
  }

  function AcceptOffer(lib: Lib, id: uint128, addresses: seq<Addr>, version: uint64): Act
    requires |addresses| == 4
  {
    Ask(OWNER, AcceptProposal(id, DigestOf(lib, Offer(addresses, version, true))))
  }

  function TwoDrafted(version: uint64): State {
    With(With(Start().state, 1, Offer(CUT_EARLY, version, true)), 2, Offer(CUT_LATE, version, true))
  }

  lemma ReachesTwoOffers(lib: Lib, self: Addr, version: uint64)
    ensures Run(Machine(lib, self), Start(), TwoOffers(version)) == World(TwoDrafted(version), map[])
  {
    var first := With(Start().state, 1, Offer(CUT_EARLY, version, true));
    DraftingReaches(lib, self, Start().state, map[], 1, CUT_EARLY, version);
    DraftingReaches(lib, self, first, map[], 2, CUT_LATE, version);
    hide Run, Offer, Drafting;
    RunAppend(Machine(lib, self), Start(), Drafting(1, CUT_EARLY, version), Drafting(2, CUT_LATE, version));
  }

  lemma OneDigest(lib: Lib, env: Env, config: Config, version: uint64)
    requires CanCount(env, config)
    ensures ConfigAfter(lib, env, config, Offer(CUT_EARLY, version, true)).latestConfigDigest
         == ConfigAfter(lib, env, config, Offer(CUT_LATE, version, true)).latestConfigDigest
  {
    CutsConcatenateAlike();
    FourInstall(CUT_EARLY, version);
    FourInstall(CUT_LATE, version);
    hide Flatten, FourSigners, OnchainConfig;
  }

  /**
   In a run from instantiation, two finalized proposals with different transmitters can both be
   accepted from one and the same state, and either gives the configuration the same digest.
   */
  lemma OneDigestForTwoConfigurations(lib: Lib, self: Addr, version: uint64)
    ensures var w := Run(Machine(lib, self), Start(), TwoOffers(version));
            var a, b := AcceptOffer(lib, 1, CUT_EARLY, version), AcceptOffer(lib, 2, CUT_LATE, version);
            && Committed(lib, self, w, a).Some? && Committed(lib, self, w, b).Some?
            && 1 in w.state.proposals && 2 in w.state.proposals
            && Transmitters(w.state.proposals[1].oracles) != Transmitters(w.state.proposals[2].oracles)
            && Next(lib, self, w, a).state.config.latestConfigDigest
               == Next(lib, self, w, b).state.config.latestConfigDigest
  {
    var w := World(TwoDrafted(version), map[]);
    var a, b := AcceptOffer(lib, 1, CUT_EARLY, version), AcceptOffer(lib, 2, CUT_LATE, version);
    ReachesTwoOffers(lib, self, version);
    CutsConcatenateAlike();
    FourInstall(CUT_EARLY, version);
    FourInstall(CUT_LATE, version);
    OfferIsAccepted(lib, self, w, 1, CUT_EARLY, version);
    OfferIsAccepted(lib, self, w, 2, CUT_LATE, version);
    assert EnvOf(self, w, a) == EnvOf(self, w, b);
    OneDigest(lib, EnvOf(self, w, a), w.state.config, version);
    hide Run, StepAcceptProposal, ConfigAfter, Offer, DigestOf, Flatten, Zip;
    QuietStep(lib, self, w, a);
    QuietStep(lib, self, w, b);
  }

  // ---------- the first round ----------

  /** Library functions under which everything verifies; the results need no more of them than they state. */
  function PlainLib(): Lib {
    Lib((_: seq<byte>) => ZERO_DIGEST, (_: Hash32, _: seq<seq<byte>>, _: seq<seq<byte>>) => true,
        ConfigEvent.Base64((s: seq<byte>) => s, (s: seq<byte>) => Some(s)))
  }

  function Signature(b: byte): (signature: seq<byte>)
    ensures |signature| == SIGNATURE_ENTRY_SIZE && signature[..KEY_SIZE] == SomeKey(b)
  {
    SomeKey(b) + Filled(0, 64)
  }

  function Observed(): Report.Observation {
    Report.Observation(0, 5, 0, 0)
  }

  function FirstReport(): seq<byte> {
    Report.EncodeReport(0, [Observed(), Observed()], 0)
  }

  function FirstContext(digest: Hash32): (raw: seq<byte>)
    ensures |raw| == REPORT_CONTEXT_SIZE && raw[..32] == digest && raw[63] == 1
  {
    digest + Filled(1, 64)
  }

  function FirstTransmission(digest: Hash32): Msg {
    Transmit(FirstContext(digest), FirstReport(), [Signature(1), Signature(2)])
  }

  /** So the exception in what the node parses happens: version 2^63 in a run of the feed. */
  lemma LostVersionHappens(self: Addr)
    ensures var lib, w := PlainLib(), Run(Machine(PlainLib(), self), Start(), SetUp(TWO_63));
            var env := EnvOf(self, w, Accept(lib, TWO_63));
            var r := StepAcceptProposal(lib, env, w.state, OWNER, 1, DigestOf(lib, Agreed(TWO_63, true)));
            && r.Success?
            && ConfigEvent.Parsed(lib.base64, Reported(env, r.value.response.attributes)).Failure?
  {
    assert PlainLib().base64.Inverse();
    hide Run, StepAcceptProposal, SetUp;
    HighVersionIsLost(PlainLib(), self, TWO_63);
  }

  lemma FirstReportReads()
    ensures |FirstReport()| < TWO_32
    ensures var d := Report.DecodeReport(FirstReport());
            d.Success? && d.value.observations == [5, 5] && d.value.juelsPerFeeCoin == 0
  {
    Report.ReportRoundTrip(0, [Observed(), Observed()], 0);
    assert Report.Values([Observed(), Observed()]) == [5, 5];
    hide Report.DecodeReport;
  }

  lemma FreeGas()
    ensures CalculateReimbursement(FREE, 0, 2) == Some(0)
  {
    assert GasSpent(FREE, 2) == Some(154_192);
  }

  lemma FirstIsChecked(lib: Lib, self: Addr, version: uint64, s: State)
    requires InForce(lib, self, version, s) && lib == PlainLib()
    ensures var m := FirstTransmission(s.config.latestConfigDigest);
            CheckTransmit(lib, s, FIRST, m.reportContext, m.report, m.signatures) == Accepted
  {
    var signatures := [Signature(1), Signature(2)];
    var entries := Entries(signatures);
    assert entries[0].key == SomeKey(1) && entries[1].key == SomeKey(2);
    assert SomeKey(1)[0] != SomeKey(2)[0];
    assert FourSigners()[0] in s.signers && FourSigners()[1] in s.signers;
    Quorum.CollectSucceedsIff(s.signers, entries);
    FirstReportReads();
    hide Quorum.Collect, FourSigners, Report.EncodeReport;
  }

  /** After the first round every transmitter has one round pending and, with free billing, is owed nothing. */
  ghost predicate AfterFirstRound(s: State) {
    && s.owner == OWNER && s.config.billing == FREE && s.config.latestAggregatorRoundId == 1
    && SECOND in s.transmitters
    && (forall k :: k in s.transmitters ==> s.transmitters[k] == Transmitter(0, 0))
  }

  lemma FirstIsRecorded(config: Config, env: Env, ctx: ReportContext)
    requires config.billing == FREE && config.f == 1 && config.minAnswer == 0 && config.maxAnswer == 100
    requires config.latestAggregatorRoundId == 0
    ensures var r := Record(config, env, ctx, FirstReport(), 2);
            && r.Success? && r.value.reimbursement == 0
            && r.value.config == config.(epoch := ctx.epoch, round := ctx.round, latestAggregatorRoundId := 1)
  {
    FirstReportReads();
    FreeGas();
    hide Report.DecodeReport, FirstReport, CalculateReimbursement;
  }

  lemma FirstSucceeds(lib: Lib, env: Env, self: Addr, version: uint64, s: State)
    requires InForce(lib, self, version, s) && lib == PlainLib()
    ensures var m := FirstTransmission(s.config.latestConfigDigest);
            var r := StepTransmit(lib, env, s, FIRST, m.reportContext, m.report, m.signatures);
            r.Success? && r.value.response.transfers == [] && AfterFirstRound(r.value.state)
  {
    var m := FirstTransmission(s.config.latestConfigDigest);
    FirstIsChecked(lib, self, version, s);
    FirstIsRecorded(s.config, env, ParseContext(m.reportContext));
    hide CheckTransmit, Record, ParseContext, FirstReport, FirstContext, FourSigners, PlainLib, ConfigDigestOf,
      DigestOf;
  }

  lemma BillingSucceeds(env: Env, s: State)
    requires AfterFirstRound(s)
    ensures var r := StepSetBilling(env, s, OWNER, PAYING);
            r.Success? && r.value.response.transfers == []
  {
    PayAllNothing(s);
    hide PayAll;
  }

  // ---------- a windfall ----------

  function DigestInForce(lib: Lib, self: Addr): Hash32 {
    ConfigAfter(lib, EnvOf(self, Start(), Ask(OWNER, BeginProposal)), Start().state.config,
                Agreed(0, true)).latestConfigDigest
  }

  function UpToFirstRound(self: Addr): seq<Act> {
    SetUp(0) + [Accept(PlainLib(), 0)] + [FirstTransmit(self)]
  }

  lemma ReachesInForce(lib: Lib, self: Addr)
    ensures InForce(lib, self, 0, Run(Machine(lib, self), Start(), SetUp(0) + [Accept(lib, 0)]).state)
  {
    ReachesFinalized(lib, self, 0);
    AcceptPutsInForce(lib, self, 0);
    hide Run, Drafted, StepAcceptProposal, InForce, Next, Accept;
    RunSnoc(Machine(lib, self), Start(), SetUp(0), Accept(lib, 0));
  }

  function FirstTransmit(self: Addr): Act {
    Ask(FIRST, FirstTransmission(DigestInForce(PlainLib(), self)))
  }

  lemma DigestWhenInForce(self: Addr, s: State)
    requires InForce(PlainLib(), self, 0, s)
    ensures s.config.latestConfigDigest == DigestInForce(PlainLib(), self)
  {
  }

  lemma TransmitOpensFirstRound(self: Addr, w: World)
    requires InForce(PlainLib(), self, 0, w.state)
    ensures AfterFirstRound(Next(PlainLib(), self, w, FirstTransmit(self)).state)
  {
    hide InForce, StepTransmit, AfterFirstRound, FirstContext, FirstReport, PlainLib, DigestInForce;
    var lib, transmit := PlainLib(), FirstTransmit(self);
    DigestWhenInForce(self, w.state);
    FirstSucceeds(lib, EnvOf(self, w, transmit), self, 0, w.state);
    hide Next, EnvOf;
    QuietStep(lib, self, w, transmit);
  }

  lemma ReachesFirstRound(self: Addr)
    ensures AfterFirstRound(Run(Machine(PlainLib(), self), Start(), UpToFirstRound(self)).state)
  {
    var lib := PlainLib();
    ReachesInForce(lib, self);
    var acts := SetUp(0) + [Accept(lib, 0)];
    hide Run, InForce, Next, SetUp, Accept, AfterFirstRound, FirstTransmit;
    TransmitOpensFirstRound(self, Run(Machine(lib, self), Start(), acts));
    RunSnoc(Machine(lib, self), Start(), acts, FirstTransmit(self));
  }

  lemma PayingIsWindfall(self: Addr, w: World)
    requires AfterFirstRound(w.state)
    ensures Windfall(PlainLib(), self, SECOND)(w, Ask(OWNER, SetBilling(PAYING))) == GIGA
  {
    var act := Ask(OWNER, SetBilling(PAYING));
    BillingSucceeds(EnvOf(self, w, act), w.state);
    hide StepSetBilling;
    QuietStep(PlainLib(), self, w, act);
    hide Committed;
  }

  /**
   The exception in the exact accounting happens: after one round under free billing, a change
   to paid observations makes a transmitter owed for the round it was not credited for.
   */
  lemma WindfallHappens(self: Addr)
    ensures var lib, acts := PlainLib(), UpToFirstRound(self) + [Ask(OWNER, SetBilling(PAYING))];
            && Fresh(Start())
            && Windfalls(lib, self, Start(), acts, SECOND) > 0
            && Paid(lib, self, Start(), acts, SECOND) + Outstanding(lib, self, Start(), acts, SECOND)
               > Credited(lib, self, Start(), acts, SECOND)
            && !SafeBilling(lib, self, At(Machine(lib, self), Start(), acts, |acts| - 1), acts[|acts| - 1])
  {
    var lib, front, act := PlainLib(), UpToFirstRound(self), Ask(OWNER, SetBilling(PAYING));
    var acts := front + [act];
    var w := Run(Machine(lib, self), Start(), front);
    ReachesFirstRound(self);
    PayingIsWindfall(self, w);
    assert acts[..|acts| - 1] == front;
    hide Run, UpToFirstRound, AfterFirstRound, Windfall;
    Accounting(lib, self, Start(), acts, SECOND);
    SafeMeansNoWindfall(lib, self, w, act);
  }

  // ---------- insolvency ----------

  lemma {:induction false} NoTokensNoTransfers(self: Addr, transfers: seq<Transfer>)
    ensures RunTransfers(map[], self, transfers).Some? <==> transfers == []
  {
    if |transfers| > 0 {
      NoTokensNoTransfers(self, transfers[..|transfers| - 1]);
      if |transfers| == 1 {
        assert transfers[..0] == [];
      }
    }
  }

  lemma NoTokensStep(lib: Lib, self: Addr, w: World, act: Act)
    requires w.tokens == map[]
    ensures Next(lib, self, w, act).tokens == map[] && TransfersOf(lib, self, w, act) == []
  {
    if Committed(lib, self, w, act).Some? {
      NoTokensNoTransfers(self, TransfersOf(lib, self, w, act));
    }
    hide Step;
  }

  lemma {:induction false} NoTokensAlong(lib: Lib, self: Addr, w: World, acts: seq<Act>)
    requires w.tokens == map[]
    ensures Run(Machine(lib, self), w, acts).tokens == map[]
  {
    hide Next;
    if |acts| > 0 {
      var front := acts[..|acts| - 1];
      NoTokensAlong(lib, self, w, front);
      NoTokensStep(lib, self, Run(Machine(lib, self), w, front), acts[|acts| - 1]);
    }
  }

  lemma DebtWithoutFunds(self: Addr, w: World, t: Addr)
    requires Inv(w.state) && w.tokens == map[] && OwedNow(t)(w) > 0
    ensures !Solvent(self, w)
  {
    TotalOwedZeroIff(w.state.config, w.state.transmitters);
    OwedNowIsOwed(w, t);
  }

  /** The contract accepts what makes it insolvent: the same run, with no token paid in, ends with an unfunded debt. */
  lemma InsolvencyHappens(self: Addr)
    ensures var lib, acts := PlainLib(), UpToFirstRound(self) + [Ask(OWNER, SetBilling(PAYING))];
            && Fresh(Start())
            && Inv(Run(Machine(lib, self), Start(), acts).state)
            && !Solvent(self, Run(Machine(lib, self), Start(), acts))
  {
    var lib, front, act := PlainLib(), UpToFirstRound(self), Ask(OWNER, SetBilling(PAYING));
    var w := Run(Machine(lib, self), Start(), front);
    ReachesFirstRound(self);
    PayingIsWindfall(self, w);
    NoTokensAlong(lib, self, Start(), front);
    ReachableInv(lib, self, Start(), front);
    ReachableInv(lib, self, Start(), front + [act]);
    RunSnoc(Machine(lib, self), Start(), front, act);
    hide Run, UpToFirstRound, AfterFirstRound, Windfall, Credit, Next, OwedNow, Inv, Solvent, PlainLib;
    NoTokensStep(lib, self, w, act);
    StepLedgerIn(lib, self, w, act, SECOND);
    DebtWithoutFunds(self, Next(lib, self, w, act), SECOND);
  }
}
