/**
 Whole runs of the contract on a chain: messages with arbitrary senders and surroundings,
 token transfers executed after each message, and transfers by others in between.
 */
module AggregatorRuns {
  import opened Wrappers
  import opened Bytes
  import opened Runs
  import opened Digest
  import opened AggregatorSpec
  import opened AggregatorPayouts
  import opened AggregatorInvariant

  type Tokens = map<Addr, map<Addr, uint128>>

  datatype World = World(state: State, tokens: Tokens)

  /** tokensAccept is false when a token contract refuses a transfer for reasons of its own. */
  datatype Act =
    | Call(chainId: seq<byte>, blockHeight: uint64, timeSeconds: uint64, hasAccess: bool, tokensAccept: bool,
           sender: Addr, msg: Msg)
    | Move(token: Addr, source: Addr, target: Addr, amount: uint128)

  // ---------- tokens ----------

  function Balance(tokens: Tokens, token: Addr, who: Addr): uint128 {
    if token in tokens && who in tokens[token] then tokens[token][who] else 0
  }

  function SetBalance(tokens: Tokens, token: Addr, who: Addr, balance: uint128): Tokens
    requires token in tokens
  {
    var balances: map<Addr, uint128> := map[who := balance];
    tokens[token := tokens[token] + balances]
  }

  function MoveTokens(tokens: Tokens, token: Addr, source: Addr, target: Addr, amount: uint128): Option<Tokens> {
    if token !in tokens || Balance(tokens, token, source) < amount then None
    else
      var debited := SetBalance(tokens, token, source, Balance(tokens, token, source) - amount);
      if Balance(debited, token, target) + amount >= TWO_128 then None
      else Some(SetBalance(debited, token, target, Balance(debited, token, target) + amount))
  }

  /** Transfers run in message order; one failure undoes the whole step. */
  function RunTransfers(tokens: Tokens, self: Addr, transfers: seq<Transfer>): Option<Tokens> {
    if |transfers| == 0 then Some(tokens)
    else
      match RunTransfers(tokens, self, transfers[..|transfers| - 1])
      case None => None
      case Some(before) =>
        var t := transfers[|transfers| - 1];
        MoveTokens(before, t.token, self, t.recipient, t.amount)
  }

  lemma {:induction false} RunTransfersDebits(tokens: Tokens, self: Addr, token: Addr, transfers: seq<Transfer>)
    requires RunTransfers(tokens, self, transfers).Some?
    requires forall i :: 0 <= i < |transfers| ==> transfers[i].token == token && transfers[i].recipient != self
    ensures Balance(RunTransfers(tokens, self, transfers).value, token, self) + Amounts(transfers)
         == Balance(tokens, token, self)
    ensures RunTransfers(tokens, self, transfers).value.Keys == tokens.Keys
  {
    if |transfers| > 0 {
      RunTransfersDebits(tokens, self, token, transfers[..|transfers| - 1]);
    }
  }

  // ---------- steps and runs ----------

  function EnvOf(self: Addr, w: World, act: Act): Env
    requires act.Call?
  {
    Env(act.chainId, self, act.blockHeight, act.timeSeconds, act.hasAccess,
        Balance(w.tokens, w.state.config.linkToken, self),
        act.msg.SetLinkToken? && act.msg.linkToken in w.tokens)
  }

  datatype Commit = Commit(outcome: Outcome, tokens: Tokens)

  /** The effect of a message that goes through together with its transfers. */
  ghost function Committed(lib: Lib, self: Addr, w: World, act: Act): Option<Commit>
  {
    if !act.Call? then None
    else
      match Step(lib, EnvOf(self, w, act), w.state, act.sender, act.msg)
      case Failure(_) => None
      case Success(outcome) =>
        if |outcome.response.transfers| > 0 && !act.tokensAccept then None
        else
          match RunTransfers(w.tokens, self, outcome.response.transfers)
          case None => None
          case Some(tokens) => Some(Commit(outcome, tokens))
  }

  ghost function Next(lib: Lib, self: Addr, w: World, act: Act): World {
    if act.Call? then
      match Committed(lib, self, w, act)
      case None => w
      case Some(c) => World(c.outcome.state, c.tokens)
    else if act.source == self then w
    else
      match MoveTokens(w.tokens, act.token, act.source, act.target, act.amount)
      case None => w
      case Some(tokens) => w.(tokens := tokens)
  }

  /** The contract on its chain as a machine. */
  ghost function Machine(lib: Lib, self: Addr): (World, Act) -> World {
    (w: World, act: Act) => Next(lib, self, w, act)
  }

  ghost function Good(): World -> bool {
    (w: World) => Inv(w.state)
  }

  /** A freshly instantiated contract, among any token balances. */
  ghost predicate Fresh(w: World) {
    w.state == InitialState(w.state.owner, w.state.config.linkToken, w.state.config.minAnswer, w.state.config.maxAnswer)
  }

  lemma CommittedKeeps(lib: Lib, self: Addr, w: World, act: Act)
    requires Inv(w.state) && Committed(lib, self, w, act).Some?
    ensures var s' := Committed(lib, self, w, act).value.outcome.state; Inv(s') && Grows(w.state, s')
  {
    StepKeeps(lib, EnvOf(self, w, act), w.state, act.sender, act.msg);
  }

  lemma NextKeeps(lib: Lib, self: Addr, w: World, act: Act)
    requires Inv(w.state)
    ensures Inv(Next(lib, self, w, act).state) && Grows(w.state, Next(lib, self, w, act).state)
  {
    if Committed(lib, self, w, act).Some? {
      CommittedKeeps(lib, self, w, act);
    } else {
      assert Next(lib, self, w, act).state == w.state;
    }
  }

  lemma GoodIsInductive(lib: Lib, self: Addr)
    ensures Inductive(Machine(lib, self), Good())
  {
    forall w: World, act: Act | Good()(w) ensures Good()(Machine(lib, self)(w, act)) {
      NextKeeps(lib, self, w, act);
    }
  }

  lemma FreshIsGood(w: World)
    requires Fresh(w)
    ensures Good()(w)
  {
    InitialInv(w.state.owner, w.state.config.linkToken, w.state.config.minAnswer, w.state.config.maxAnswer);
  }

  /** The invariant holds at the end of every run of a fresh contract. */
  lemma ReachableInv(lib: Lib, self: Addr, w: World, acts: seq<Act>)
    requires Fresh(w)
    ensures Inv(Run(Machine(lib, self), w, acts).state)
  {
    FreshIsGood(w);
    GoodIsInductive(lib, self);
    InvariantAlong(Machine(lib, self), Good(), w, acts);
  }

  // ---------- what stays ----------

  ghost function KeepsHistory(): (World, World) -> bool {
    (a: World, b: World) => HistoryKept(a.state, b.state)
  }

  lemma HistoryIsMonotone(lib: Lib, self: Addr)
    ensures Monotone(Machine(lib, self), Good(), KeepsHistory())
  {
    forall w: World, act: Act | Good()(w) ensures KeepsHistory()(w, Machine(lib, self)(w, act)) {
      NextKeeps(lib, self, w, act);
    }
  }

  /** A round once recorded reads the same at every later point of the run. */
  lemma RoundsWriteOnce(lib: Lib, self: Addr, w: World, acts: seq<Act>, i: nat, j: nat)
    requires Fresh(w) && i <= j <= |acts|
    ensures HistoryKept(At(Machine(lib, self), w, acts, i).state, At(Machine(lib, self), w, acts, j).state)
  {
    FreshIsGood(w);
    GoodIsInductive(lib, self);
    HistoryIsMonotone(lib, self);
    RelationAlong(Machine(lib, self), Good(), KeepsHistory(), w, acts, i, j);
    assert KeepsHistory()(At(Machine(lib, self), w, acts, i), At(Machine(lib, self), w, acts, j));
  }

  /** Ids only come from the counter, so a proposal that is gone never returns. */
  ghost predicate ProposalsStable(s: State, s': State) {
    && s.nextProposalId <= s'.nextProposalId
    && (forall id :: id in s'.proposals && id <= s.nextProposalId ==> id in s.proposals)
    && (forall id :: id in s.proposals && id in s'.proposals && s.proposals[id].finalized ==>
        s'.proposals[id] == s.proposals[id])
  }

  ghost function KeepsProposals(): (World, World) -> bool {
    (a: World, b: World) => Inv(a.state) ==> Inv(b.state) && ProposalsStable(a.state, b.state)
  }

  lemma ProposalsStableTransitive(a: State, b: State, c: State)
    requires Inv(a) && ProposalsStable(a, b) && ProposalsStable(b, c)
    ensures ProposalsStable(a, c)
  {
    forall id | id in a.proposals && id in c.proposals && a.proposals[id].finalized
      ensures c.proposals[id] == a.proposals[id]
    {
      assert id <= a.nextProposalId;
    }
  }

  lemma ProposalsAreMonotone(lib: Lib, self: Addr)
    ensures Monotone(Machine(lib, self), Good(), KeepsProposals())
  {
    forall w: World, act: Act | Good()(w) ensures KeepsProposals()(w, Machine(lib, self)(w, act)) {
      NextKeeps(lib, self, w, act);
    }
    forall a: World, b: World, c: World | KeepsProposals()(a, b) && KeepsProposals()(b, c)
      ensures KeepsProposals()(a, c)
    {
      if Inv(a.state) {
        ProposalsStableTransitive(a.state, b.state, c.state);
      }
    }
  }

  /** A finalized proposal that is still there has kept its content, and ids are not reused. */
  lemma FinalizedStaysFrozen(lib: Lib, self: Addr, w: World, acts: seq<Act>, i: nat, j: nat)
    requires Fresh(w) && i <= j <= |acts|
    ensures ProposalsStable(At(Machine(lib, self), w, acts, i).state, At(Machine(lib, self), w, acts, j).state)
  {
    FreshIsGood(w);
    GoodIsInductive(lib, self);
    ProposalsAreMonotone(lib, self);
    InvariantAlong(Machine(lib, self), Good(), w, acts[..i]);
    RelationAlong(Machine(lib, self), Good(), KeepsProposals(), w, acts, i, j);
    assert Good()(At(Machine(lib, self), w, acts, i));
    assert KeepsProposals()(At(Machine(lib, self), w, acts, i), At(Machine(lib, self), w, acts, j));
  }

  // ---------- no replay ----------

  predicate OrderAtMost(a: Config, b: Config) {
    (a.configCount == b.configCount && a.epoch == b.epoch && a.round == b.round) || OrderLess(a, b)
  }

  ghost function Ordered(): (World, World) -> bool {
    (a: World, b: World) => OrderAtMost(a.state.config, b.state.config)
  }

  lemma OrderIsMonotone(lib: Lib, self: Addr)
    ensures Monotone(Machine(lib, self), Good(), Ordered())
  {
    forall w: World, act: Act | Good()(w) ensures Ordered()(w, Machine(lib, self)(w, act)) {
      NextKeeps(lib, self, w, act);
    }
  }

  /** The context of an accepted transmission becomes the contract's own position. */
  lemma TransmissionMovesOrder(lib: Lib, self: Addr, w: World, act: Act)
    requires Inv(w.state) && Transmits(lib, self, w, act)
    ensures var config := Next(lib, self, w, act).state.config;
            && |act.msg.reportContext| == REPORT_CONTEXT_SIZE
            && ParseContext(act.msg.reportContext)
               == ReportContext(config.latestConfigDigest, config.epoch, config.round)
            && config.configCount > 0
            && OrderLess(w.state.config, config)
  {
    var m := act.msg;
    TransmitKeeps(lib, EnvOf(self, w, act), w.state, act.sender, m.reportContext, m.report, m.signatures);
  }

  ghost predicate Transmits(lib: Lib, self: Addr, w: World, act: Act) {
    act.Call? && act.msg.Transmit? && Committed(lib, self, w, act).Some?
  }

  ghost predicate Accepts(lib: Lib, self: Addr, w: World, act: Act) {
    act.Call? && act.msg.AcceptProposal? && Committed(lib, self, w, act).Some?
  }

  function PreimageOf(self: Addr, chainId: seq<byte>, config: Config, p: Proposal): Preimage
    requires config.configCount + 1 < TWO_32
  {
    Preimage(chainId, self, config.configCount + 1, Signers(p.oracles), Transmitters(p.oracles), p.f,
             OnchainConfig(config.minAnswer, config.maxAnswer), p.offchainConfigVersion, p.offchainConfig)
  }

  lemma AcceptedCounts(lib: Lib, self: Addr, w: World, act: Act)
    requires Accepts(lib, self, w, act)
    ensures act.msg.id in w.state.proposals && w.state.config.configCount + 1 < TWO_32 && |act.chainId| < TWO_8
    ensures var config := Next(lib, self, w, act).state.config;
            && config.configCount == w.state.config.configCount + 1
            && config.latestConfigDigest
               == Mask(lib.hash(PreimageOf(self, act.chainId, w.state.config, w.state.proposals[act.msg.id]).Bytes()))
  {
  }

  /** The digest preimage of an accepted proposal. */
  ghost function AcceptedPreimage(lib: Lib, self: Addr): (World, Act) -> seq<Preimage> {
    (w: World, act: Act) =>
      if Accepts(lib, self, w, act) && act.msg.id in w.state.proposals && w.state.config.configCount + 1 < TWO_32 then
        [PreimageOf(self, act.chainId, w.state.config, w.state.proposals[act.msg.id])]
      else []
  }

  ghost function Preimages(lib: Lib, self: Addr, w: World, acts: seq<Act>): seq<Preimage> {
    Log(Machine(lib, self), AcceptedPreimage(lib, self), w, acts)
  }

  /** The n-th accepted configuration has count n, and the current digest belongs to the last one. */
  ghost predicate DigestsMatch(lib: Lib, self: Addr, config: Config, ps: seq<Preimage>) {
    && |ps| == config.configCount
    && (forall k :: 0 <= k < |ps| ==> ps[k].configCount == k + 1 && ps[k].contract == self && |ps[k].chainId| < TWO_8)
    && (|ps| > 0 ==> config.latestConfigDigest == Mask(lib.hash(ps[|ps| - 1].Bytes())))
  }

  ghost function DigestsMatchAt(lib: Lib, self: Addr): (World, seq<Preimage>) -> bool {
    (w: World, ps: seq<Preimage>) => DigestsMatch(lib, self, w.state.config, ps)
  }

  lemma OtherStepsKeepDigest(lib: Lib, self: Addr, w: World, act: Act)
    requires !Accepts(lib, self, w, act)
    ensures var config := Next(lib, self, w, act).state.config;
            config.configCount == w.state.config.configCount
              && config.latestConfigDigest == w.state.config.latestConfigDigest
  {
    var config := Next(lib, self, w, act).state.config;
    if Committed(lib, self, w, act).Some? {
      assert config == Committed(lib, self, w, act).value.outcome.state.config;
      StepDigest(lib, EnvOf(self, w, act), w.state, act.sender, act.msg);
    } else {
      assert config == w.state.config;
    }
  }

  lemma DigestsMatchStep(lib: Lib, self: Addr, w: World, act: Act, ps: seq<Preimage>)
    requires DigestsMatch(lib, self, w.state.config, ps)
    ensures DigestsMatch(lib, self, Next(lib, self, w, act).state.config, ps + AcceptedPreimage(lib, self)(w, act))
  {
    if Accepts(lib, self, w, act) {
      AcceptedCounts(lib, self, w, act);
    } else {
      OtherStepsKeepDigest(lib, self, w, act);
      assert ps + [] == ps;
    }
  }

  lemma DigestOfCurrentConfig(lib: Lib, self: Addr, w: World, acts: seq<Act>)
    requires Fresh(w)
    ensures DigestsMatch(lib, self, Run(Machine(lib, self), w, acts).state.config, Preimages(lib, self, w, acts))
  {
    var inv := DigestsMatchAt(lib, self);
    forall v: World, act: Act, ps: seq<Preimage> | inv(v, ps)
      ensures inv(Machine(lib, self)(v, act), ps + AcceptedPreimage(lib, self)(v, act))
    {
      DigestsMatchStep(lib, self, v, act, ps);
    }
    LogInvariantAlong(Machine(lib, self), AcceptedPreimage(lib, self), inv, w, acts);
    assert inv(Run(Machine(lib, self), w, acts), Log(Machine(lib, self), AcceptedPreimage(lib, self), w, acts));
  }

  /** No two of these preimages collide after masking. */
  ghost predicate CollisionFree(lib: Lib, ps: seq<Preimage>) {
    forall a, b :: a in ps && b in ps && Mask(lib.hash(a.Bytes())) == Mask(lib.hash(b.Bytes())) ==>
      a.Bytes() == b.Bytes()
  }

  /** Different configuration counts have different digests. */
  lemma DigestsDiffer(lib: Lib, self: Addr, a: Config, ps: seq<Preimage>, b: Config, qs: seq<Preimage>,
      all: seq<Preimage>)
    requires DigestsMatch(lib, self, a, ps) && DigestsMatch(lib, self, b, qs)
    requires ps <= all && qs <= all && CollisionFree(lib, all)
    requires 0 < a.configCount < b.configCount
    ensures a.latestConfigDigest != b.latestConfigDigest
  {
    if a.latestConfigDigest == b.latestConfigDigest {
      var p, q := ps[|ps| - 1], qs[|qs| - 1];
      assert p == all[|ps| - 1] && q == all[|qs| - 1];
      assert p in all && q in all;
      HeadUnambiguous(p, q);
    }
  }

  ghost predicate TransmitsAt(lib: Lib, self: Addr, w: World, acts: seq<Act>, i: nat) {
    i < |acts| && Transmits(lib, self, At(Machine(lib, self), w, acts, i), acts[i])
  }

  /** The configuration record right after the i-th act. */
  ghost function ConfigAfterAct(lib: Lib, self: Addr, w: World, acts: seq<Act>, i: nat): Config
    requires i < |acts|
  {
    At(Machine(lib, self), w, acts, i + 1).state.config
  }

  lemma TransmissionInRun(lib: Lib, self: Addr, w: World, acts: seq<Act>, i: nat)
    requires Fresh(w) && TransmitsAt(lib, self, w, acts, i)
    ensures var config := ConfigAfterAct(lib, self, w, acts, i);
            && |acts[i].msg.reportContext| == REPORT_CONTEXT_SIZE
            && ParseContext(acts[i].msg.reportContext)
               == ReportContext(config.latestConfigDigest, config.epoch, config.round)
            && config.configCount > 0
            && OrderLess(At(Machine(lib, self), w, acts, i).state.config, config)
  {
    FreshIsGood(w);
    GoodIsInductive(lib, self);
    InvariantAlong(Machine(lib, self), Good(), w, acts[..i]);
    AtNext(Machine(lib, self), w, acts, i);
    TransmissionMovesOrder(lib, self, At(Machine(lib, self), w, acts, i), acts[i]);
  }

  lemma OrderAlong(lib: Lib, self: Addr, w: World, acts: seq<Act>, i: nat, j: nat)
    requires Fresh(w) && i <= j <= |acts|
    ensures OrderAtMost(At(Machine(lib, self), w, acts, i).state.config,
                        At(Machine(lib, self), w, acts, j).state.config)
  {
    FreshIsGood(w);
    GoodIsInductive(lib, self);
    OrderIsMonotone(lib, self);
    RelationAlong(Machine(lib, self), Good(), Ordered(), w, acts, i, j);
    assert Ordered()(At(Machine(lib, self), w, acts, i), At(Machine(lib, self), w, acts, j));
  }

  lemma DigestsInRun(lib: Lib, self: Addr, w: World, acts: seq<Act>, i: nat)
    requires Fresh(w) && i < |acts|
    ensures DigestsMatch(lib, self, ConfigAfterAct(lib, self, w, acts, i), Preimages(lib, self, w, acts[..i + 1]))
    ensures Preimages(lib, self, w, acts[..i + 1]) <= Preimages(lib, self, w, acts)
  {
    DigestOfCurrentConfig(lib, self, w, acts[..i + 1]);
    LogPrefix(Machine(lib, self), AcceptedPreimage(lib, self), w, acts, i + 1);
  }

  /** No two accepted transmissions of a run carry the same digest, epoch and round. */
  lemma NoReplay(lib: Lib, self: Addr, w: World, acts: seq<Act>, i: nat, j: nat)
    requires Fresh(w) && i < j && TransmitsAt(lib, self, w, acts, i) && TransmitsAt(lib, self, w, acts, j)
    requires CollisionFree(lib, Preimages(lib, self, w, acts))
    ensures |acts[i].msg.reportContext| == |acts[j].msg.reportContext| == REPORT_CONTEXT_SIZE
    ensures ParseContext(acts[i].msg.reportContext) != ParseContext(acts[j].msg.reportContext)
  {
    TransmissionInRun(lib, self, w, acts, i);
    TransmissionInRun(lib, self, w, acts, j);
    OrderAlong(lib, self, w, acts, i + 1, j);
    var a, b := ConfigAfterAct(lib, self, w, acts, i), ConfigAfterAct(lib, self, w, acts, j);
    if a.configCount < b.configCount {
      DigestsInRun(lib, self, w, acts, i);
      DigestsInRun(lib, self, w, acts, j);
      DigestsDiffer(lib, self, a, Preimages(lib, self, w, acts[..i + 1]), b, Preimages(lib, self, w, acts[..j + 1]),
                    Preimages(lib, self, w, acts));
    }
  }
}
