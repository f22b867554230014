/**
 The proxy together with the aggregators behind it: runs in which the proxy moves from phase to
 phase while any number of aggregators are deployed and go on living.
 */
module ProxyRuns {
  import opened Wrappers
  import opened Bytes
  import opened Runs
  import opened AggregatorSpec
  import opened AggregatorInvariant
  import opened ProxySpec

  datatype System = System(proxy: Proxy, contracts: Contracts)

  /** commits is false when a step's token transfers fail and the step is undone. */
  datatype Act =
    | Deploy(address: Addr, owner: Addr, linkToken: Addr, minAnswer: int128, maxAnswer: int128)
    | CallAggregator(address: Addr, env: Env, sender: Addr, msg: Msg, commits: bool)
    | CallProxy(caller: Addr, request: ProxyMsg)

  ghost function Next(lib: Lib, w: System, act: Act): System {
    match act
    case Deploy(address, owner, linkToken, minAnswer, maxAnswer) =>
      if address in w.contracts then w
      else w.(contracts := w.contracts[address := InitialState(owner, linkToken, minAnswer, maxAnswer)])
    case CallAggregator(address, env, sender, msg, commits) =>
      if address !in w.contracts || !commits then w
      else
        (match Step(lib, env, w.contracts[address], sender, msg)
         case Success(o) => w.(contracts := w.contracts[address := o.state])
         case Failure(_) => w)
    case CallProxy(caller, request) =>
      (match StepProxy(w.proxy, caller, request)
       case Success(p) => w.(proxy := p)
       case Failure(_) => w)
  }

  ghost function Machine(lib: Lib): (System, Act) -> System {
    (w: System, act: Act) => Next(lib, w, act)
  }

  ghost predicate ContractsGood(contracts: Contracts) {
    forall a :: a in contracts ==> Inv(contracts[a])
  }

  ghost predicate ContractsKept(before: Contracts, after: Contracts) {
    forall a :: a in before ==> a in after && HistoryKept(before[a], after[a])
  }

  ghost predicate SystemGood(w: System) {
    PhasesComplete(w.proxy) && ContractsGood(w.contracts)
  }

  ghost predicate SystemKept(before: System, after: System) {
    PhasesKept(before.proxy, after.proxy) && ContractsKept(before.contracts, after.contracts)
  }

  ghost function Good(): System -> bool {
    (w: System) => SystemGood(w)
  }

  ghost function Keeps(): (System, System) -> bool {
    (a: System, b: System) => SystemKept(a, b)
  }

  lemma SystemKeptOn(a: System, b: System, c: System)
    requires SystemKept(a, b) && SystemKept(b, c)
    ensures SystemKept(a, c)
  {
    forall x | x in a.contracts ensures x in c.contracts && HistoryKept(a.contracts[x], c.contracts[x]) {
      assert HistoryKept(a.contracts[x], b.contracts[x]) && HistoryKept(b.contracts[x], c.contracts[x]);
    }
  }

  lemma NextKeeps(lib: Lib, w: System, act: Act)
    requires SystemGood(w)
    ensures SystemGood(Next(lib, w, act)) && SystemKept(w, Next(lib, w, act))
  {
    hide Inv, Step, InitialState;
    match act {
      case Deploy(address, owner, linkToken, minAnswer, maxAnswer) =>
        InitialInv(owner, linkToken, minAnswer, maxAnswer);
      case CallAggregator(address, env, sender, msg, commits) =>
        if address in w.contracts && Step(lib, env, w.contracts[address], sender, msg).Success? {
          StepKeeps(lib, env, w.contracts[address], sender, msg);
        }
      case CallProxy(caller, request) =>
        if StepProxy(w.proxy, caller, request).Success? {
          StepProxyKeeps(w.proxy, caller, request);
        }
    }
  }

  /** The proxy as instantiated, among any aggregators in reachable states. */
  ghost predicate Fresh(w: System) {
    w.proxy == InitialProxy(w.proxy.owner, w.proxy.current.address) && ContractsGood(w.contracts)
  }

  lemma RunFacts(lib: Lib)
    ensures Inductive(Machine(lib), Good()) && Monotone(Machine(lib), Good(), Keeps())
  {
    hide SystemGood, SystemKept, Next;
    forall w: System, act: Act | SystemGood(w)
      ensures SystemGood(Next(lib, w, act)) && SystemKept(w, Next(lib, w, act))
    {
      NextKeeps(lib, w, act);
    }
    forall w: System ensures SystemKept(w, w) {
      KeptSelf(w);
    }
    forall a: System, b: System, c: System | SystemKept(a, b) && SystemKept(b, c) ensures SystemKept(a, c) {
      SystemKeptOn(a, b, c);
    }
  }

  lemma KeptSelf(w: System)
    ensures SystemKept(w, w)
  {
  }

  lemma FreshIsGood(w: System)
    requires Fresh(w)
    ensures SystemGood(w)
  {
  }

  /** In every run the phases are exactly 1 up to the current id, and agree with the current address. */
  lemma ReachableGood(lib: Lib, w: System, acts: seq<Act>)
    requires Fresh(w)
    ensures SystemGood(Run(Machine(lib), w, acts))
  {
    FreshIsGood(w);
    RunFacts(lib);
    hide SystemGood, Fresh, Inductive, Monotone;
    InvariantAlong(Machine(lib), Good(), w, acts);
  }

  lemma KeptBetween(lib: Lib, w: System, acts: seq<Act>, i: nat, j: nat)
    requires Fresh(w) && i <= j <= |acts|
    ensures SystemKept(At(Machine(lib), w, acts, i), At(Machine(lib), w, acts, j))
    ensures SystemGood(At(Machine(lib), w, acts, i)) && SystemGood(At(Machine(lib), w, acts, j))
  {
    ReachableGood(lib, w, acts[..i]);
    ReachableGood(lib, w, acts[..j]);
    FreshIsGood(w);
    RunFacts(lib);
    hide SystemGood, SystemKept, Fresh, Inductive, Monotone;
    RelationAlong(Machine(lib), Good(), Keeps(), w, acts, i, j);
  }

  lemma KeptAnswers(a: System, b: System, roundId: uint64)
    requires SystemKept(a, b) && RoundData(a.proxy, a.contracts, roundId).Some?
    ensures RoundData(b.proxy, b.contracts, roundId) == RoundData(a.proxy, a.contracts, roundId)
  {
    var parsed := ParseRoundId(roundId);
    hide ParseRoundId;
    var address := a.proxy.phases[parsed.0];
    assert b.proxy.phases[parsed.0] == address;
    assert HistoryKept(a.contracts[address], b.contracts[address]);
  }

  /** A round id that was answered once is answered the same ever after, whatever phases follow. */
  lemma AnswersAreStable(lib: Lib, w: System, acts: seq<Act>, i: nat, j: nat, roundId: uint64)
    requires Fresh(w) && i <= j <= |acts|
    requires RoundData(At(Machine(lib), w, acts, i).proxy, At(Machine(lib), w, acts, i).contracts, roundId).Some?
    ensures RoundData(At(Machine(lib), w, acts, j).proxy, At(Machine(lib), w, acts, j).contracts, roundId)
         == RoundData(At(Machine(lib), w, acts, i).proxy, At(Machine(lib), w, acts, i).contracts, roundId)
  {
    KeptBetween(lib, w, acts, i, j);
    hide SystemKept, Fresh, RoundData, At;
    KeptAnswers(At(Machine(lib), w, acts, i), At(Machine(lib), w, acts, j), roundId);
  }

  lemma LaterIsHigher(phase: uint16, phase': uint16, round: uint32, round': uint32)
    requires phase < phase' || (phase == phase' && round <= round')
    ensures RoundIdOf(phase, round) <= RoundIdOf(phase', round')
  {
  }

  lemma LatestShape(p: Proxy, contracts: Contracts)
    requires LatestRoundData(p, contracts).Some?
    ensures p.current.address in contracts
    ensures LatestRoundData(p, contracts).value.roundId
         == RoundIdOf(p.current.id, contracts[p.current.address].config.latestAggregatorRoundId)
  {
  }

  lemma KeptLatest(a: System, b: System)
    requires SystemGood(a) && SystemGood(b) && SystemKept(a, b)
    requires LatestRoundData(a.proxy, a.contracts).Some? && LatestRoundData(b.proxy, b.contracts).Some?
    ensures LatestRoundData(a.proxy, a.contracts).value.roundId <= LatestRoundData(b.proxy, b.contracts).value.roundId
  {
    LatestShape(a.proxy, a.contracts);
    LatestShape(b.proxy, b.contracts);
    hide LatestRoundData, RoundIdOf, ContractsGood;
    var phase, phase' := a.proxy.current, b.proxy.current;
    if phase.id == phase'.id {
      assert phase'.address == b.proxy.phases[phase'.id] == a.proxy.phases[phase.id] == phase.address;
      assert HistoryKept(a.contracts[phase.address], b.contracts[phase.address]);
    }
    LaterIsHigher(phase.id, phase'.id, a.contracts[phase.address].config.latestAggregatorRoundId,
                  b.contracts[phase'.address].config.latestAggregatorRoundId);
  }

  /** The latest round ids answered never decrease, also across phases. */
  lemma LatestNeverDecreases(lib: Lib, w: System, acts: seq<Act>, i: nat, j: nat)
    requires Fresh(w) && i <= j <= |acts|
    requires LatestRoundData(At(Machine(lib), w, acts, i).proxy, At(Machine(lib), w, acts, i).contracts).Some?
    requires LatestRoundData(At(Machine(lib), w, acts, j).proxy, At(Machine(lib), w, acts, j).contracts).Some?
    ensures LatestRoundData(At(Machine(lib), w, acts, i).proxy, At(Machine(lib), w, acts, i).contracts).value.roundId
         <= LatestRoundData(At(Machine(lib), w, acts, j).proxy, At(Machine(lib), w, acts, j).contracts).value.roundId
  {
    KeptBetween(lib, w, acts, i, j);
    hide SystemKept, SystemGood, Fresh, LatestRoundData, At;
    KeptLatest(At(Machine(lib), w, acts, i), At(Machine(lib), w, acts, j));
  }

  /** In any run the latest round is answered exactly if the current aggregator exists and has had a round. */
  lemma LatestAnswersAlongIff(lib: Lib, w: System, acts: seq<Act>)
    requires Fresh(w)
    ensures var end := Run(Machine(lib), w, acts);
            LatestRoundData(end.proxy, end.contracts).Some? <==>
            && end.proxy.current.address in end.contracts
            && end.contracts[end.proxy.current.address].config.latestAggregatorRoundId >= 1
  {
    ReachableGood(lib, w, acts);
    var end := Run(Machine(lib), w, acts);
    LatestAnswersIff(end.proxy, end.contracts);
    hide LatestRoundData, Run, PhasesComplete;
    if end.proxy.current.address in end.contracts {
      assert Inv(end.contracts[end.proxy.current.address]);
    }
  }

  /** Confirming a contract without rounds makes the proxy stop answering for the latest round. */
  lemma EmptyPhaseStopsAnswers(lib: Lib, w: System, caller: Addr, address: Addr)
    requires SystemGood(w) && StepProxy(w.proxy, caller, ConfirmContract(address)).Success?
    requires address in w.contracts ==> w.contracts[address].config.latestAggregatorRoundId == 0
    ensures var after := Next(lib, w, CallProxy(caller, ConfirmContract(address)));
            LatestRoundData(after.proxy, after.contracts).None?
  {
    var after := Next(lib, w, CallProxy(caller, ConfirmContract(address)));
    LatestAnswersIff(after.proxy, after.contracts);
    if address in w.contracts {
      assert Inv(w.contracts[address]);
    }
    hide LatestRoundData;
  }

  /** At any point of a run, asking for the latest round by its id gives that round. */
  lemma LatestRoundIsItsRoundData(lib: Lib, w: System, acts: seq<Act>)
    requires Fresh(w)
    requires LatestRoundData(Run(Machine(lib), w, acts).proxy, Run(Machine(lib), w, acts).contracts).Some?
    ensures var end := Run(Machine(lib), w, acts);
            var latest := LatestRoundData(end.proxy, end.contracts).value;
            latest.roundId < TWO_64 && RoundData(end.proxy, end.contracts, latest.roundId) == Some(latest)
  {
    ReachableGood(lib, w, acts);
    LatestIsFoundById(Run(Machine(lib), w, acts).proxy, Run(Machine(lib), w, acts).contracts);
  }
}
