/**
 The phase proxy: a stable front for a sequence of aggregator contracts. A round id of the proxy
 carries the phase in its upper bits and the aggregator's own round id in its lower 32.
 */
module ProxySpec {
  import opened Wrappers
  import opened Bytes
  import opened AggregatorSpec

  datatype Phase = Phase(id: uint16, address: Addr)

  datatype Proxy = Proxy(owner: Addr, current: Phase, phases: map<uint16, Addr>, proposed: Option<Addr>)

  datatype ProxyMsg = ProposeContract(address: Addr) | ConfirmContract(address: Addr)

  datatype ProxyError = NotOwner | NothingProposed | Invalid | IdOverflow

  function InitialProxy(owner: Addr, address: Addr): Proxy {
    Proxy(owner, Phase(1, address), map[1 := address], None)
  }

  function StepProxy(p: Proxy, sender: Addr, msg: ProxyMsg): Result<Proxy, ProxyError> {
    if sender != p.owner then Failure(NotOwner)
    else
      match msg
      case ProposeContract(address) => Success(p.(proposed := Some(address)))
      case ConfirmContract(address) =>
        if p.proposed.None? then Failure(NothingProposed)
        else if p.proposed.value != address then Failure(Invalid)
        else if p.current.id + 1 >= TWO_16 then Failure(IdOverflow)
        else Success(Proxy(p.owner, Phase(p.current.id + 1, address), p.phases[p.current.id + 1 := address], None))
  }

  // ---------- round ids ----------

  /** Both parts are truncated to their width. */
  function ParseRoundId(roundId: uint64): (uint16, uint32) {
    (roundId / TWO_32 % TWO_16, roundId % TWO_32)
  }

  function RoundIdOf(phaseId: uint16, roundId: uint32): uint64 {
    phaseId * TWO_32 + roundId
  }

  /** Parsing undoes the numbering. */
  lemma ParseUndoesNumbering(phaseId: uint16, roundId: uint32)
    ensures ParseRoundId(RoundIdOf(phaseId, roundId)) == (phaseId, roundId)
  {
    assert (phaseId * TWO_32 + roundId) / TWO_32 == phaseId;
    assert (phaseId * TWO_32 + roundId) % TWO_32 == roundId;
  }

  /** Numbering undoes the parsing exactly for ids that fit into 48 bits. */
  lemma NumberingUndoesParseIff(roundId: uint64)
    ensures RoundIdOf(ParseRoundId(roundId).0, ParseRoundId(roundId).1) == roundId <==> roundId < TWO_16 * TWO_32
  {
    assert roundId == roundId / TWO_32 * TWO_32 + roundId % TWO_32;
    if roundId < TWO_16 * TWO_32 {
      assert roundId / TWO_32 < TWO_16;
    }
  }

  // ---------- queries ----------

  datatype Round = Round(roundId: nat, transmission: Transmission)

  function AggregatorRound(s: State, roundId: uint32): Option<Round> {
    if roundId in s.transmissions then Some(Round(roundId, s.transmissions[roundId])) else None
  }

  function AggregatorLatestRound(s: State): Option<Round> {
    AggregatorRound(s, s.config.latestAggregatorRoundId)
  }

  type Contracts = map<Addr, State>

  /** A query to an address where no aggregator lives fails. */
  function QueryRound(contracts: Contracts, address: Addr, roundId: uint32): Option<Round> {
    if address in contracts then AggregatorRound(contracts[address], roundId) else None
  }

  function QueryLatestRound(contracts: Contracts, address: Addr): Option<Round> {
    if address in contracts then AggregatorLatestRound(contracts[address]) else None
  }

  function WithPhaseId(r: Option<Round>, phaseId: uint16): Option<Round> {
    match r
    case None => None
    case Some(round) =>
      if round.roundId < TWO_32 then Some(Round(RoundIdOf(phaseId, round.roundId), round.transmission)) else None
  }

  function RoundData(p: Proxy, contracts: Contracts, roundId: uint64): Option<Round> {
    var parsed := ParseRoundId(roundId);
    if parsed.0 !in p.phases then None
    else WithPhaseId(QueryRound(contracts, p.phases[parsed.0], parsed.1), parsed.0)
  }

  function LatestRoundData(p: Proxy, contracts: Contracts): Option<Round> {
    WithPhaseId(QueryLatestRound(contracts, p.current.address), p.current.id)
  }

  /** Only the lower 48 bits of the id asked for matter. */
  lemma UpperBitsAreIgnored(p: Proxy, contracts: Contracts, roundId: uint64)
    ensures RoundData(p, contracts, roundId) == RoundData(p, contracts, roundId % (TWO_16 * TWO_32))
  {
    ModOfMod(roundId);
    hide QueryRound, WithPhaseId;
  }

  lemma ModOfMod(roundId: uint64)
    ensures ParseRoundId(roundId % (TWO_16 * TWO_32)) == ParseRoundId(roundId)
  {
    var low := roundId % (TWO_16 * TWO_32);
    var k := roundId / (TWO_16 * TWO_32);
    assert roundId == k * TWO_16 * TWO_32 + low;
    assert roundId / TWO_32 == k * TWO_16 + low / TWO_32;
  }

  /** A round that is answered carries the id asked for exactly if that id fits into 48 bits. */
  lemma AnswersWithTheIdIff(p: Proxy, contracts: Contracts, roundId: uint64)
    requires RoundData(p, contracts, roundId).Some?
    ensures RoundData(p, contracts, roundId).value.roundId == roundId <==> roundId < TWO_16 * TWO_32
  {
    NumberingUndoesParseIff(roundId);
    hide ParseRoundId, RoundIdOf;
  }

  /** The latest round is answered exactly when an aggregator lives at the current address and has a round. */
  lemma LatestAnswersIff(p: Proxy, contracts: Contracts)
    ensures LatestRoundData(p, contracts).Some? <==>
            && p.current.address in contracts
            && var s := contracts[p.current.address]; s.config.latestAggregatorRoundId in s.transmissions
  {
  }

  // ---------- invariant ----------

  /** The recorded phases are 1 up to the current one, which is where the current address is. */
  ghost predicate PhasesComplete(p: Proxy) {
    && p.current.id >= 1
    && (forall id: uint16 :: id in p.phases <==> 1 <= id <= p.current.id)
    && p.phases[p.current.id] == p.current.address
  }

  /** Phases are only added. */
  ghost predicate PhasesKept(p: Proxy, p': Proxy) {
    && p.current.id <= p'.current.id
    && (forall id :: id in p.phases ==> id in p'.phases && p'.phases[id] == p.phases[id])
  }

  lemma StepProxyKeeps(p: Proxy, sender: Addr, msg: ProxyMsg)
    requires PhasesComplete(p) && StepProxy(p, sender, msg).Success?
    ensures PhasesComplete(StepProxy(p, sender, msg).value) && PhasesKept(p, StepProxy(p, sender, msg).value)
    ensures StepProxy(p, sender, msg).value.current.id
         == if msg.ConfirmContract? then p.current.id + 1 else p.current.id
  {
  }

  /** Asking for the latest round by its id gives the latest round. */
  lemma LatestIsFoundById(p: Proxy, contracts: Contracts)
    requires PhasesComplete(p) && LatestRoundData(p, contracts).Some?
    ensures var latest := LatestRoundData(p, contracts).value;
            latest.roundId < TWO_64 && RoundData(p, contracts, latest.roundId) == Some(latest)
  {
    var round := QueryLatestRound(contracts, p.current.address).value;
    ParseUndoesNumbering(p.current.id, round.roundId);
  }
}
