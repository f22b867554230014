/** The proxy contract with its storage items as fields. */
module ProxyContract {
  import opened Wrappers
  import opened Bytes
  import opened AggregatorSpec
  import opened ProxySpec

  class ProxyStore {
    var owner: Addr
    var currentPhase: Phase
    var proposedContract: Option<Addr>
    var phases: map<uint16, Addr>

    function Storage(): Proxy
      reads this
    {
      Proxy(owner, currentPhase, phases, proposedContract)
    }

    constructor (sender: Addr, contractAddress: Addr)
      ensures Storage() == InitialProxy(sender, contractAddress) && PhasesComplete(Storage())
    {
      owner := sender;
      phases := map[1 := contractAddress];
      currentPhase := Phase(1, contractAddress);
      proposedContract := None;
    }

    /** A failed step leaves the storage as it was. */
    ghost predicate Follows(before: Proxy, r: Result<(), ProxyError>, spec: Result<Proxy, ProxyError>)
      reads this
    {
      match spec
      case Success(after) => r.Success? && Storage() == after
      case Failure(e) => r == Failure(e) && Storage() == before
    }

    method ProposeContract(sender: Addr, address: Addr) returns (r: Result<(), ProxyError>)
      modifies this
      ensures Follows(old(Storage()), r, StepProxy(old(Storage()), sender, ProxyMsg.ProposeContract(address)))
    {
      if sender != owner {
        return Failure(NotOwner);
      }
      proposedContract := Some(address);
      return Success(());
    }

    method ConfirmContract(sender: Addr, address: Addr) returns (r: Result<(), ProxyError>)
      modifies this
      ensures Follows(old(Storage()), r, StepProxy(old(Storage()), sender, ProxyMsg.ConfirmContract(address)))
      ensures old(PhasesComplete(Storage())) ==> PhasesComplete(Storage()) && PhasesKept(old(Storage()), Storage())
    {
      if sender != owner {
        return Failure(NotOwner);
      }
      if proposedContract.None? {
        return Failure(NothingProposed);
      }
      if proposedContract.value != address {
        return Failure(Invalid);
      }
      if currentPhase.id + 1 >= TWO_16 {
        return Failure(IdOverflow);
      }
      proposedContract := None;
      var id: uint16 := currentPhase.id + 1;
      currentPhase := Phase(id, address);
      phases := phases[id := address];
      return Success(());
    }

    method QueryRoundData(contracts: Contracts, roundId: uint64) returns (r: Option<Round>)
      ensures r == RoundData(Storage(), contracts, roundId)
      ensures r == RoundData(Storage(), contracts, roundId % (TWO_16 * TWO_32))
      ensures r.Some? ==> (r.value.roundId == roundId <==> roundId < TWO_16 * TWO_32)
    {
      UpperBitsAreIgnored(Storage(), contracts, roundId);
      if RoundData(Storage(), contracts, roundId).Some? {
        AnswersWithTheIdIff(Storage(), contracts, roundId);
      }
      var phaseId: uint16, aggregatorRound: uint32 := roundId / TWO_32 % TWO_16, roundId % TWO_32;
      if phaseId !in phases {
        return None;
      }
      return WithPhaseId(QueryRound(contracts, phases[phaseId], aggregatorRound), phaseId);
    }

    method QueryLatestRoundData(contracts: Contracts) returns (r: Option<Round>)
      ensures r == LatestRoundData(Storage(), contracts)
      ensures PhasesComplete(Storage()) && r.Some? ==>
                r.value.roundId < TWO_64 && RoundData(Storage(), contracts, r.value.roundId) == r
    {
      if PhasesComplete(Storage()) && LatestRoundData(Storage(), contracts).Some? {
        LatestIsFoundById(Storage(), contracts);
      }
      var phase := currentPhase;
      return WithPhaseId(QueryLatestRound(contracts, phase.address), phase.id);
    }
  }
}
