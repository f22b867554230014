/**
 Who moves the proxy, and what its queries answer, spelled out in numbers: the exact condition for
 every message, where each phase of a run comes from, and which record a round id names.
 */
module ProxyGuards {
  import opened Wrappers
  import opened Bytes
  import opened Runs
  import opened AggregatorSpec
  import opened ProxySpec
  import opened ProxyRuns

  /** A message goes through exactly for the owner; a confirmation only of what is proposed, below the last phase. */
  lemma StepProxyIff(p: Proxy, sender: Addr, msg: ProxyMsg)
    ensures StepProxy(p, sender, msg).Success? <==>
            && sender == p.owner
            && (msg.ConfirmContract? ==> p.proposed == Some(msg.address) && p.current.id < 65_535)
    ensures StepProxy(p, sender, msg).Success? ==>
              var p' := StepProxy(p, sender, msg).value;
              && p'.owner == p.owner
              && (msg.ProposeContract? ==>
                    p'.proposed == Some(msg.address) && p'.current == p.current && p'.phases == p.phases)
              && (msg.ConfirmContract? ==>
                    && p'.proposed == None && p'.current.id == p.current.id + 1 && p'.current.address == msg.address
                    && p'.phases.Keys == p.phases.Keys + {p.current.id + 1}
                    && p'.phases[p.current.id + 1] == msg.address)
  {
  }

  // ---------- where phases come from ----------

  ghost predicate ProposesAt(acts: seq<Act>, i: nat, owner: Addr, address: Addr) {
    i < |acts| && acts[i] == CallProxy(owner, ProposeContract(address))
  }

  /** From the i-th act on, the owner proposes nothing before the j-th. */
  ghost predicate NoProposalSince(acts: seq<Act>, i: nat, j: nat, owner: Addr) {
    forall k :: i < k < j && k < |acts| ==>
      !(acts[k].CallProxy? && acts[k].caller == owner && acts[k].request.ProposeContract?)
  }

  /** The owner proposed the address, and nothing else since. */
  ghost predicate LastProposed(acts: seq<Act>, owner: Addr, address: Addr) {
    exists i: nat :: ProposesAt(acts, i, owner, address) && NoProposalSince(acts, i, |acts|, owner)
  }

  ghost predicate ConfirmsAt(acts: seq<Act>, i: nat, j: nat, owner: Addr, address: Addr) {
    && ProposesAt(acts, i, owner, address)
    && i < j < |acts| && acts[j] == CallProxy(owner, ConfirmContract(address))
    && NoProposalSince(acts, i, j, owner)
  }

  /** The owner proposed the address and later confirmed it, without another proposal in between. */
  ghost predicate Agreed(acts: seq<Act>, owner: Addr, address: Addr) {
    exists i: nat, j: nat :: ConfirmsAt(acts, i, j, owner, address)
  }

  lemma AgreedStays(acts: seq<Act>, act: Act, owner: Addr, address: Addr)
    requires Agreed(acts, owner, address)
    ensures Agreed(acts + [act], owner, address)
  {
    var i: nat, j: nat :| ConfirmsAt(acts, i, j, owner, address);
    assert ConfirmsAt(acts + [act], i, j, owner, address);
  }

  lemma ProposalStays(acts: seq<Act>, act: Act, owner: Addr, address: Addr)
    requires LastProposed(acts, owner, address)
    requires !(act.CallProxy? && act.caller == owner && act.request.ProposeContract?)
    ensures LastProposed(acts + [act], owner, address)
  {
    var i: nat :| ProposesAt(acts, i, owner, address) && NoProposalSince(acts, i, |acts|, owner);
    assert ProposesAt(acts + [act], i, owner, address) && NoProposalSince(acts + [act], i, |acts| + 1, owner);
  }

  lemma Proposed(acts: seq<Act>, owner: Addr, address: Addr)
    ensures LastProposed(acts + [CallProxy(owner, ProposeContract(address))], owner, address)
  {
    var acts' := acts + [CallProxy(owner, ProposeContract(address))];
    assert ProposesAt(acts', |acts|, owner, address) && NoProposalSince(acts', |acts|, |acts'|, owner);
  }

  lemma Confirmed(acts: seq<Act>, owner: Addr, address: Addr)
    requires LastProposed(acts, owner, address)
    ensures Agreed(acts + [CallProxy(owner, ConfirmContract(address))], owner, address)
  {
    var acts' := acts + [CallProxy(owner, ConfirmContract(address))];
    var i: nat :| ProposesAt(acts, i, owner, address) && NoProposalSince(acts, i, |acts|, owner);
    assert ConfirmsAt(acts', i, |acts|, owner, address);
  }

  /** The proxy as the owner's messages among these acts explain it. */
  ghost predicate Explained(start: Proxy, p: Proxy, acts: seq<Act>) {
    && p.owner == start.owner
    && (p.proposed.Some? ==> LastProposed(acts, p.owner, p.proposed.value))
    && forall id :: id in p.phases ==>
      if id == 1 then p.phases[id] == start.current.address else Agreed(acts, p.owner, p.phases[id])
  }

  lemma ExplainedOn(lib: Lib, start: Proxy, w: System, acts: seq<Act>, act: Act)
    requires PhasesComplete(w.proxy) && Explained(start, w.proxy, acts)
    ensures Explained(start, Next(lib, w, act).proxy, acts + [act])
  {
    var p, p' := w.proxy, Next(lib, w, act).proxy;
    hide Step, InitialState, LastProposed, Agreed;
    forall id | id in p.phases && id > 1 ensures Agreed(acts + [act], p.owner, p.phases[id]) {
      AgreedStays(acts, act, p.owner, p.phases[id]);
    }
    if act.CallProxy? && act.caller == p.owner && act.request.ProposeContract? {
      Proposed(acts, p.owner, act.request.address);
    } else {
      if p.proposed.Some? {
        ProposalStays(acts, act, p.owner, p.proposed.value);
      }
      if act.CallProxy? && StepProxy(p, act.caller, act.request).Success? {
        Confirmed(acts, p.owner, act.request.address);
      }
    }
  }

  lemma {:induction false} RunIsExplained(lib: Lib, w: System, acts: seq<Act>)
    requires Fresh(w)
    ensures Explained(w.proxy, Run(Machine(lib), w, acts).proxy, acts)
  {
    if |acts| > 0 {
      var front, last := acts[..|acts| - 1], acts[|acts| - 1];
      RunIsExplained(lib, w, front);
      ReachableGood(lib, w, front);
      assert acts == front + [last];
      hide Fresh, Explained, Next, ContractsGood, PhasesComplete;
      ExplainedOn(lib, w.proxy, Run(Machine(lib), w, front), front, last);
    }
  }

  /**
   In every run, phase 1 is the contract the proxy was made with, and every later phase is one
   that the owner proposed and then confirmed, with no other proposal of the owner in between.
   */
  lemma PhasesAreAgreed(lib: Lib, w: System, acts: seq<Act>, id: uint16)
    requires Fresh(w) && 1 <= id <= Run(Machine(lib), w, acts).proxy.current.id
    ensures var p := Run(Machine(lib), w, acts).proxy;
            && id in p.phases && p.owner == w.proxy.owner
            && if id == 1 then p.phases[id] == w.proxy.current.address else Agreed(acts, w.proxy.owner, p.phases[id])
  {
    RunIsExplained(lib, w, acts);
    ReachableGood(lib, w, acts);
    hide Run, ContractsGood, Agreed, LastProposed;
  }

  /** Without messages of the owner the proxy stays as it is, whatever everybody else does. */
  lemma {:induction false} OnlyOwnerMovesTheProxy(lib: Lib, w: System, acts: seq<Act>)
    requires forall i :: 0 <= i < |acts| ==> !(acts[i].CallProxy? && acts[i].caller == w.proxy.owner)
    ensures Run(Machine(lib), w, acts).proxy == w.proxy
  {
    if |acts| > 0 {
      OnlyOwnerMovesTheProxy(lib, w, acts[..|acts| - 1]);
      hide Step, InitialState;
    }
  }

  // ---------- what a round id names ----------

  /**
   Round data is answered exactly if bits 32 to 47 of the id name a phase where an aggregator lives
   that has a transmission under the lower 32 bits; the answer is that transmission, under the 48 bits.
   */
  lemma RoundDataIff(p: Proxy, contracts: Contracts, roundId: uint64)
    ensures var phase, round := roundId / 4_294_967_296 % 65_536, roundId % 4_294_967_296;
            if phase in p.phases && p.phases[phase] in contracts
               && round in contracts[p.phases[phase]].transmissions
            then
              RoundData(p, contracts, roundId)
              == Some(Round(phase * 4_294_967_296 + round, contracts[p.phases[phase]].transmissions[round]))
            else RoundData(p, contracts, roundId).None?
  {
    var parsed := ParseRoundId(roundId);
    assert parsed.0 == roundId / 4_294_967_296 % 65_536 && parsed.1 == roundId % 4_294_967_296;
  }

  /** The latest round is the latest one of the current aggregator, under its id with the phase in front. */
  lemma LatestRoundIs(p: Proxy, contracts: Contracts)
    requires LatestRoundData(p, contracts).Some?
    ensures p.current.address in contracts
    ensures var s := contracts[p.current.address];
            && s.config.latestAggregatorRoundId in s.transmissions
            && LatestRoundData(p, contracts).value
               == Round(p.current.id * 4_294_967_296 + s.config.latestAggregatorRoundId,
                        s.transmissions[s.config.latestAggregatorRoundId])
  {
  }
}
