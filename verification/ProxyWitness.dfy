/** A proxy in front of a feed that has had its first round, asked for a round id beyond 48 bits. */
module ProxyWitness {
  import opened Wrappers
  import opened Bytes
  import opened Runs
  import opened AggregatorSpec
  import opened AggregatorPayouts
  import opened AggregatorInvariant
  import opened ProxySpec
  import AggregatorRuns
  import AggregatorWitness
  import ProxyRuns

  const FEED: Addr := [200]

  ghost function AfterOneRound(self: Addr): State {
    Run(AggregatorRuns.Machine(AggregatorWitness.PlainLib(), self), AggregatorWitness.Start(),
        AggregatorWitness.UpToFirstRound(self)).state
  }

  ghost function Fronted(self: Addr): ProxyRuns.System {
    ProxyRuns.System(InitialProxy([], FEED), map[FEED := AfterOneRound(self)])
  }

  lemma FeedHasRoundOne(self: Addr)
    ensures Inv(AfterOneRound(self)) && AfterOneRound(self).config.latestAggregatorRoundId == 1
    ensures 1 in AfterOneRound(self).transmissions
  {
    AggregatorWitness.ReachesFirstRound(self);
    AggregatorRuns.ReachableInv(AggregatorWitness.PlainLib(), self, AggregatorWitness.Start(),
                                AggregatorWitness.UpToFirstRound(self));
    hide Run, AggregatorWitness.UpToFirstRound, AggregatorWitness.PlainLib, RoundsInPast, OracleSetSized,
      ProposalsNumbered;
  }

  lemma RoundOneIsAnswered(p: Proxy, contracts: Contracts)
    requires 1 in p.phases && p.phases[1] in contracts && 1 in contracts[p.phases[1]].transmissions
    ensures var id := RoundIdOf(1, 1);
            RoundData(p, contracts, id) == Some(Round(id, contracts[p.phases[1]].transmissions[1]))
  {
    ParseUndoesNumbering(1, 1);
    hide ParseRoundId, RoundIdOf;
  }

  lemma OneBitHigher()
    ensures TWO_16 * TWO_32 + RoundIdOf(1, 1) < TWO_64
    ensures (TWO_16 * TWO_32 + RoundIdOf(1, 1)) % (TWO_16 * TWO_32) == RoundIdOf(1, 1)
  {
  }

  lemma FrontedIsFresh(self: Addr)
    ensures ProxyRuns.Fresh(Fronted(self))
  {
    FeedHasRoundOne(self);
    hide AfterOneRound, Inv;
  }

  /** Round 1 of phase 1 is answered under its id, and again under that id with the 49th bit set. */
  lemma LargeIdIsAnswered(self: Addr)
    ensures var w, id := Fronted(self), RoundIdOf(1, 1);
            && ProxyRuns.Fresh(w)
            && TWO_16 * TWO_32 + id < TWO_64
            && RoundData(w.proxy, w.contracts, id).Some?
            && RoundData(w.proxy, w.contracts, id).value.roundId == id
            && RoundData(w.proxy, w.contracts, TWO_16 * TWO_32 + id) == RoundData(w.proxy, w.contracts, id)
  {
    var w, id := Fronted(self), RoundIdOf(1, 1);
    FrontedIsFresh(self);
    FeedHasRoundOne(self);
    OneBitHigher();
    hide AfterOneRound, Inv, RoundData, RoundIdOf, ProxyRuns.Fresh;
    RoundOneIsAnswered(w.proxy, w.contracts);
    UpperBitsAreIgnored(w.proxy, w.contracts, TWO_16 * TWO_32 + id);
  }
}
