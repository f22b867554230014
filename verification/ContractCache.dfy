/** The cache itself: fields updated under locks by a poller, read by any number of callers. */
module ContractCache {
  import opened Wrappers
  import opened Bytes
  import opened Digest
  import opened CacheProtocol

  /**
   What the reader answers in one round of polling, None where it fails: the latest block and
   digest, the configuration of that block if it is asked for, and the transmission. The poller
   may be stopped between the two updates.
   */
  datatype PollRound = PollRound(
    latest: Option<(uint64, Hash32)>,
    fetched: Option<ContractConfig>,
    stopped: bool,
    details: Option<Details>)

  /** What the cache holds, apart from its stamps. */
  datatype Contents = Contents(block: uint64, config: ContractConfig, details: Details)

  predicate Unchanged(c: Contents, latest: (uint64, Hash32)) {
    c.block == latest.0 && c.config.configDigest == latest.1
  }

  /** An update of the configuration that goes through: nothing new, or a new one that was fetched. */
  predicate ConfigUpdated(c: Contents, latest: Option<(uint64, Hash32)>, fetched: Option<ContractConfig>) {
    latest.Some? && (Unchanged(c, latest.value) || fetched.Some?)
  }

  function WithConfig(c: Contents, latest: Option<(uint64, Hash32)>, fetched: Option<ContractConfig>): Contents {
    if !ConfigUpdated(c, latest, fetched) || Unchanged(c, latest.value) then c
    else c.(block := latest.value.0, config := fetched.value)
  }

  function WithDetails(c: Contents, details: Option<Details>): Contents {
    if details.Some? then c.(details := details.value) else c
  }

  /** The contents after rounds of polling, of which the one that is stopped is the last. */
  function Polled(c: Contents, rounds: seq<PollRound>): Contents
    decreases |rounds|
  {
    if |rounds| == 0 then c
    else
      var first := rounds[0];
      var updated := WithConfig(c, first.latest, first.fetched);
      if first.stopped then updated else Polled(WithDetails(updated, first.details), rounds[1..])
  }

  ghost predicate Unstopped(rounds: seq<PollRound>) {
    forall i :: 0 <= i < |rounds| ==> !rounds[i].stopped
  }

  lemma {:induction false} PolledAlong(c: Contents, before: seq<PollRound>, after: seq<PollRound>)
    requires Unstopped(before)
    ensures Polled(c, before + after) == Polled(Polled(c, before), after)
    decreases |before|
  {
    if |before| == 0 {
      assert before + after == after;
    } else {
      var first := before[0];
      assert (before + after)[0] == first && (before + after)[1..] == before[1..] + after;
      PolledAlong(WithDetails(WithConfig(c, first.latest, first.fetched), first.details), before[1..], after);
    }
  }

  /** Without further configurations the one that is held stays, and likewise the transmission. */
  lemma {:induction false} HeldWithoutAnswers(c: Contents, rounds: seq<PollRound>)
    ensures (forall i :: 0 <= i < |rounds| ==> rounds[i].fetched.None?) ==>
              Polled(c, rounds).block == c.block && Polled(c, rounds).config == c.config
    ensures (forall i :: 0 <= i < |rounds| ==> rounds[i].details.None?) ==> Polled(c, rounds).details == c.details
    decreases |rounds|
  {
    if |rounds| > 0 {
      var first := rounds[0];
      HeldWithoutAnswers(WithDetails(WithConfig(c, first.latest, first.fetched), first.details), rounds[1..]);
    }
  }

  /**
   What polling is for: the cache holds the transmission of the last answer, however many polls
   before or after it fail.
   */
  lemma LastDetailsAreHeld(c: Contents, rounds: seq<PollRound>, i: nat)
    requires i < |rounds| && Unstopped(rounds[..i + 1]) && rounds[i].details.Some?
    requires forall j :: i < j < |rounds| ==> rounds[j].details.None?
    ensures Polled(c, rounds).details == rounds[i].details.value
  {
    var before, after := rounds[..i], rounds[i..];
    assert rounds == before + after && after[1..] == rounds[i + 1..];
    assert forall j :: 0 <= j < i ==> rounds[..i + 1][j] == rounds[j];
    assert rounds[..i + 1][i] == rounds[i];
    PolledAlong(c, before, after);
    var held := Polled(c, before);
    hide WithConfig;
    var updated := WithConfig(held, rounds[i].latest, rounds[i].fetched);
    HeldWithoutAnswers(WithDetails(updated, rounds[i].details), after[1..]);
  }

  /**
   And it holds the configuration of the last round in which one was answered: that one, unless
   the block and the digest reported in that round are those it holds already.
   */
  lemma LastConfigIsHeld(c: Contents, rounds: seq<PollRound>, i: nat)
    requires i < |rounds| && Unstopped(rounds[..i]) && rounds[i].latest.Some? && rounds[i].fetched.Some?
    requires forall j :: i < j < |rounds| ==> rounds[j].fetched.None?
    ensures var held := Polled(c, rounds[..i]);
            && Polled(c, rounds).block == rounds[i].latest.value.0
            && Polled(c, rounds).config
               == if held.block == rounds[i].latest.value.0 && held.config.configDigest == rounds[i].latest.value.1
                  then held.config else rounds[i].fetched.value
  {
    var before, after := rounds[..i], rounds[i..];
    assert rounds == before + after && after[1..] == rounds[i + 1..];
    PolledAlong(c, before, after);
    var updated := WithConfig(Polled(c, before), rounds[i].latest, rounds[i].fetched);
    HeldWithoutAnswers(WithDetails(updated, rounds[i].details), after[1..]);
  }

  class Cached {
    const ttl: int
    var clock: int

    var configTS: Option<int>
    var configBlock: uint64
    var config: ContractConfig

    var transTS: Option<int>
    var digest: Hash32
    var epoch: uint32
    var round: byte
    var latestAnswer: int
    var latestTimestamp: int

    ghost const start: int
    ghost var world: World
    ghost var acts: seq<Act>

    /** What a caller that takes both locks would see. */
    ghost function View(): Cache
      reads this
    {
      Cache(configTS, configBlock, config, transTS, Details(digest, epoch, round, latestAnswer, latestTimestamp))
    }

    function Held(): Contents
      reads this
    {
      Contents(configBlock, config, Details(digest, epoch, round, latestAnswer, latestTimestamp))
    }

    /** The fields are what a run of the machine has made of the empty cache. */
    ghost predicate Valid()
      reads this
    {
      world.cache == View() && world.now == clock && world == WorldAfter(start, acts)
    }

    constructor (ttl: int, clock: int)
      ensures Valid() && acts == [] && world.poller == Idle && this.ttl == ttl
    {
      this.ttl, this.clock, start := ttl, clock, clock;
      configTS, configBlock, config := None, 0, ZERO_CONFIG;
      transTS, digest, epoch, round, latestAnswer, latestTimestamp := None, ZERO_DIGEST, 0, 0, 0, 0;
      world, acts := StartWorld(clock), [];
    }

    ghost method Commit(act: Act)
      requires world == WorldAfter(start, acts)
      modifies this`world, this`acts
      ensures world == WorldAfter(start, acts) && acts == old(acts) + [act] && world == Next(old(world), act)
    {
      world := Next(world, act);
      acts := acts + [act];
      assert acts[..|acts| - 1] == old(acts);
    }

    /** Waiting for an answer takes some time. */
    method Wait()
      requires Valid()
      modifies this`clock, this`world, this`acts
      ensures Valid() && old(acts) <= acts && old(clock) <= clock
      ensures world.poller == old(world.poller)
    {
      var elapsed: nat := 0;
      var waits: bool := *;
      if waits {
        var t: int := *;
        elapsed := if t > 0 then t else 0;
      }
      clock := clock + elapsed;
      Commit(Tick(elapsed));
    }

    /** Reads the configuration of a block and stores it. */
    method FetchConfig(changedInBlock: uint64, fetched: Option<ContractConfig>) returns (ok: bool)
      requires Valid() && world.poller.Fetching? && world.poller.block == changedInBlock
      modifies this
      ensures Valid() && world.poller == Idle && old(acts) <= acts && old(clock) <= clock
      ensures ok == fetched.Some? && transTS == old(transTS)
      ensures Held() == if ok then old(Held()).(block := changedInBlock, config := fetched.value) else old(Held())
      ensures if ok then configTS.Some? && old(clock) <= configTS.value <= clock else configTS == old(configTS)
    {
      hide WorldAfter;
      Wait();
      if fetched.None? {
        Commit(GiveUp);
        return false;
      }
      var contractConfig, now := fetched.value, clock;
      Commit(ConfigAnswered(contractConfig));
      Wait();
      // under the lock
      configTS := Some(now);
      configBlock := changedInBlock;
      config := contractConfig;
      Commit(Store);
      return true;
    }

    /** A failed update leaves the cache as it was; a successful one stamps it with the current time. */
    method UpdateConfig(latest: Option<(uint64, Hash32)>, fetched: Option<ContractConfig>) returns (ok: bool)
      requires Valid() && world.poller == Idle
      modifies this
      ensures Valid() && world.poller == Idle && old(acts) <= acts && old(clock) <= clock
      ensures ok == ConfigUpdated(old(Held()), latest, fetched) && transTS == old(transTS)
      ensures Held() == WithConfig(old(Held()), latest, fetched)
      ensures if ok then configTS.Some? && old(clock) <= configTS.value <= clock else configTS == old(configTS)
    {
      hide WorldAfter;
      Wait();
      if latest.None? {
        return false;
      }
      var (changedInBlock, configDigest) := latest.value;
      var now := clock;
      Commit(LatestBlockAnswered(changedInBlock, configDigest));
      Wait();
      // under the lock
      var same := configBlock == changedInBlock && config.configDigest == configDigest;
      if same {
        configTS := Some(now);
      }
      Commit(Compare);
      if same {
        return true;
      }
      ok := FetchConfig(changedInBlock, fetched);
    }

    method Keep(answer: Details, now: int)
      requires Valid() && world.poller == StoringDetails(answer, now)
      modifies this
      ensures Valid() && world.poller == Idle && old(acts) <= acts && clock == old(clock)
      ensures transTS == Some(now) && configTS == old(configTS)
      ensures Held() == old(Held()).(details := answer)
    {
      hide WorldAfter;
      // under the lock
      transTS := Some(now);
      digest := answer.digest;
      epoch := answer.epoch;
      round := answer.round;
      latestAnswer := answer.answer;
      latestTimestamp := answer.timestamp;
      Commit(StoreDetails);
    }

    method UpdateTransmission(details: Option<Details>) returns (ok: bool)
      requires Valid() && world.poller == Idle
      modifies this
      ensures Valid() && world.poller == Idle && old(acts) <= acts && old(clock) <= clock
      ensures ok == details.Some? && configTS == old(configTS)
      ensures Held() == WithDetails(old(Held()), details)
      ensures if ok then transTS.Some? && old(clock) <= transTS.value <= clock else transTS == old(transTS)
    {
      hide WorldAfter;
      Wait();
      if details.None? {
        return false;
      }
      var now := clock;
      Commit(DetailsAnswered(details.value));
      Wait();
      Keep(details.value, now);
      return true;
    }

    /** Each round that was answered has stamped the cache since it began. */
    ghost predicate Stamped(rounds: seq<PollRound>, begun: seq<int>)
      requires |begun| <= |rounds|
      reads this
    {
      forall i :: 0 <= i < |begun| ==>
        && (rounds[i].latest.Some? && rounds[i].fetched.Some? ==> configTS.Some? && begun[i] <= configTS.value)
        && (!rounds[i].stopped && rounds[i].details.Some? ==> transTS.Some? && begun[i] <= transTS.value)
    }

    /** One round of polling. */
    method PollOnce(answers: PollRound)
      requires Valid() && world.poller == Idle
      modifies this
      ensures Valid() && world.poller == Idle && old(acts) <= acts && old(clock) <= clock
      ensures var updated := WithConfig(old(Held()), answers.latest, answers.fetched);
              Held() == if answers.stopped then updated else WithDetails(updated, answers.details)
      ensures if ConfigUpdated(old(Held()), answers.latest, answers.fetched)
              then configTS.Some? && old(clock) <= configTS.value else configTS == old(configTS)
      ensures if !answers.stopped && answers.details.Some?
              then transTS.Some? && old(clock) <= transTS.value else transTS == old(transTS)
    {
      hide WorldAfter, WithConfig, WithDetails, ConfigUpdated;
      var _ := UpdateConfig(answers.latest, answers.fetched);
      if answers.stopped {
        return;
      }
      var _ := UpdateTransmission(answers.details);
      Wait();
    }

    /** Updates the configuration and the transmission in turn, until the poller is stopped. */
    method Poll(rounds: seq<PollRound>) returns (ghost begun: seq<int>)
      requires Valid() && world.poller == Idle
      modifies this
      ensures Valid() && world.poller == Idle && old(acts) <= acts && old(clock) <= clock
      ensures Held() == Polled(old(Held()), rounds)
      ensures |begun| <= |rounds| && forall i :: 0 <= i < |begun| ==> old(clock) <= begun[i] <= clock
      ensures |begun| < |rounds| ==> |begun| > 0 && rounds[|begun| - 1].stopped
      ensures Stamped(rounds, begun)
    {
      hide WorldAfter, WithConfig, WithDetails, Valid;
      begun := [];
      assert rounds[0..] == rounds;
      for i := 0 to |rounds|
        invariant Valid() && world.poller == Idle && old(acts) <= acts && old(clock) <= clock
        invariant |begun| == i && forall j :: 0 <= j < i ==> old(clock) <= begun[j] <= clock
        invariant Polled(Held(), rounds[i..]) == Polled(old(Held()), rounds)
        invariant Stamped(rounds, begun)
      {
        assert rounds[i..][1..] == rounds[i + 1..];
        begun := begun + [clock];
        PollOnce(rounds[i]);
        if rounds[i].stopped {
          return;
        }
      }
    }

    method CheckAge(ts: Option<int>) returns (r: Result<(), CacheError>)
      ensures r == CheckTS(ts, clock, ttl)
    {
      if ts.None? {
        return Failure(NotInitialized);
      }
      if clock - ts.value > ttl {
        return Failure(Expired);
      }
      return Success(());
    }

    /** The fields are read together, their age is checked later. */
    method LatestConfigDetails() returns (r: Result<(uint64, Hash32), CacheError>)
      requires Valid()
      modifies this`clock, this`world, this`acts
      ensures Valid() && old(acts) <= acts && old(clock) <= clock
      ensures r == ReadConfigDetails(old(View()), clock, ttl)
    {
      var ts, changedInBlock, configDigest := configTS, configBlock, config.configDigest;
      Wait();
      var _ :- CheckAge(ts);
      return Success((changedInBlock, configDigest));
    }

    method LatestConfig(changedInBlock: uint64) returns (r: Result<ContractConfig, CacheError>)
      requires Valid()
      modifies this`clock, this`world, this`acts
      ensures Valid() && old(acts) <= acts && old(clock) <= clock
      ensures r == ReadConfig(old(View()), changedInBlock, clock, ttl)
    {
      var ts, contractConfig, cachedBlock := configTS, config, configBlock;
      Wait();
      var _ :- CheckAge(ts);
      if cachedBlock != changedInBlock {
        return Failure(OtherBlock);
      }
      return Success(contractConfig);
    }

    method LatestTransmissionDetails() returns (r: Result<Details, CacheError>)
      requires Valid()
      modifies this`clock, this`world, this`acts
      ensures Valid() && old(acts) <= acts && old(clock) <= clock
      ensures r == ReadDetails(old(View()), clock, ttl)
    {
      var ts := transTS;
      var read := Details(digest, epoch, round, latestAnswer, latestTimestamp);
      Wait();
      var _ :- CheckAge(ts);
      return Success(read);
    }
  }
}
