/**
 The polled cache in front of the contract reader, as a machine: answers of the reader arrive,
 locked sections store them, time passes. What readers of the cache may rely on is stated
 against the log of all answers the reader ever gave.
 */
module CacheProtocol {
  import opened Wrappers
  import opened Bytes
  import opened Digest
  import opened Runs

  /** The five values of one transmission as the contract reports them. */
  datatype Details = Details(digest: Hash32, epoch: uint32, round: byte, answer: int, timestamp: int)

  const ZERO_DETAILS: Details := Details(ZERO_DIGEST, 0, 0, 0, 0)

  /**
   How far the poller is; times are taken when an answer arrives. reportedAt is when the block
   was reported as the latest.
   */
  datatype Poller =
    | Idle
    | Comparing(block: uint64, digest: Hash32, at: int)
    | Fetching(block: uint64, reportedAt: int)
    | Storing(block: uint64, config: ContractConfig, at: int, reportedAt: int)
    | StoringDetails(details: Details, at: int)

  datatype Cache = Cache(
    configTS: Option<int>,
    configBlock: uint64,
    config: ContractConfig,
    transTS: Option<int>,
    details: Details)

  /** reportedAt is when the cached block was last reported as the latest, as far as the cache has taken notice. */
  datatype World = World(now: int, cache: Cache, poller: Poller, reportedAt: Option<int>)

  const EMPTY_CACHE: Cache := Cache(None, 0, ZERO_CONFIG, None, ZERO_DETAILS)

  datatype Act =
    | Tick(elapsed: nat)
    | LatestBlockAnswered(block: uint64, digest: Hash32)
    | Compare
    | ConfigAnswered(config: ContractConfig)
    | Store
    | DetailsAnswered(details: Details)
    | StoreDetails
    | GiveUp

  datatype Event =
    | SaidLatest(block: uint64, digest: Hash32, at: int)
    | GaveConfig(block: uint64, config: ContractConfig, at: int)
    | GaveDetails(details: Details, at: int)

  /** Nothing has changed since the cached configuration was stored. */
  predicate Same(c: Cache, block: uint64, digest: Hash32) {
    c.configBlock == block && c.config.configDigest == digest
  }

  /** Acts that do not fit where the poller is change nothing. */
  function Next(w: World, act: Act): World {
    match act
    case Tick(elapsed) => w.(now := w.now + elapsed)
    case LatestBlockAnswered(block, digest) =>
      if w.poller.Idle? then w.(poller := Comparing(block, digest, w.now)) else w
    case Compare =>
      if !w.poller.Comparing? then w
      else if Same(w.cache, w.poller.block, w.poller.digest) then
        w.(cache := w.cache.(configTS := Some(w.poller.at)), poller := Idle, reportedAt := Some(w.poller.at))
      else w.(poller := Fetching(w.poller.block, w.poller.at))
    case ConfigAnswered(config) =>
      if w.poller.Fetching? then w.(poller := Storing(w.poller.block, config, w.now, w.poller.reportedAt)) else w
    case Store =>
      if !w.poller.Storing? then w
      else
        w.(cache := w.cache.(configTS := Some(w.poller.at), configBlock := w.poller.block, config := w.poller.config),
           poller := Idle, reportedAt := Some(w.poller.reportedAt))
    case DetailsAnswered(details) =>
      if w.poller.Idle? then w.(poller := StoringDetails(details, w.now)) else w
    case StoreDetails =>
      if !w.poller.StoringDetails? then w
      else w.(cache := w.cache.(transTS := Some(w.poller.at), details := w.poller.details), poller := Idle)
    case GiveUp => w.(poller := Idle)
  }

  /** What the reader answered in a step. */
  function Answered(w: World, act: Act): seq<Event> {
    match act
    case LatestBlockAnswered(block, digest) => if w.poller.Idle? then [SaidLatest(block, digest, w.now)] else []
    case ConfigAnswered(config) => if w.poller.Fetching? then [GaveConfig(w.poller.block, config, w.now)] else []
    case DetailsAnswered(details) => if w.poller.Idle? then [GaveDetails(details, w.now)] else []
    case _ => []
  }

  ghost function Machine(): (World, Act) -> World {
    (w: World, act: Act) => Next(w, act)
  }

  ghost function Answers(): (World, Act) -> seq<Event> {
    (w: World, act: Act) => Answered(w, act)
  }

  // ---------- what callers of the cache see ----------

  datatype CacheError = NotInitialized | Expired | OtherBlock

  function CheckTS(ts: Option<int>, now: int, ttl: int): Result<(), CacheError> {
    match ts
    case None => Failure(NotInitialized)
    case Some(t) => if now - t > ttl then Failure(Expired) else Success(())
  }

  function ReadConfig(c: Cache, block: uint64, now: int, ttl: int): Result<ContractConfig, CacheError> {
    var _ :- CheckTS(c.configTS, now, ttl);
    if c.configBlock != block then Failure(OtherBlock) else Success(c.config)
  }

  function ReadConfigDetails(c: Cache, now: int, ttl: int): Result<(uint64, Hash32), CacheError> {
    var _ :- CheckTS(c.configTS, now, ttl);
    Success((c.configBlock, c.config.configDigest))
  }

  function ReadDetails(c: Cache, now: int, ttl: int): Result<Details, CacheError> {
    var _ :- CheckTS(c.transTS, now, ttl);
    Success(c.details)
  }

  // ---------- the log explains the cache ----------

  ghost predicate Gave(log: seq<Event>, block: uint64, config: ContractConfig) {
    exists t: int :: GaveConfig(block, config, t) in log
  }

  /** At time t the reader said that the latest configuration is the one of this block. */
  ghost predicate Reported(log: seq<Event>, block: uint64, t: int) {
    exists digest: Hash32 :: SaidLatest(block, digest, t) in log
  }

  ghost predicate ConfigExplained(c: Cache, reportedAt: Option<int>, log: seq<Event>) {
    match c.configTS
    case None => c.configBlock == 0 && c.config == ZERO_CONFIG && reportedAt == None
    case Some(ts) =>
      && (Gave(log, c.configBlock, c.config) || (c.configBlock == 0 && c.config == ZERO_CONFIG))
      && reportedAt.Some? && reportedAt.value <= ts && Reported(log, c.configBlock, reportedAt.value)
      && (|| GaveConfig(c.configBlock, c.config, ts) in log
          || (reportedAt.value == ts && SaidLatest(c.configBlock, c.config.configDigest, ts) in log))
  }

  ghost predicate DetailsExplained(c: Cache, log: seq<Event>) {
    c.transTS.Some? ==> GaveDetails(c.details, c.transTS.value) in log
  }

  ghost predicate PollerExplained(p: Poller, now: int, log: seq<Event>) {
    match p
    case Comparing(block, digest, at) => at <= now && SaidLatest(block, digest, at) in log
    case Fetching(block, reportedAt) => reportedAt <= now && Reported(log, block, reportedAt)
    case Storing(block, config, at, reportedAt) =>
      reportedAt <= at && GaveConfig(block, config, at) in log && Reported(log, block, reportedAt)
    case StoringDetails(details, at) => GaveDetails(details, at) in log
    case _ => true
  }

  ghost predicate Explained(w: World, log: seq<Event>) {
    && ConfigExplained(w.cache, w.reportedAt, log) && DetailsExplained(w.cache, log)
    && PollerExplained(w.poller, w.now, log)
  }

  lemma GaveMore(log: seq<Event>, more: seq<Event>, block: uint64, config: ContractConfig)
    requires Gave(log, block, config)
    ensures Gave(log + more, block, config)
  {
    var t :| GaveConfig(block, config, t) in log;
    assert GaveConfig(block, config, t) in log + more;
  }

  lemma ReportedMore(log: seq<Event>, more: seq<Event>, block: uint64, t: int)
    requires Reported(log, block, t)
    ensures Reported(log + more, block, t)
  {
    var digest :| SaidLatest(block, digest, t) in log;
    assert SaidLatest(block, digest, t) in log + more;
  }

  lemma MoreLog(w: World, log: seq<Event>, more: seq<Event>)
    requires Explained(w, log)
    ensures Explained(w, log + more)
  {
    var c := w.cache;
    if Gave(log, c.configBlock, c.config) {
      GaveMore(log, more, c.configBlock, c.config);
    }
    if c.configTS.Some? {
      ReportedMore(log, more, c.configBlock, w.reportedAt.value);
    }
    if w.poller.Fetching? || w.poller.Storing? {
      ReportedMore(log, more, w.poller.block, w.poller.reportedAt);
    }
  }

  lemma NextExplained(w: World, act: Act, log: seq<Event>)
    requires Explained(w, log)
    ensures Explained(Next(w, act), log + Answered(w, act))
  {
    MoreLog(w, log, Answered(w, act));
    var log' := log + Answered(w, act);
    match act {
      case LatestBlockAnswered(block, digest) =>
        if w.poller.Idle? {
          assert SaidLatest(block, digest, w.now) in Answered(w, act);
        }
      case Compare =>
        if w.poller.Comparing? {
          assert Reported(log', w.poller.block, w.poller.at);
        }
      case ConfigAnswered(config) =>
        if w.poller.Fetching? {
          assert GaveConfig(w.poller.block, config, w.now) in Answered(w, act);
        }
      case DetailsAnswered(details) =>
        if w.poller.Idle? {
          assert GaveDetails(details, w.now) in Answered(w, act);
        }
      case Store =>
        if w.poller.Storing? {
          assert Gave(log', w.poller.block, w.poller.config);
        }
      case _ =>
    }
  }

  // ---------- over whole runs ----------

  ghost function ExplainedBy(): (World, seq<Event>) -> bool {
    (w: World, log: seq<Event>) => Explained(w, log)
  }

  function StartWorld(start: int): World {
    World(start, EMPTY_CACHE, Idle, None)
  }

  ghost function LogOf(start: int, acts: seq<Act>): seq<Event> {
    Log(Machine(), Answers(), StartWorld(start), acts)
  }

  ghost function WorldAfter(start: int, acts: seq<Act>): World {
    Run(Machine(), StartWorld(start), acts)
  }

  lemma RunExplained(start: int, acts: seq<Act>)
    ensures Explained(WorldAfter(start, acts), LogOf(start, acts))
  {
    hide Explained, Next, Answered;
    forall w: World, act: Act, log: seq<Event> | Explained(w, log)
      ensures Explained(Next(w, act), log + Answered(w, act))
    {
      NextExplained(w, act, log);
    }
    assert Explained(StartWorld(start), []) by {
      EmptyExplained(start);
    }
    LogInvariantAlong(Machine(), Answers(), ExplainedBy(), StartWorld(start), acts);
  }

  lemma EmptyExplained(start: int)
    ensures Explained(StartWorld(start), [])
  {
  }

  /** An answer about this configuration arrived at most ttl before now: it was given, or its block was reported. */
  ghost predicate AnsweredWithin(log: seq<Event>, block: uint64, config: ContractConfig, now: int, ttl: int) {
    exists t: int :: now - t <= ttl
      && (GaveConfig(block, config, t) in log || SaidLatest(block, config.configDigest, t) in log)
  }

  /** The block was reported as the latest at most ttl before now. */
  ghost predicate ReportedWithin(log: seq<Event>, block: uint64, now: int, ttl: int) {
    exists t: int :: now - t <= ttl && Reported(log, block, t)
  }

  /**
   Whatever the interleaving: a configuration served without error for a block other than 0 was
   given by the reader for that block; its block was reported as the latest no later than the
   stamp of the cache; and one of the two happened within the TTL of the moment of the check,
   which may be later than the moment of the read.
   */
  lemma ServedConfigIsFromReader(start: int, acts: seq<Act>, block: uint64, now: int, ttl: int)
    requires ReadConfig(WorldAfter(start, acts).cache, block, now, ttl).Success? && block != 0
    ensures var w, log := WorldAfter(start, acts), LogOf(start, acts);
            var config := ReadConfig(w.cache, block, now, ttl).value;
            && Gave(log, block, config)
            && w.reportedAt.Some? && w.reportedAt.value <= w.cache.configTS.value
            && Reported(log, block, w.reportedAt.value)
            && AnsweredWithin(log, block, config, now, ttl)
  {
    RunExplained(start, acts);
    var cache, log := WorldAfter(start, acts).cache, LogOf(start, acts);
    hide LogOf, WorldAfter;
    var ts := cache.configTS.value;
    assert now - ts <= ttl;
    assert GaveConfig(block, cache.config, ts) in log || SaidLatest(block, cache.config.configDigest, ts) in log;
  }

  /** The same for block 0, where the configuration served may also be the zero value the cache starts with. */
  lemma ServedForBlockZero(start: int, acts: seq<Act>, now: int, ttl: int)
    requires ReadConfig(WorldAfter(start, acts).cache, 0, now, ttl).Success?
    ensures var w, log := WorldAfter(start, acts), LogOf(start, acts);
            var config := ReadConfig(w.cache, 0, now, ttl).value;
            && (Gave(log, 0, config) || config == ZERO_CONFIG)
            && w.reportedAt.Some? && w.reportedAt.value <= w.cache.configTS.value
            && Reported(log, 0, w.reportedAt.value)
            && AnsweredWithin(log, 0, config, now, ttl)
  {
    RunExplained(start, acts);
    var cache, log := WorldAfter(start, acts).cache, LogOf(start, acts);
    hide LogOf, WorldAfter;
    var ts := cache.configTS.value;
    assert now - ts <= ttl;
    assert GaveConfig(0, cache.config, ts) in log || SaidLatest(0, cache.config.configDigest, ts) in log;
  }

  /**
   What is served has been reported as the latest within the TTL, at every moment at which it is
   served, exactly when the stamp of the cache is the time of the report.
   */
  lemma FreshIff(start: int, acts: seq<Act>, ttl: int)
    requires WorldAfter(start, acts).cache.configTS.Some?
    ensures var w := WorldAfter(start, acts);
            && w.reportedAt.Some?
            && ((forall now: int ::
                   ReadConfig(w.cache, w.cache.configBlock, now, ttl).Success? ==> now - w.reportedAt.value <= ttl)
                <==> w.reportedAt == w.cache.configTS)
  {
    RunExplained(start, acts);
    var w := WorldAfter(start, acts);
    hide LogOf, WorldAfter;
    var ts := w.cache.configTS.value;
    assert ReadConfig(w.cache, w.cache.configBlock, ts + ttl, ttl).Success?;
  }

  /** In that case it is reported within the TTL according to the log. */
  lemma FreshIsReported(start: int, acts: seq<Act>, block: uint64, now: int, ttl: int)
    requires ReadConfig(WorldAfter(start, acts).cache, block, now, ttl).Success?
    requires WorldAfter(start, acts).reportedAt == WorldAfter(start, acts).cache.configTS
    ensures ReportedWithin(LogOf(start, acts), block, now, ttl)
  {
    RunExplained(start, acts);
    hide LogOf, WorldAfter;
    assert now - WorldAfter(start, acts).reportedAt.value <= ttl;
  }

  /**
   A stamp is the time of the report exactly when the step that set it was a refresh, or stored a
   configuration whose fetch took no time. No other step touches either.
   */
  lemma StampIsReportIff(w: World, act: Act)
    ensures var w' := Next(w, act);
            if act == Compare && w.poller.Comparing? && Same(w.cache, w.poller.block, w.poller.digest) then
              w'.cache.configTS == w'.reportedAt == Some(w.poller.at)
            else if act == Store && w.poller.Storing? then
              w'.cache.configTS == w'.reportedAt <==> w.poller.at == w.poller.reportedAt
            else w'.cache.configTS == w.cache.configTS && w'.reportedAt == w.reportedAt
  {
  }

  /** A slow fetch: the configuration is served although its block was last reported longer ago than the TTL. */
  lemma StaleConfigIsServed(start: int, ttl: nat, block: uint64, digest: Hash32, config: ContractConfig)
    requires block != 0
    ensures var acts := [LatestBlockAnswered(block, digest), Compare, Tick(ttl + 1), ConfigAnswered(config), Store];
            var now := start + ttl + 1;
            && WorldAfter(start, acts).now == now
            && ReadConfig(WorldAfter(start, acts).cache, block, now, ttl) == Success(config)
            && !ReportedWithin(LogOf(start, acts), block, now, ttl)
  {
    var now := start + ttl + 1;
    var a, b, c, d := LatestBlockAnswered(block, digest), Compare, Tick(ttl + 1), ConfigAnswered(config);
    var w0 := StartWorld(start);
    assert [] + [a] == [a] && [a] + [b] == [a, b] && [a, b] + [c] == [a, b, c];
    assert [a, b, c] + [d] == [a, b, c, d] && [a, b, c, d] + [Store] == [a, b, c, d, Store];
    RunTogether(w0, [], a);
    RunTogether(w0, [a], b);
    RunTogether(w0, [a, b], c);
    RunTogether(w0, [a, b, c], d);
    RunTogether(w0, [a, b, c, d], Store);
    hide Run, Log;
    assert LogOf(start, [a, b, c, d, Store]) == [SaidLatest(block, digest, start), GaveConfig(block, config, now)];
  }

  lemma RunTogether(w: World, acts: seq<Act>, act: Act)
    ensures Run(Machine(), w, acts + [act]) == Next(Run(Machine(), w, acts), act)
    ensures Log(Machine(), Answers(), w, acts + [act])
         == Log(Machine(), Answers(), w, acts) + Answered(Run(Machine(), w, acts), act)
    ensures acts == [] ==> Run(Machine(), w, acts) == w && Log(Machine(), Answers(), w, acts) == []
  {
    assert (acts + [act])[..|acts|] == acts;
  }

  // ---------- the zero configuration ----------

  /** The configurations that store steps put into the cache. */
  ghost function Stores(): (World, Act) -> seq<(uint64, ContractConfig)> {
    (w: World, act: Act) =>
      if act == Store && w.poller.Storing? then [(w.poller.block, w.poller.config)] else []
  }

  ghost function StoredBy(start: int, acts: seq<Act>): seq<(uint64, ContractConfig)> {
    Log(Machine(), Stores(), StartWorld(start), acts)
  }

  /** The cache holds what was stored last, and before that the zero value for block 0. */
  lemma {:induction false} HoldsLastStored(start: int, acts: seq<Act>)
    ensures var c, stored := WorldAfter(start, acts).cache, StoredBy(start, acts);
            (c.configBlock, c.config) == if stored == [] then (0, ZERO_CONFIG) else stored[|stored| - 1]
  {
    if |acts| > 0 {
      HoldsLastStored(start, acts[..|acts| - 1]);
    }
  }

  lemma {:induction false} StoredWasGiven(start: int, acts: seq<Act>, stored: (uint64, ContractConfig))
    requires stored in StoredBy(start, acts)
    ensures Gave(LogOf(start, acts), stored.0, stored.1)
  {
    var front, act := acts[..|acts| - 1], acts[|acts| - 1];
    var w := WorldAfter(start, front);
    RunExplained(start, front);
    if stored in StoredBy(start, front) {
      StoredWasGiven(start, front, stored);
    } else {
      assert GaveConfig(stored.0, stored.1, w.poller.at) in LogOf(start, front);
    }
    GaveMore(LogOf(start, front), Answered(w, act), stored.0, stored.1);
  }

  /**
   A served configuration is the zero value for block 0 exactly until the first store, and after
   that only if the reader itself gave the zero value and it was stored last.
   */
  lemma ZeroConfigServedIff(start: int, acts: seq<Act>, block: uint64, now: int, ttl: int)
    requires ReadConfig(WorldAfter(start, acts).cache, block, now, ttl).Success?
    ensures var config := ReadConfig(WorldAfter(start, acts).cache, block, now, ttl).value;
            var stored := StoredBy(start, acts);
            && (block == 0 && config == ZERO_CONFIG <==> stored == [] || stored[|stored| - 1] == (0, ZERO_CONFIG))
            && (stored != [] ==> stored[|stored| - 1] == (block, config) && Gave(LogOf(start, acts), block, config))
  {
    HoldsLastStored(start, acts);
    var stored := StoredBy(start, acts);
    hide StoredBy, WorldAfter, LogOf;
    if stored != [] {
      StoredWasGiven(start, acts, stored[|stored| - 1]);
    }
  }

  /** It really is served: an unconfigured contract matches the zero value, without any configuration read. */
  lemma ZeroConfigIsServed(start: int, ttl: nat)
    ensures var acts := [LatestBlockAnswered(0, ZERO_DIGEST), Compare];
            && ReadConfig(WorldAfter(start, acts).cache, 0, start, ttl) == Success(ZERO_CONFIG)
            && !Gave(LogOf(start, acts), 0, ZERO_CONFIG)
  {
    FirstReport(start, ZERO_DIGEST);
    hide WorldAfter, LogOf;
  }

  /** A first report of block 0 with the digest the empty cache has is a refresh. */
  lemma FirstReport(start: int, digest: Hash32)
    requires digest == EMPTY_CACHE.config.configDigest
    ensures var acts := [LatestBlockAnswered(0, digest), Compare];
            && WorldAfter(start, acts).cache == EMPTY_CACHE.(configTS := Some(start))
            && LogOf(start, acts) == [SaidLatest(0, digest, start)]
  {
    var first := LatestBlockAnswered(0, digest);
    assert [] + [first] == [first] && [first] + [Compare] == [first, Compare];
    RunTogether(StartWorld(start), [], first);
    RunTogether(StartWorld(start), [first], Compare);
    hide Run, Log;
  }

  // ---------- the other queries ----------

  /** The five values served are those of one single answer of the reader, within the TTL. */
  lemma ServedDetailsAreOneAnswer(start: int, acts: seq<Act>, now: int, ttl: int)
    requires ReadDetails(WorldAfter(start, acts).cache, now, ttl).Success?
    ensures exists t: int :: now - t <= ttl
              && GaveDetails(ReadDetails(WorldAfter(start, acts).cache, now, ttl).value, t) in LogOf(start, acts)
  {
    RunExplained(start, acts);
    var cache := WorldAfter(start, acts).cache;
    hide LogOf, WorldAfter;
    assert GaveDetails(cache.details, cache.transTS.value) in LogOf(start, acts);
  }

  /**
   The block served was reported as the latest no later than the stamp; the digest is that of a
   configuration of that block which was given or reported within the TTL.
   */
  lemma ServedBlockIsFromReader(start: int, acts: seq<Act>, now: int, ttl: int)
    requires ReadConfigDetails(WorldAfter(start, acts).cache, now, ttl).Success?
    ensures var w, log := WorldAfter(start, acts), LogOf(start, acts);
            var served := ReadConfigDetails(w.cache, now, ttl).value;
            && w.reportedAt.Some? && w.reportedAt.value <= w.cache.configTS.value
            && Reported(log, served.0, w.reportedAt.value)
            && (exists config: ContractConfig ::
                  config.configDigest == served.1 && AnsweredWithin(log, served.0, config, now, ttl))
  {
    RunExplained(start, acts);
    var cache, log := WorldAfter(start, acts).cache, LogOf(start, acts);
    hide LogOf, WorldAfter;
    var ts := cache.configTS.value;
    assert now - ts <= ttl;
    assert GaveConfig(cache.configBlock, cache.config, ts) in log
        || SaidLatest(cache.configBlock, cache.config.configDigest, ts) in log;
    assert AnsweredWithin(log, cache.configBlock, cache.config, now, ttl);
  }
}
