/**
 The byte format of an OCR2 report: timestamp, observer indices, a length-prefixed list of
 128-bit observations in ascending order, and the juels-per-fee-coin price.

 BuildReport and MedianFromReport are the node's side, DecodeReport is the contract's.
 */
module Report {
  import opened Wrappers
  import opened Bytes
  import opened Medians
  import opened Seqs

  const TIMESTAMP_SIZE: nat := 4
  const OBSERVERS_SIZE: nat := 32
  const LENGTH_SIZE: nat := 1
  const PREFIX_SIZE: nat := TIMESTAMP_SIZE + OBSERVERS_SIZE + LENGTH_SIZE
  const JUELS_SIZE: nat := 16
  const OBSERVATION_SIZE: nat := 16
  const MAX_ORACLES: nat := 31

  datatype Observation = Observation(timestamp: uint32, value: int, juelsPerFeeCoin: int, observer: byte)

  datatype ReportError = NoObservations | ObserverIndexOutOfRange | NumberOutOfRange | BadLength

  datatype Decoded = Decoded(
    observations: seq<int128>,
    observers: seq<byte>,
    observationsTimestamp: uint32,
    juelsPerFeeCoin: uint128)

  const BY_TIMESTAMP: Observation -> int := (o: Observation) => o.timestamp
  const BY_JUELS: Observation -> int := (o: Observation) => o.juelsPerFeeCoin
  const BY_VALUE: Observation -> int := (o: Observation) => o.value

  predicate InRange(x: int) {
    -TWO_127 <= x < TWO_127
  }

  // ---------- the format ----------

  function Values(p: seq<Observation>): (vs: seq<int>)
    ensures |vs| == |p|
    ensures forall i :: 0 <= i < |p| ==> vs[i] == p[i].value
  {
    seq(|p|, i requires 0 <= i < |p| => p[i].value)
  }

  function Observers(p: seq<Observation>, width: nat): (os: seq<byte>)
    ensures |os| == width
  {
    seq(width, i requires 0 <= i < width => if i < |p| then p[i].observer else 0)
  }

  function EncodeValues(vs: seq<int>): (r: seq<byte>)
    requires forall i :: 0 <= i < |vs| ==> InRange(vs[i])
    ensures |r| == OBSERVATION_SIZE * |vs|
  {
    if |vs| == 0 then []
    else
      assert InRange(vs[|vs| - 1]);
      EncodeValues(vs[..|vs| - 1]) + Be(ToTwos(vs[|vs| - 1]), OBSERVATION_SIZE)
  }

  function EncodeReport(timestamp: uint32, p: seq<Observation>, juels: int128): (r: seq<byte>)
    requires |p| < TWO_8 && forall i :: 0 <= i < |p| ==> InRange(p[i].value)
    ensures |r| == MaxReportLength(|p|)
  {
    Be(timestamp, TIMESTAMP_SIZE) + Observers(p, OBSERVERS_SIZE) + [|p|]
    + EncodeValues(Values(p)) + Be(ToTwos(juels), JUELS_SIZE)
  }

  function MaxReportLength(n: nat): nat {
    PREFIX_SIZE + n * OBSERVATION_SIZE + JUELS_SIZE
  }

  // ---------- the node: building a report ----------

  function InsertByKey<T>(s: seq<T>, x: T, key: T -> int): (r: seq<T>)
    ensures |r| == |s| + 1
  {
    if |s| == 0 || key(s[|s| - 1]) <= key(x) then s + [x]
    else InsertByKey(s[..|s| - 1], x, key) + [s[|s| - 1]]
  }

  function SortByKey<T>(s: seq<T>, key: T -> int): (r: seq<T>)
    ensures |r| == |s|
  {
    if |s| == 0 then [] else InsertByKey(SortByKey(s[..|s| - 1], key), s[|s| - 1], key)
  }

  lemma {:induction false} InsertKeepsSorted<T>(s: seq<T>, x: T, key: T -> int)
    requires SortedBy(s, key)
    ensures IsSorting(InsertByKey(s, x, key), s + [x], key)
  {
    if |s| > 0 && key(s[|s| - 1]) > key(x) {
      var front, last := s[..|s| - 1], s[|s| - 1];
      InsertKeepsSorted(front, x, key);
      assert s == front + [last];
      hide InsertByKey;
      SortingAndLast(InsertByKey(front, x, key), front, x, last, key);
    }
  }

  /** The largest element behind a sorting of the others. */
  lemma SortingAndLast<T>(r: seq<T>, front: seq<T>, x: T, last: T, key: T -> int)
    requires IsSorting(r, front + [x], key)
    requires key(x) <= key(last) && forall i :: 0 <= i < |front| ==> key(front[i]) <= key(last)
    ensures IsSorting(r + [last], front + [last] + [x], key)
  {
    PermutationStaysBelow(r, front + [x], key, key(last));
    assert multiset(r + [last]) == multiset(r) + multiset{last};
    assert multiset(front + [last] + [x]) == multiset(front) + multiset{last} + multiset{x};
  }

  lemma PermutationStaysBelow<T>(r: seq<T>, s: seq<T>, key: T -> int, bound: int)
    requires multiset(r) == multiset(s) && forall i :: 0 <= i < |s| ==> key(s[i]) <= bound
    ensures forall i :: 0 <= i < |r| ==> key(r[i]) <= bound
  {
    forall i | 0 <= i < |r| ensures key(r[i]) <= bound {
      assert r[i] in multiset(s);
      assert r[i] in s;
    }
  }

  lemma SortingOn<T>(r: seq<T>, sorted: seq<T>, front: seq<T>, last: T, key: T -> int)
    requires IsSorting(sorted, front, key) && IsSorting(r, sorted + [last], key)
    ensures IsSorting(r, front + [last], key)
  {
    assert multiset(sorted + [last]) == multiset(sorted) + multiset{last};
    assert multiset(front + [last]) == multiset(front) + multiset{last};
  }

  lemma {:induction false} SortByKeySorts<T>(s: seq<T>, key: T -> int)
    ensures IsSorting(SortByKey(s, key), s, key)
  {
    if |s| > 0 {
      var front, last := s[..|s| - 1], s[|s| - 1];
      assert s == front + [last];
      assert SortByKey(s, key) == InsertByKey(SortByKey(front, key), last, key);
      SortByKeySorts(front, key);
      hide InsertByKey, SortByKey, SortedBy;
      InsertKeepsSorted(SortByKey(front, key), last, key);
      hide IsSorting;
      SortingOn(InsertByKey(SortByKey(front, key), last, key), SortByKey(front, key), front, last, key);
    }
  }

  /** The library's in-place sort; its result is only relied on to be some sorting. */
  method SortSlice<T>(a: array<T>, key: T -> int)
    modifies a
    ensures IsSorting(a[..], old(a[..]), key)
  {
    var sorted := SortByKey(a[..], key);
    SortByKeySorts(a[..], key);
    forall i | 0 <= i < a.Length {
      a[i] := sorted[i];
    }
    assert a[..] == sorted;
  }

  function SerializeSigned(x: int): Option<seq<byte>> {
    if InRange(x) then Some(Be(ToTwos(x), OBSERVATION_SIZE)) else None
  }

  predicate Encodable(input: seq<Observation>, juels: int) {
    && 1 <= |input| <= OBSERVERS_SIZE
    && (forall i :: 0 <= i < |input| ==> InRange(input[i].value))
    && InRange(juels)
  }

  /** Sorts the working copy and picks its middle element. */
  method SortAndPick(oo: array<Observation>, key: Observation -> int, ghost input: seq<Observation>)
    returns (middle: Observation)
    requires oo.Length > 0 && multiset(oo[..]) == multiset(input)
    modifies oo
    ensures IsSorting(oo[..], input, key)
    ensures oo.Length == |input| && IsMedian(key(middle), input, key)
  {
    SortSlice(oo, key);
    MiddleIsMedian(oo[..], input, key);
    middle := oo[oo.Length / 2];
  }

  lemma EncodeValuesSnoc(vs: seq<int>, i: nat)
    requires i < |vs| && forall j :: 0 <= j <= i ==> InRange(vs[j])
    ensures EncodeValues(vs[..i + 1]) == EncodeValues(vs[..i]) + Be(ToTwos(vs[i]), OBSERVATION_SIZE)
  {
    assert vs[..i + 1][..i] == vs[..i];
  }

  /** Appends the values, or fails at the first that does not fit. */
  method AppendValues(prefix: seq<byte>, observations: seq<int>) returns (r: Option<seq<byte>>)
    ensures r.Some? <==> forall j :: 0 <= j < |observations| ==> InRange(observations[j])
    ensures r.Some? ==> r.value == prefix + EncodeValues(observations)
  {
    var report := prefix;
    assert prefix + EncodeValues(observations[..0]) == prefix;
    for i := 0 to |observations|
      invariant forall j :: 0 <= j < i ==> InRange(observations[j])
      invariant report == prefix + EncodeValues(observations[..i])
    {
      hide EncodeValues, Be;
      match SerializeSigned(observations[i]) {
        case None => return None;
        case Some(bytes) =>
          EncodeValuesSnoc(observations, i);
          report := report + bytes;
      }
    }
    assert observations[..|observations|] == observations;
    return Some(report);
  }

  /** Writes observers and observations of the sorted slice, then the price. */
  method Serialize(timestamp: uint32, juels: int, p: seq<Observation>) returns (r: Result<seq<byte>, ReportError>)
    requires |p| > 0
    ensures r == if |p| > OBSERVERS_SIZE then Failure(ObserverIndexOutOfRange)
                 else if !Encodable(p, juels) then Failure(NumberOutOfRange)
                 else Success(EncodeReport(timestamp, p, juels))
  {
    var observers := new byte[32](_ => 0);
    var observations: seq<int> := [];
    for i := 0 to |p|
      invariant i <= 32
      invariant observers[..] == Observers(p[..i], OBSERVERS_SIZE)
      invariant observations == Values(p[..i])
    {
      if i >= 32 {
        return Failure(ObserverIndexOutOfRange);
      }
      observers[i] := p[i].observer;
      observations := observations + [p[i].value];
    }
    assert p[..|p|] == p;

    hide Be, EncodeValues;
    var appended := AppendValues(Be(timestamp, 4) + observers[..] + [|observations| % TWO_8], observations);
    if appended.None? {
      assert exists j :: 0 <= j < |p| && !InRange(p[j].value);
      return Failure(NumberOutOfRange);
    }
    var report := appended.value;
    match SerializeSigned(juels) {
      case None => return Failure(NumberOutOfRange);
      case Some(bytes) => report := report + bytes;
    }
    return Success(report);
  }

  /**
   Three sorts of one copy of the input: the first two only pick the median timestamp and the
   median price, the last one fixes the order of values and observers.
   */
  method BuildReport(input: seq<Observation>) returns (r: Result<seq<byte>, ReportError>)
    ensures |input| == 0 ==> r == Failure(NoObservations)
    ensures |input| > OBSERVERS_SIZE ==> r == Failure(ObserverIndexOutOfRange)
    ensures r.Success? <==> exists j :: IsMedian(j, input, BY_JUELS) && Encodable(input, j)
    ensures r.Success? ==>
              exists timestamp: uint32, juels: int128, p: seq<Observation> ::
                && IsMedian(timestamp, input, BY_TIMESTAMP)
                && IsMedian(juels, input, BY_JUELS)
                && IsSorting(p, input, BY_VALUE)
                && Encodable(p, juels)
                && r.value == EncodeReport(timestamp, p, juels)
    ensures r.Success? && |input| <= 31 ==>
              var d := DecodeReport(r.value);
              && d.Success? && |d.value.observations| <= |d.value.observers|
              && multiset(Attributed(d.value)) == multiset(Map(input, PAIR))
  {
    var n := |input|;
    if n == 0 {
      return Failure(NoObservations);
    }
    var oo := new Observation[n](i requires 0 <= i < n => input[i]);
    assert oo[..] == input;
    var first := SortAndPick(oo, BY_TIMESTAMP, input);
    var second := SortAndPick(oo, BY_JUELS, input);
    var timestamp, juels := first.timestamp, second.juelsPerFeeCoin;
    forall j | IsMedian(j, input, BY_JUELS) ensures j == juels {
      MedianIsUnique(j, juels, input, BY_JUELS);
    }
    SortSlice(oo, BY_VALUE);
    SameRange(oo[..], input);
    assert IsMedian(timestamp, input, BY_TIMESTAMP) && IsMedian(juels, input, BY_JUELS);
    r := Serialize(timestamp, juels, oo[..]);
    assert |oo[..]| == |multiset(oo[..])| == |multiset(input)| == |input|;
    if r.Success? && |input| <= 31 {
      AttributionsKept(timestamp, oo[..], juels, input);
    }
  }

  lemma SameRange(p: seq<Observation>, s: seq<Observation>)
    requires multiset(p) == multiset(s)
    ensures (forall i :: 0 <= i < |p| ==> InRange(p[i].value)) <==> (forall i :: 0 <= i < |s| ==> InRange(s[i].value))
  {
    forall i | 0 <= i < |p| ensures p[i] in s {
      assert p[i] in multiset(s);
    }
    forall i | 0 <= i < |s| ensures s[i] in p {
      assert s[i] in multiset(p);
    }
  }

  // ---------- the contract: decoding a report ----------

  function DecodeValues(raw: seq<byte>, n: nat): (vs: seq<int128>)
    requires |raw| == OBSERVATION_SIZE * n
    ensures |vs| == n
  {
    seq(n, i requires 0 <= i < n => DecodeValue(raw[OBSERVATION_SIZE * i..OBSERVATION_SIZE * (i + 1)]))
  }

  function DecodeValue(raw: seq<byte>): int128
    requires |raw| == OBSERVATION_SIZE
  {
    FromTwos(U128FromBe(raw))
  }

  function DecodeReport(raw: seq<byte>): (r: Result<Decoded, ReportError>)
    ensures r.Success? ==> |r.value.observers| == MAX_ORACLES
  {
    if |raw| < PREFIX_SIZE then Failure(BadLength)
    else
      var n := raw[TIMESTAMP_SIZE + OBSERVERS_SIZE];
      var rest := raw[PREFIX_SIZE..];
      if |rest| != OBSERVATION_SIZE * n + JUELS_SIZE then Failure(BadLength)
      else
        Success(Decoded(
          DecodeValues(rest[..OBSERVATION_SIZE * n], n),
          raw[TIMESTAMP_SIZE..TIMESTAMP_SIZE + MAX_ORACLES],
          U32FromBe(raw[..TIMESTAMP_SIZE]),
          U128FromBe(rest[OBSERVATION_SIZE * n..])))
  }

  // ---------- the node: reading the median back ----------

  function MedianOf(raw: seq<byte>): (r: Result<int128, ReportError>) {
    if |raw| < PREFIX_SIZE then Failure(BadLength)
    else
      var n := raw[TIMESTAMP_SIZE + OBSERVERS_SIZE];
      if n == 0 then Failure(NoObservations)
      else if |raw| < MaxReportLength(n) then Failure(BadLength)
      else
        var start := PREFIX_SIZE + OBSERVATION_SIZE * (n / 2);
        Success(DecodeValue(raw[start..start + OBSERVATION_SIZE]))
  }

  method MedianFromReport(raw: seq<byte>) returns (r: Result<int128, ReportError>)
    ensures r == MedianOf(raw)
  {
    if |raw| < PREFIX_SIZE {
      return Failure(BadLength);
    }
    var n := raw[TIMESTAMP_SIZE + OBSERVERS_SIZE];
    if n == 0 {
      return Failure(NoObservations);
    }
    if |raw| < PREFIX_SIZE + OBSERVATION_SIZE * n + JUELS_SIZE {
      return Failure(BadLength);
    }
    var observations: seq<int128> := [];
    for i := 0 to n
      invariant |observations| == i
      invariant forall j :: 0 <= j < i ==>
        observations[j]
        == DecodeValue(raw[PREFIX_SIZE + OBSERVATION_SIZE * j
                           ..PREFIX_SIZE + OBSERVATION_SIZE * j + OBSERVATION_SIZE])
    {
      var start := PREFIX_SIZE + OBSERVATION_SIZE * i;
      observations := observations + [DecodeValue(raw[start..start + OBSERVATION_SIZE])];
    }
    return Success(observations[n / 2]);
  }

  // ---------- agreement of the two sides ----------

  lemma ValueRoundTrip(x: int128)
    ensures DecodeValue(Be(ToTwos(x), OBSERVATION_SIZE)) == x
  {
    Pow256Values();
    BeRoundTrip(ToTwos(x), OBSERVATION_SIZE);
  }

  lemma {:induction false} EncodeValuesAt(vs: seq<int>, i: nat)
    requires i < |vs| && forall k :: 0 <= k < |vs| ==> InRange(vs[k])
    ensures EncodeValues(vs)[OBSERVATION_SIZE * i..OBSERVATION_SIZE * (i + 1)] == Be(ToTwos(vs[i]), OBSERVATION_SIZE)
  {
    var front := vs[..|vs| - 1];
    if i < |front| {
      EncodeValuesAt(front, i);
      assert EncodeValues(vs)[OBSERVATION_SIZE * i..OBSERVATION_SIZE * (i + 1)]
          == EncodeValues(front)[OBSERVATION_SIZE * i..OBSERVATION_SIZE * (i + 1)];
    }
  }

  lemma ValueAtRoundTrip(vs: seq<int>, i: nat)
    requires i < |vs| && forall k :: 0 <= k < |vs| ==> InRange(vs[k])
    ensures DecodeValue(EncodeValues(vs)[OBSERVATION_SIZE * i..OBSERVATION_SIZE * (i + 1)]) == vs[i]
  {
    EncodeValuesAt(vs, i);
    ValueRoundTrip(vs[i]);
  }

  lemma ValuesRoundTrip(vs: seq<int>)
    requires forall k :: 0 <= k < |vs| ==> InRange(vs[k])
    ensures DecodeValues(EncodeValues(vs), |vs|) == vs
  {
    hide EncodeValues, DecodeValue, InRange;
    var raw := EncodeValues(vs);
    var back := DecodeValues(raw, |vs|);
    forall i: nat | i < |vs| ensures back[i] == vs[i] {
      ValueAtRoundTrip(vs, i);
    }
  }

  /** Where the parts of a report are. */
  lemma ReportParts(timestamp: uint32, p: seq<Observation>, juels: int128)
    requires |p| < TWO_8 && forall i :: 0 <= i < |p| ==> InRange(p[i].value)
    ensures var raw := EncodeReport(timestamp, p, juels);
            var rest := raw[PREFIX_SIZE..];
            && raw[..TIMESTAMP_SIZE] == Be(timestamp, TIMESTAMP_SIZE)
            && raw[TIMESTAMP_SIZE..TIMESTAMP_SIZE + MAX_ORACLES] == Observers(p, MAX_ORACLES)
            && raw[TIMESTAMP_SIZE + OBSERVERS_SIZE] == |p|
            && |rest| == OBSERVATION_SIZE * |p| + JUELS_SIZE
            && rest[..OBSERVATION_SIZE * |p|] == EncodeValues(Values(p))
            && rest[OBSERVATION_SIZE * |p|..] == Be(ToTwos(juels), JUELS_SIZE)
  {
    var raw := EncodeReport(timestamp, p, juels);
    assert raw[TIMESTAMP_SIZE..TIMESTAMP_SIZE + MAX_ORACLES] == Observers(p, OBSERVERS_SIZE)[..MAX_ORACLES]
        == Observers(p, MAX_ORACLES);
    hide Be, EncodeValues;
    assert raw[PREFIX_SIZE..] == EncodeValues(Values(p)) + Be(ToTwos(juels), JUELS_SIZE);
  }

  /** The bytes of a report, position by position. */
  lemma ReportLayout(timestamp: uint32, p: seq<Observation>, juels: int128)
    requires |p| <= 32 && forall i :: 0 <= i < |p| ==> InRange(p[i].value)
    ensures var raw := EncodeReport(timestamp, p, juels);
            && |raw| == 53 + 16 * |p|
            && raw[..4] == Be(timestamp, 4)
            && (forall i :: 0 <= i < 32 ==> raw[4 + i] == if i < |p| then p[i].observer else 0)
            && raw[36] == |p|
            && (forall i :: 0 <= i < |p| ==> raw[37 + 16 * i..53 + 16 * i] == Be(ToTwos(p[i].value), 16))
            && raw[37 + 16 * |p|..] == Be(ToTwos(juels), 16)
  {
    var raw, n := EncodeReport(timestamp, p, juels), |p|;
    ReportParts(timestamp, p, juels);
    var rest := raw[PREFIX_SIZE..];
    assert raw[4..36] == Observers(p, 32);
    assert raw[37 + 16 * n..] == rest[16 * n..];
    forall i | 0 <= i < n ensures raw[37 + 16 * i..53 + 16 * i] == Be(ToTwos(p[i].value), 16) {
      EncodeValuesAt(Values(p), i);
      assert raw[37 + 16 * i..53 + 16 * i] == rest[..16 * n][16 * i..16 * (i + 1)];
    }
    forall i | 0 <= i < 32 ensures raw[4 + i] == if i < n then p[i].observer else 0 {
      assert raw[4 + i] == raw[4..36][i];
    }
  }

  /** What a report says each observer observed; the decoder keeps 31 observers. */
  function Attributed(d: Decoded): (pairs: seq<(int, byte)>)
    requires |d.observations| <= |d.observers|
    ensures |pairs| == |d.observations|
  {
    seq(|d.observations|, i requires 0 <= i < |d.observations| => (d.observations[i], d.observers[i]))
  }

  const PAIR: Observation -> (int, byte) := (o: Observation) => (o.value, o.observer)

  /** The contract decodes each value next to the observer it came from, and 0 behind the last. */
  lemma ObserversAligned(timestamp: uint32, p: seq<Observation>, juels: int128)
    requires |p| < TWO_8 && forall i :: 0 <= i < |p| ==> InRange(p[i].value)
    ensures var d := DecodeReport(EncodeReport(timestamp, p, juels));
            && d.Success? && |d.value.observations| == |p| && |d.value.observers| == 31
            && (forall i :: 0 <= i < |p| ==> d.value.observations[i] == p[i].value)
            && (forall i :: 0 <= i < 31 ==> d.value.observers[i] == if i < |p| then p[i].observer else 0)
  {
    ReportRoundTrip(timestamp, p, juels);
    hide EncodeReport, DecodeReport;
  }

  /** With at most 31 observations, the decoded attributions are those of the input, each as often as there. */
  lemma AttributionsKept(timestamp: uint32, p: seq<Observation>, juels: int128, input: seq<Observation>)
    requires multiset(p) == multiset(input) && |p| <= 31 && forall i :: 0 <= i < |p| ==> InRange(p[i].value)
    ensures var d := DecodeReport(EncodeReport(timestamp, p, juels));
            && d.Success? && |d.value.observations| <= |d.value.observers|
            && multiset(Attributed(d.value)) == multiset(Map(input, PAIR))
  {
    ObserversAligned(timestamp, p, juels);
    var d := DecodeReport(EncodeReport(timestamp, p, juels)).value;
    hide EncodeReport, DecodeReport;
    assert Attributed(d) == Map(p, PAIR);
    MapPermutation(p, input, PAIR);
  }

  /**
   Decoding what was built gives the values in order, each aligned with its observer, the
   timestamp, and the price as an unsigned number.
   */
  lemma ReportRoundTrip(timestamp: uint32, p: seq<Observation>, juels: int128)
    requires |p| < TWO_8 && forall i :: 0 <= i < |p| ==> InRange(p[i].value)
    ensures DecodeReport(EncodeReport(timestamp, p, juels))
            == Success(Decoded(Values(p), Observers(p, MAX_ORACLES), timestamp, ToTwos(juels)))
  {
    ReportParts(timestamp, p, juels);
    Pow256Values();
    BeRoundTrip(timestamp, TIMESTAMP_SIZE);
    BeRoundTrip(ToTwos(juels), JUELS_SIZE);
    ValuesRoundTrip(Values(p));
    hide EncodeReport, EncodeValues, Be, Values, Observers, DecodeValues, ToTwos;
  }

  /** On every report the contract accepts with an observation, the node reads the answer the contract stores. */
  lemma NodeReadsStoredAnswer(raw: seq<byte>)
    requires DecodeReport(raw).Success? && |DecodeReport(raw).value.observations| > 0
    ensures var obs := DecodeReport(raw).value.observations;
            MedianOf(raw) == Success(obs[|obs| / 2])
  {
    var n := raw[TIMESTAMP_SIZE + OBSERVERS_SIZE];
    var rest := raw[PREFIX_SIZE..];
    var start := PREFIX_SIZE + OBSERVATION_SIZE * (n / 2);
    assert n / 2 < n;
    assert rest[..OBSERVATION_SIZE * n] == raw[PREFIX_SIZE..PREFIX_SIZE + OBSERVATION_SIZE * n];
    assert raw[start..start + OBSERVATION_SIZE]
        == rest[..OBSERVATION_SIZE * n][OBSERVATION_SIZE * (n / 2)..OBSERVATION_SIZE * (n / 2 + 1)];
  }

  /** The number of observations a report claims to have. */
  function CountByte(raw: seq<byte>): byte
    requires |raw| >= PREFIX_SIZE
  {
    raw[TIMESTAMP_SIZE + OBSERVERS_SIZE]
  }

  /** The two readers accept the same reports, apart from trailing bytes and reports without observations. */
  lemma ReadersAcceptIff(raw: seq<byte>)
    ensures DecodeReport(raw).Success? <==> |raw| >= PREFIX_SIZE && |raw| == MaxReportLength(CountByte(raw))
    ensures MedianOf(raw).Success? <==>
              |raw| >= PREFIX_SIZE && CountByte(raw) > 0 && |raw| >= MaxReportLength(CountByte(raw))
    ensures (MedianOf(raw).Success? <==> DecodeReport(raw).Success?) <==>
              || |raw| < PREFIX_SIZE
              || (if CountByte(raw) == 0 then |raw| != MaxReportLength(0) else |raw| <= MaxReportLength(CountByte(raw)))
  {
    if |raw| >= PREFIX_SIZE {
      var n := CountByte(raw);
      assert |raw[PREFIX_SIZE..]| == OBSERVATION_SIZE * n + JUELS_SIZE <==> |raw| == MaxReportLength(n);
    }
  }

  /** Where both accept, the node reads the value the contract stores. */
  lemma ReadersAgreeOnValue(raw: seq<byte>)
    requires MedianOf(raw).Success? && DecodeReport(raw).Success?
    ensures var obs := DecodeReport(raw).value.observations;
            |obs| > 0 && MedianOf(raw) == Success(obs[|obs| / 2])
  {
    ReadersAcceptIff(raw);
    NodeReadsStoredAnswer(raw);
  }

  /** Trailing bytes do not change what the node reads, and make the contract refuse an accepted report. */
  lemma NodeAcceptsTrailingBytes(raw: seq<byte>, extra: seq<byte>)
    requires MedianOf(raw).Success? && |extra| > 0
    ensures MedianOf(raw + extra) == MedianOf(raw)
    ensures DecodeReport(raw).Success? ==> DecodeReport(raw + extra).Failure?
  {
    var n := raw[TIMESTAMP_SIZE + OBSERVERS_SIZE];
    var start := PREFIX_SIZE + OBSERVATION_SIZE * (n / 2);
    assert (raw + extra)[start..start + OBSERVATION_SIZE] == raw[start..start + OBSERVATION_SIZE];
  }

  /** Reports on which the readers disagree, one in each direction. */
  lemma ReadersDisagree(timestamp: uint32, o: Observation, juels: int128)
    requires InRange(o.value)
    ensures var report := EncodeReport(timestamp, [o], juels);
            && DecodeReport(report).Success? && MedianOf(report) == Success(o.value)
            && DecodeReport(report + [0]).Failure? && MedianOf(report + [0]) == Success(o.value)
    ensures var empty := EncodeReport(timestamp, [], juels);
            DecodeReport(empty).Success? && DecodeReport(empty).value.observations == [] && MedianOf(empty).Failure?
  {
    var report := EncodeReport(timestamp, [o], juels);
    ReportRoundTrip(timestamp, [o], juels);
    ReportRoundTrip(timestamp, [], juels);
    NodeReadsStoredAnswer(report);
    hide EncodeReport;
    NodeAcceptsTrailingBytes(report, [0]);
    ReadersAcceptIff(EncodeReport(timestamp, [], juels));
  }

  // ---------- the price ----------

  /** The node writes the price with a sign and the contract reads it without: it survives if it is not negative. */
  lemma PriceReadsBackIff(timestamp: uint32, p: seq<Observation>, juels: int128)
    requires |p| < TWO_8 && forall i :: 0 <= i < |p| ==> InRange(p[i].value)
    ensures var d := DecodeReport(EncodeReport(timestamp, p, juels));
            && d.Success?
            && (d.value.juelsPerFeeCoin == juels <==> juels >= 0)
            && (juels < 0 ==> d.value.juelsPerFeeCoin == juels + TWO_128 >= TWO_127)
  {
    ReportRoundTrip(timestamp, p, juels);
    hide EncodeReport, DecodeReport;
  }

  /** A price of -1 is read as the largest number there is. */
  lemma NegativePriceIsMisread(timestamp: uint32, p: seq<Observation>)
    requires |p| < TWO_8 && forall i :: 0 <= i < |p| ==> InRange(p[i].value)
    ensures var d := DecodeReport(EncodeReport(timestamp, p, -1));
            d.Success? && d.value.juelsPerFeeCoin == TWO_128 - 1
  {
    PriceReadsBackIff(timestamp, p, -1);
    hide EncodeReport, DecodeReport;
  }

  // ---------- honest observers ----------

  lemma MiddleBetweenHonest(p: seq<Observation>, input: seq<Observation>, honest: set<nat>, f: nat)
    requires IsSorting(p, input, BY_VALUE)
    requires forall i :: i in honest ==> i < |input|
    requires |input| >= 2 * f + 1 && |honest| >= |input| - f
    ensures |p| == |input| && Between(p[|p| / 2].value, input, BY_VALUE, honest)
  {
    assert |p| == |multiset(p)| == |multiset(input)| == |input|;
    MiddleIsMedian(p, input, BY_VALUE);
    hide Between, IsMedian, IsSorting;
    MedianBetweenHonest(p[|p| / 2].value, input, BY_VALUE, honest, f);
  }

  /** A price between honest prices is not negative unless an honest one is. */
  lemma HonestPricesAreNotNegative(juels: int, input: seq<Observation>, honest: set<nat>)
    requires Between(juels, input, BY_JUELS, honest)
    requires forall i :: i in honest && i < |input| ==> input[i].juelsPerFeeCoin >= 0
    ensures juels >= 0
  {
    var i, j :| i in honest && j in honest && i < |input| && j < |input|
                && BY_JUELS(input[i]) <= juels <= BY_JUELS(input[j]);
    assert input[i].juelsPerFeeCoin <= juels;
  }

  /**
   With at most f of n >= 2f + 1 arbitrary inputs, whichever sorting was used, the answer and the
   timestamp the contract decodes are between two honest ones each, and so is the price unless it
   is negative, which takes an honest observer that reported a negative price.
   */
  lemma StoredAnswerBetweenHonest(
      input: seq<Observation>, timestamp: uint32, juels: int128, p: seq<Observation>, honest: set<nat>, f: nat)
    requires IsMedian(timestamp, input, BY_TIMESTAMP) && IsMedian(juels, input, BY_JUELS)
    requires IsSorting(p, input, BY_VALUE)
    requires |p| < TWO_8 && forall i :: 0 <= i < |p| ==> InRange(p[i].value)
    requires forall i :: i in honest ==> i < |input|
    requires |input| >= 2 * f + 1 && |honest| >= |input| - f
    ensures var d := DecodeReport(EncodeReport(timestamp, p, juels));
            && d.Success?
            && |d.value.observations| == |input|
            && Between(d.value.observations[|input| / 2], input, BY_VALUE, honest)
            && Between(d.value.observationsTimestamp, input, BY_TIMESTAMP, honest)
            && Between(juels, input, BY_JUELS, honest)
            && (juels >= 0 ==> Between(d.value.juelsPerFeeCoin, input, BY_JUELS, honest))
    ensures (forall i :: i in honest ==> input[i].juelsPerFeeCoin >= 0) ==> juels >= 0
  {
    ReportRoundTrip(timestamp, p, juels);
    PriceReadsBackIff(timestamp, p, juels);
    MiddleBetweenHonest(p, input, honest, f);
    MedianBetweenHonest(timestamp, input, BY_TIMESTAMP, honest, f);
    MedianBetweenHonest(juels, input, BY_JUELS, honest, f);
    hide EncodeReport, DecodeReport, IsMedian, IsSorting, Between;
    if forall i :: i in honest ==> input[i].juelsPerFeeCoin >= 0 {
      HonestPricesAreNotNegative(juels, input, honest);
    }
  }
}
