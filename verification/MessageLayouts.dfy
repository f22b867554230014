/**
 The bytes of the generated messages written out: what a varint stands for, which tag byte
 precedes which field in which order, and which wire types a decoder refuses.
 */
module MessageLayouts {
  import opened Wrappers
  import opened Bytes
  import opened Wire
  import opened Records
  import opened Messages
  import ContractConfigMessage
  import ReportToSignMessage
  import ObservationsCountsMessage
  import CountMessage
  import FeedCountsMessage

  // ---------- varints as numbers ----------

  /** Seven bits a byte, the least significant first. */
  function Base128(s: seq<byte>): nat {
    if |s| == 0 then 0 else s[0] % 128 + 128 * Base128(s[1..])
  }

  /**
   A varint is the number in base 128, with the continuation bit on all bytes but the last, and no
   longer than need be.
   */
  lemma {:induction false} VarintIsBase128(v: nat)
    ensures var s := EncodeVarint(v);
            && Base128(s) == v && s[|s| - 1] < 128 && (|s| > 1 ==> s[|s| - 1] > 0)
            && forall i :: 0 <= i < |s| - 1 ==> s[i] >= 128
  {
    VarintGroups(v);
    if v >= 128 {
      VarintIsBase128(v / 128);
      var low: nat, tail := v % 128, EncodeVarint(v / 128);
      assert EncodeVarint(v)[1..] == tail && EncodeVarint(v)[0] == low + 128;
    } else {
      assert [v][1..] == [];
    }
  }

  /** The index of the first byte without a continuation bit, or the end. */
  function Stop(s: seq<byte>): (k: nat)
    ensures k <= |s| && (k < |s| ==> s[k] < 128) && forall i :: 0 <= i < k ==> s[i] >= 128
  {
    if |s| == 0 || s[0] < 128 then 0 else 1 + Stop(s[1..])
  }

  lemma ModAdd(acc: nat, x: nat, rest: nat, m: nat)
    requires m > 0
    ensures ((acc + x) % m + rest) % m == (acc + x + rest) % m
  {
    var q, r := (acc + x) / m, (acc + x) % m;
    assert acc + x == q * m + r;
    ModShift(r + rest, q, m);
  }

  lemma ModShift(x: nat, q: nat, m: nat)
    requires m > 0
    ensures (q * m + x) % m == x % m
  {
    var k, n := x / m, q * m + x;
    assert x == k * m + x % m && (q + k) * m == q * m + k * m;
    QuotientIs(n, m, q + k);
    assert n == n / m * m + n % m;
  }

  /** A byte with a continuation bit adds its group and leaves the rest to the bytes behind it. */
  lemma Continues(s: seq<byte>, shift: nat, acc: nat, modulus: nat)
    requires modulus > 0 && shift < 64 && |s| > 0 && s[0] >= 128
    ensures var rest := VarintFrom(s[1..], shift + 7, (acc + s[0] % 128 * Pow2(shift)) % modulus, modulus);
            VarintFrom(s, shift, acc, modulus)
            == if rest.Failure? then rest else Success(Varint(rest.value.value, rest.value.length + 1))
  {
    hide Pow2;
  }

  lemma FirstGroup(s: seq<byte>, k: nat)
    requires 0 < k < |s|
    ensures Base128(s[..k + 1]) == s[0] % 128 + 128 * Base128(s[1..][..k])
  {
    assert s[..k + 1][1..] == s[1..][..k] && s[..k + 1][0] == s[0];
  }

  lemma GroupsAdd(low: nat, high: nat, acc: nat, j: nat, modulus: nat)
    requires modulus > 0
    ensures ((acc + low * Pow2(7 * j)) % modulus + high * Pow2(7 * (j + 1))) % modulus
         == (acc + (low + 128 * high) * Pow2(7 * j)) % modulus
  {
    Pow2Add(7 * j, 7);
    Pow2Values();
    assert 7 * (j + 1) == 7 * j + 7;
    Weight(low, high, Pow2(7 * j));
    hide Pow2;
    ModAdd(acc, low * Pow2(7 * j), high * Pow2(7 * (j + 1)), modulus);
  }

  lemma OneGroup(s: seq<byte>, j: nat, acc: nat, modulus: nat)
    requires modulus > 0 && j < 10 && |s| > 0 && s[0] < 128
    ensures VarintFrom(s, 7 * j, acc, modulus) == Success(Varint((acc + Base128(s[..1]) * Pow2(7 * j)) % modulus, 1))
  {
    assert s[..1] == [s[0]] && [s[0]][1..] == [];
    assert Base128(s[..1]) == s[0] as nat;
  }

  lemma FirstWeight()
    ensures Pow2(7 * 0) == 1
  {
    assert 7 * 0 == 0;
  }

  /** What the loop makes of the bytes from here on, j groups being behind it. */
  ghost predicate Means(r: Result<Varint, WireError>, s: seq<byte>, j: nat, acc: nat, modulus: nat)
    requires modulus > 0
  {
    var k := Stop(s);
    r == if j + k >= 10 then Failure(IntOverflow)
         else if k == |s| then Failure(UnexpectedEof)
         else Success(Varint((acc + Base128(s[..k + 1]) * Pow2(7 * j)) % modulus, k + 1))
  }

  lemma MeansContinued(r: Result<Varint, WireError>, rest: Result<Varint, WireError>, s: seq<byte>, j: nat, acc: nat,
      modulus: nat)
    requires modulus > 0 && j < 10 && |s| > 0 && s[0] >= 128
    requires Means(rest, s[1..], j + 1, (acc + s[0] % 128 * Pow2(7 * j)) % modulus, modulus)
    requires r == if rest.Failure? then rest else Success(Varint(rest.value.value, rest.value.length + 1))
    ensures Means(r, s, j, acc, modulus)
  {
    var k, low: nat := Stop(s), s[0] % 128;
    assert k == 1 + Stop(s[1..]);
    hide Base128, Pow2, Stop;
    if k < |s| {
      FirstGroup(s, k);
      GroupsAdd(low, Base128(s[1..][..k]), acc, j, modulus);
    }
  }

  lemma {:induction false} VarintFromMeans(s: seq<byte>, j: nat, acc: nat, modulus: nat)
    requires modulus > 0
    ensures Means(VarintFrom(s, 7 * j, acc, modulus), s, j, acc, modulus)
    decreases |s|
  {
    if j < 10 && |s| > 0 {
      if s[0] < 128 {
        OneGroup(s, j, acc, modulus);
      } else {
        var low: nat := s[0] % 128;
        VarintFromMeans(s[1..], j + 1, (acc + low * Pow2(7 * j)) % modulus, modulus);
        hide VarintFrom, Means, Pow2;
        assert 7 * j + 7 == 7 * (j + 1);
        Continues(s, 7 * j, acc, modulus);
        var rest := VarintFrom(s[1..], 7 * (j + 1), (acc + low * Pow2(7 * j)) % modulus, modulus);
        MeansContinued(VarintFrom(s, 7 * j, acc, modulus), rest, s, j, acc, modulus);
      }
    }
  }

  lemma Weight(low: nat, high: nat, weight: nat)
    ensures (low + 128 * high) * weight == low * weight + high * (weight * 128)
  {
    assert 128 * high * weight == high * (weight * 128);
  }

  /**
   What the varint loop answers on any bytes at all: the number up to the first byte without a
   continuation bit, cut to the width of its type; after ten bytes that all have one it overflows.
   */
  lemma ReadVarintMeans(s: seq<byte>, modulus: nat)
    requires modulus > 0
    ensures var k := Stop(s);
            ReadVarint(s, modulus)
            == if k >= 10 then Failure(IntOverflow)
               else if k == |s| then Failure(UnexpectedEof)
               else Success(Varint(Base128(s[..k + 1]) % modulus, k + 1))
  {
    VarintFromMeans(s, 0, 0, modulus);
    FirstWeight();
    hide VarintFrom, Stop, Base128, Pow2;
  }

  // ---------- layouts ----------

  /** A number behind its tag byte, left out when it is zero. */
  function NumPart(tag: byte, value: nat): seq<byte> {
    if value == 0 then [] else [tag] + EncodeVarint(value)
  }

  /** Bytes behind their tag byte and length, left out when there are none. */
  function BinPart(tag: byte, payload: seq<byte>): seq<byte> {
    if |payload| == 0 then [] else [tag] + EncodeVarint(|payload|) + payload
  }

  /** Each element behind a tag byte and its length, also an empty one. */
  function BinParts(tag: byte, payloads: seq<seq<byte>>): seq<byte> {
    if |payloads| == 0 then []
    else BinParts(tag, payloads[..|payloads| - 1]) + [tag] + EncodeVarint(|payloads[|payloads| - 1]|)
         + payloads[|payloads| - 1]
  }

  lemma NumLayout(number: nat, value: nat)
    requires 0 < number < 16
    ensures EncodeFields(OptNum(number, value)) == NumPart(8 * number, value)
  {
    if value != 0 {
      EncodeOne(Num(number, value));
      OneByteTag(number, 0);
    }
  }

  lemma BinLayout(number: nat, payload: seq<byte>)
    requires 0 < number < 16
    ensures EncodeFields(OptBin(number, payload)) == BinPart(8 * number + 2, payload)
  {
    if |payload| > 0 {
      EncodeOne(Bin(number, payload));
      OneByteTag(number, 2);
    }
  }

  lemma FourParts(a: seq<byte>, b: seq<byte>, c: seq<byte>, d: seq<byte>)
    ensures a + b + c + d == a + (b + c + d)
  {
  }

  lemma {:induction false} EachLayout(number: nat, payloads: seq<seq<byte>>)
    requires 0 < number < 16
    ensures EncodeFields(Each(number, payloads)) == BinParts(8 * number + 2, payloads)
    decreases |payloads|
  {
    if |payloads| > 0 {
      var k := |payloads| - 1;
      EachLayout(number, payloads[..k]);
      assert payloads[..k + 1] == payloads;
      EachAppend(number, payloads, k);
      hide EncodeFields, EncodeField, EncodeVarint, Each, EncodeTag;
      OneByteTag(number, 2);
      HeaderAndPayload(number, payloads[k]);
      FourParts(BinParts(8 * number + 2, payloads[..k]), [8 * number + 2], EncodeVarint(|payloads[k]|), payloads[k]);
    }
  }

  /** The fields of a configuration in ascending order behind 0x08, 0x12, 0x1A, 0x20, 0x2A, 0x30 and 0x3A. */
  lemma ContractConfigLayout(m: ContractConfigMessage.ContractConfig)
    ensures ContractConfigMessage.Encode(m)
         == NumPart(0x08, m.configCount) + BinParts(0x12, m.signers) + BinParts(0x1A, m.transmitters)
            + NumPart(0x20, m.f) + BinPart(0x2A, m.onchainConfig) + NumPart(0x30, m.offchainConfigVersion)
            + BinPart(0x3A, m.offchainConfig)
  {
    ContractConfigMessage.EncodeParts(m);
    hide *;
    NumLayout(1, m.configCount);
    EachLayout(2, m.signers);
    EachLayout(3, m.transmitters);
    NumLayout(4, m.f);
    BinLayout(5, m.onchainConfig);
    NumLayout(6, m.offchainConfigVersion);
    BinLayout(7, m.offchainConfig);
  }

  lemma ReportToSignLayout(m: ReportToSignMessage.ReportToSign)
    ensures ReportToSignMessage.Encode(m)
         == BinPart(0x0A, m.configDigest) + NumPart(0x10, m.epoch) + NumPart(0x18, m.round)
            + BinPart(0x22, m.extraHash) + BinPart(0x2A, m.report)
  {
    ReportToSignMessage.EncodeParts(m);
    hide *;
    BinLayout(1, m.configDigest);
    NumLayout(2, m.epoch);
    NumLayout(3, m.round);
    BinLayout(4, m.extraHash);
    BinLayout(5, m.report);
  }

  /** The counts are packed: one tag byte and one length for all of them. */
  lemma ObservationsCountsLayout(m: ObservationsCountsMessage.ObservationsCounts)
    ensures ObservationsCountsMessage.Encode(m) == BinPart(0x0A, ObservationsCountsMessage.Pack(m.counts))
  {
    BinLayout(1, ObservationsCountsMessage.Pack(m.counts));
  }

  /** Packed counts are their varints one after the other. */
  lemma PackedCountAt(counts: seq<uint32>, k: nat)
    requires k < |counts|
    ensures ObservationsCountsMessage.Pack(counts)
         == ObservationsCountsMessage.Pack(counts[..k]) + EncodeVarint(counts[k])
            + ObservationsCountsMessage.Pack(counts[k + 1..])
  {
    hide ObservationsCountsMessage.Pack, EncodeVarint;
    assert counts[..k + 1] + counts[k + 1..] == counts;
    ObservationsCountsMessage.PackNext(counts, k);
    ObservationsCountsMessage.PackAppend(counts[..k + 1], counts[k + 1..]);
  }

  lemma CountLayout(m: CountMessage.Counter)
    ensures CountMessage.Encode(m) == BinPart(0x0A, m.address) + NumPart(0x10, m.count)
  {
    EncodeFieldsAppend(OptBin(1, m.address), OptNum(2, m.count));
    hide EncodeFields, OptBin, OptNum, BinPart, NumPart;
    BinLayout(1, m.address);
    NumLayout(2, m.count);
  }

  /** The nested encodings of the counts. */
  function Nested(counts: seq<CountMessage.Counter>): seq<seq<byte>> {
    seq(|counts|, i requires 0 <= i < |counts| =>
      BinPart(0x0A, counts[i].address) + NumPart(0x10, counts[i].count))
  }

  lemma FeedCountsLayout(m: FeedCountsMessage.FeedCounts)
    ensures FeedCountsMessage.Encode(m) == BinPart(0x0A, m.feedId) + BinParts(0x12, Nested(m.counts))
  {
    FeedCountsMessage.EncodeParts(m);
    forall i | 0 <= i < |m.counts| ensures FeedCountsMessage.Encodings(m.counts)[i] == Nested(m.counts)[i] {
      CountLayout(m.counts[i]);
    }
    assert FeedCountsMessage.Encodings(m.counts) == Nested(m.counts);
    hide *;
    BinLayout(1, m.feedId);
    EachLayout(2, Nested(m.counts));
  }

  // ---------- wire types ----------

  /** A field of a known number with the wrong wire type is refused, wherever in the data it comes. */
  lemma FirstFieldRefused<M>(schema: Schema<M>, s: seq<byte>, at: nat, m: M, e: WireError)
    requires ReadTag(s).Success? && ReadTag(s).value.number in schema.known
    requires schema.field(m, ReadTag(s).value, s[ReadTag(s).value.length..], at + ReadTag(s).value.length) == Failure(e)
    ensures Decode(schema, s, at, m) == Failure(e)
  {
    hide ReadTag;
    assert |s| > 0;
  }

  lemma ContractConfigWireTypes(s: seq<byte>, at: nat, m: ContractConfigMessage.ContractConfig)
    requires ReadTag(s).Success?
    requires var tag := ReadTag(s).value;
             || (tag.number in {1, 4, 6} && tag.wireType != 0) || (tag.number in {2, 3, 5, 7} && tag.wireType != 2)
    ensures Decode(ContractConfigMessage.FORMAT, s, at, m) == Failure(WrongWireType)
  {
    FirstFieldRefused(ContractConfigMessage.FORMAT, s, at, m, WrongWireType);
  }

  lemma ReportToSignWireTypes(s: seq<byte>, at: nat, m: ReportToSignMessage.ReportToSign)
    requires ReadTag(s).Success?
    requires var tag := ReadTag(s).value;
             || (tag.number in {2, 3} && tag.wireType != 0) || (tag.number in {1, 4, 5} && tag.wireType != 2)
    ensures Decode(ReportToSignMessage.FORMAT, s, at, m) == Failure(WrongWireType)
  {
    FirstFieldRefused(ReportToSignMessage.FORMAT, s, at, m, WrongWireType);
  }

  lemma ObservationsCountsWireTypes(s: seq<byte>, at: nat, m: ObservationsCountsMessage.ObservationsCounts)
    requires ReadTag(s).Success? && ReadTag(s).value.number == 1 && ReadTag(s).value.wireType !in {0, 2}
    ensures Decode(ObservationsCountsMessage.FORMAT, s, at, m) == Failure(WrongWireType)
  {
    FirstFieldRefused(ObservationsCountsMessage.FORMAT, s, at, m, WrongWireType);
  }

  lemma CountWireTypes(s: seq<byte>, at: nat, m: CountMessage.Counter)
    requires ReadTag(s).Success?
    requires var tag := ReadTag(s).value;
             (tag.number == 1 && tag.wireType != 2) || (tag.number == 2 && tag.wireType != 0)
    ensures Decode(CountMessage.FORMAT, s, at, m) == Failure(WrongWireType)
  {
    FirstFieldRefused(CountMessage.FORMAT, s, at, m, WrongWireType);
  }

  lemma FeedCountsWireTypes(s: seq<byte>, at: nat, m: FeedCountsMessage.FeedCounts)
    requires ReadTag(s).Success? && ReadTag(s).value.number in {1, 2} && ReadTag(s).value.wireType != 2
    ensures Decode(FeedCountsMessage.FORMAT, s, at, m) == Failure(WrongWireType)
  {
    FirstFieldRefused(FeedCountsMessage.FORMAT, s, at, m, WrongWireType);
  }
}
