/** The OracleObservationsCounts message: one packed field of 32-bit counters. */
module ObservationsCountsMessage {
  import opened Wrappers
  import opened Bytes
  import opened Wire
  import opened Records
  import opened Messages

  datatype ObservationsCounts = ObservationsCounts(counts: seq<uint32>)

  const EMPTY: ObservationsCounts := ObservationsCounts([])

  /** The elements of a packed field, one varint after the other. */
  function Pack(counts: seq<uint32>): seq<byte> {
    if |counts| == 0 then [] else EncodeVarint(counts[0]) + Pack(counts[1..])
  }

  function Fields(m: ObservationsCounts): seq<Field> {
    OptBin(1, Pack(m.counts))
  }

  function Encode(m: ObservationsCounts): seq<byte> {
    EncodeFields(Fields(m))
  }

  lemma {:induction false} PackAppend(a: seq<uint32>, b: seq<uint32>)
    ensures Pack(a + b) == Pack(a) + Pack(b)
  {
    if |a| == 0 {
      assert a + b == b;
    } else {
      assert (a + b)[1..] == a[1..] + b;
      PackAppend(a[1..], b);
    }
  }

  lemma PackNext(counts: seq<uint32>, k: nat)
    requires k < |counts|
    ensures Pack(counts[..k + 1]) == Pack(counts[..k]) + EncodeVarint(counts[k])
  {
    assert counts[..k + 1] == counts[..k] + [counts[k]];
    assert [counts[k]][1..] == [] && Pack([counts[k]]) == EncodeVarint(counts[k]) + Pack([]);
    PackAppend(counts[..k], [counts[k]]);
  }

  lemma PackedIsEmptyIff(counts: seq<uint32>)
    ensures |Pack(counts)| == 0 <==> |counts| == 0
  {
  }

  method Size(m: ObservationsCounts) returns (n: nat)
    ensures n == |Encode(m)|
  {
    hide Sov, EncodeFields, OptBin;
    PackedIsEmptyIff(m.counts);
    OptBinSize(1, Pack(m.counts));
    n := 0;
    if |m.counts| > 0 {
      var l: nat := 0;
      for k := 0 to |m.counts|
        invariant l == |Pack(m.counts[..k])|
      {
        PackNext(m.counts, k);
        SovIsLength(m.counts[k]);
        l := l + Sov(m.counts[k]);
      }
      assert m.counts[..|m.counts|] == m.counts;
      n := n + 1 + Sov(l) + l;
    }
  }

  // ---------- packing ----------

  const MAX_VARINT: nat := 10

  lemma {:induction false} VarintIsShort(v: nat, groups: nat)
    requires v < Pow2(7 * groups) && groups > 0
    ensures |EncodeVarint(v)| <= groups
  {
    if v >= TWO_7 {
      Pow2Values();
      if groups == 1 {
        assert false;
      }
      Pow2Add(7 * (groups - 1), 7);
      assert v / TWO_7 < Pow2(7 * (groups - 1));
      VarintIsShort(v / TWO_7, groups - 1);
    }
  }

  lemma CounterIsShort(v: uint32)
    ensures |EncodeVarint(v)| <= MAX_VARINT
  {
    Pow2Values();
    Pow2Mono(64, 70);
    VarintIsShort(v, 10);
  }

  lemma {:induction false} PackedFits(counts: seq<uint32>)
    ensures |Pack(counts)| <= |counts| * MAX_VARINT
  {
    if |counts| > 0 {
      CounterIsShort(counts[0]);
      PackedFits(counts[1..]);
    }
  }

  lemma PackedPrefixFits(counts: seq<uint32>, k: nat)
    requires k < |counts|
    ensures |Pack(counts[..k])| + |EncodeVarint(counts[k])| <= |counts| * MAX_VARINT
  {
    PackNext(counts, k);
    PackedFits(counts[..k + 1]);
  }

  lemma PrefixByIndex(before: seq<byte>, after: seq<byte>, added: seq<byte>)
    requires |after| == |before| + |added|
    requires forall k :: 0 <= k < |before| ==> after[k] == before[k]
    requires forall k :: 0 <= k < |added| ==> after[|before| + k] == added[k]
    ensures after == before + added
  {
    forall k | |before| <= k < |after| ensures after[k] == added[k - |before|] {
      assert after[|before| + (k - |before|)] == added[k - |before|];
    }
  }

  /** Writes one element forwards from j. */
  method PackOne(buffer: array<byte>, j: nat, value: uint32) returns (next: nat)
    requires j + |EncodeVarint(value)| <= buffer.Length
    modifies buffer
    ensures next == j + |EncodeVarint(value)|
    ensures buffer[..next] == old(buffer[..j]) + EncodeVarint(value)
  {
    hide EncodeVarint;
    next := j;
    var num: nat := value;
    ghost var done: seq<byte> := [];
    while num >= TWO_7
      invariant next == j + |done| && next + |EncodeVarint(num)| <= buffer.Length
      invariant EncodeVarint(value) == done + EncodeVarint(num)
      invariant forall k :: 0 <= k < j ==> buffer[k] == old(buffer[k])
      invariant forall k :: 0 <= k < |done| ==> buffer[j + k] == done[k]
    {
      VarintGroups(num);
      done := done + [num % TWO_7 + TWO_7];
      buffer[next] := num % TWO_7 + TWO_7;
      num := num / TWO_7;
      next := next + 1;
    }
    VarintGroups(num);
    buffer[next] := num;
    next := next + 1;
    PrefixByIndex(old(buffer[..j]), buffer[..next], EncodeVarint(value));
  }

  /** The temporary buffer of ten bytes an element, and how much of it is used. */
  method PackAll(counts: seq<uint32>) returns (buffer: array<byte>, j: nat)
    ensures fresh(buffer) && j <= buffer.Length && buffer[..j] == Pack(counts)
  {
    buffer := new byte[|counts| * MAX_VARINT];
    j := 0;
    for k := 0 to |counts|
      invariant j == |Pack(counts[..k])| <= buffer.Length && buffer[..j] == Pack(counts[..k])
    {
      PackedPrefixFits(counts, k);
      PackNext(counts, k);
      j := PackOne(buffer, j, counts[k]);
    }
    assert counts[..|counts|] == counts;
  }

  method MarshalToSizedBuffer(a: array<byte>, end: nat, m: ObservationsCounts) returns (n: nat)
    requires |Encode(m)| <= end <= a.Length
    modifies a
    ensures n == |Encode(m)|
    ensures Wrote(old(a[..]), a[..], end - n, Encode(m))
  {
    var i: nat := end;
    PackedIsEmptyIff(m.counts);
    if |m.counts| > 0 {
      var buffer, j := PackAll(m.counts);
      EncodeOne(Bin(1, Pack(m.counts)));
      hide Wrote, EncodeField;
      i := PutBin(a, end, 1, buffer[..j]);
    } else {
      WroteNothing(a[..], end);
    }
    n := end - i;
  }

  /** A buffer of the computed size is filled exactly, down to index 0. */
  method Marshal(m: ObservationsCounts) returns (data: array<byte>)
    ensures fresh(data) && data[..] == Encode(m)
  {
    var size := Size(m);
    data := new byte[size];
    ghost var before := data[..];
    var n := MarshalToSizedBuffer(data, size, m);
    WroteEverything(before, data[..], Encode(m));
  }

  // ---------- decoding ----------

  datatype Unpacked = Unpacked(counts: seq<uint32>, length: nat)

  /**
   Reads varints until `left` bytes are behind. The last one may run past the packed field,
   up to the end of the whole buffer.
   */
  function ReadElements(s: seq<byte>, left: int, counts: seq<uint32>): (r: Result<Unpacked, WireError>)
    ensures r.Success? ==> r.value.length <= |s|
    decreases |s|
  {
    if left <= 0 then Success(Unpacked(counts, 0))
    else
      var v :- ReadVarint(s, TWO_32);
      var rest :- ReadElements(s[v.length..], left - v.length, counts + [v.value]);
      Success(Unpacked(rest.counts, v.length + rest.length))
  }

  function ReadPacked(m: ObservationsCounts, s: seq<byte>, at: nat): Result<(ObservationsCounts, nat), WireError> {
    var n :- ReadVarint(s, TWO_64);
    if n.value >= TWO_63 || at + n.length + n.value >= TWO_63 then Failure(InvalidLength)
    else if n.length + n.value > |s| then Failure(UnexpectedEof)
    else
      var u :- ReadElements(s[n.length..], n.value, m.counts);
      Success((ObservationsCounts(u.counts), n.length + u.length))
  }

  /** The field is accepted packed and unpacked. */
  function ReadField(m: ObservationsCounts, tag: Tag, s: seq<byte>, at: nat):
    Result<(ObservationsCounts, nat), WireError>
  {
    if tag.wireType == 0 then
      var v :- ReadVarint(s, TWO_32);
      Success((ObservationsCounts(m.counts + [v.value]), v.length))
    else if tag.wireType == 2 then ReadPacked(m, s, at)
    else Failure(WrongWireType)
  }

  const FORMAT: Schema<ObservationsCounts> := Schema({1}, ReadField)

  method ElementsAt(data: seq<byte>, start: nat, postIndex: nat, before: seq<uint32>)
    returns (r: Result<Unpacked, WireError>)
    requires start <= postIndex <= |data|
    ensures r == ReadElements(data[start..], postIndex - start, before)
  {
    var index: nat, counts: seq<uint32> := start, before;
    hide ReadVarint;
    while index < postIndex
      invariant start <= index <= |data|
      invariant var rest := ReadElements(data[index..], postIndex - index, counts);
                ReadElements(data[start..], postIndex - start, before)
                == if rest.Success? then Success(Unpacked(rest.value.counts, index - start + rest.value.length))
                   else rest
      decreases |data| - index
    {
      var v :- DecodeVarint(data, index, TWO_32);
      assert data[index..][v.length..] == data[index + v.length..];
      counts := counts + [v.value];
      index := index + v.length;
    }
    return Success(Unpacked(counts, index - start));
  }

  method FieldAt(data: seq<byte>, index: nat, tag: Tag, m: ObservationsCounts)
    returns (r: Result<(ObservationsCounts, nat), WireError>)
    requires index <= |data|
    ensures r == ReadField(m, tag, data[index..], index)
    ensures r.Success? ==> r.value.1 <= |data| - index
  {
    hide ReadVarint, ReadElements;
    if tag.wireType == 0 {
      var v :- DecodeVarint(data, index, TWO_32);
      return Success((ObservationsCounts(m.counts + [v.value]), v.length));
    } else if tag.wireType == 2 {
      var n :- DecodeVarint(data, index, TWO_64);
      if n.value >= TWO_63 {
        return Failure(InvalidLength);
      }
      var start := index + n.length;
      var postIndex := start + n.value;
      if postIndex >= TWO_63 {
        return Failure(InvalidLength);
      }
      if postIndex > |data| {
        return Failure(UnexpectedEof);
      }
      assert data[index..][n.length..] == data[start..];
      var u :- ElementsAt(data, start, postIndex, m.counts);
      return Success((ObservationsCounts(u.counts), n.length + u.length));
    } else {
      return Failure(WrongWireType);
    }
  }

  /** One round of the decoding loop: the message and the index after it. */
  method RoundAt(data: seq<byte>, index: nat, m: ObservationsCounts)
    returns (r: Result<(ObservationsCounts, nat), WireError>)
    requires index < |data|
    ensures r.Failure? ==> Decode(FORMAT, data[index..], index, m) == Failure(r.error)
    ensures r.Success? ==> index < r.value.1 <= |data|
    ensures r.Success? ==>
            Decode(FORMAT, data[index..], index, m) == Decode(FORMAT, data[r.value.1..], r.value.1, r.value.0)
  {
    hide Decode, ReadTag, SkipInside, ReadField;
    DecodeRound(FORMAT, data, index, m);
    var tag :- TagAt(data, index);
    if tag.number in {1} {
      var step :- FieldAt(data, index + tag.length, tag, m);
      return Success((step.0, index + tag.length + step.1));
    } else {
      var n :- SkipAt(data, index);
      return Success((m, index + n));
    }
  }

  /** Decodes into an existing message; every round moves the index forward. */
  method Unmarshal(data: seq<byte>, into: ObservationsCounts) returns (r: Result<ObservationsCounts, WireError>)
    ensures r == Decode(FORMAT, data, 0, into)
  {
    hide Decode, ReadTag, SkipInside, ReadField;
    var index: nat, m := 0, into;
    DecodeEnd(FORMAT, data, m);
    while index < |data|
      invariant index <= |data|
      invariant Decode(FORMAT, data, 0, into) == Decode(FORMAT, data[index..], index, m)
      decreases |data| - index
    {
      var round :- RoundAt(data, index, m);
      m, index := round.0, round.1;
    }
    DecodeEnd(FORMAT, data, m);
    return Success(m);
  }

  // ---------- round trip ----------

  lemma UnpackFirst(count: uint32, packed: seq<byte>, rest: seq<byte>, before: seq<uint32>, all: seq<uint32>)
    requires ReadElements(packed + rest, |packed|, before + [count]) == Success(Unpacked(all, |packed|))
    ensures var first := EncodeVarint(count);
            ReadElements(first + packed + rest, |first| + |packed|, before)
            == Success(Unpacked(all, |first| + |packed|))
  {
    var first := EncodeVarint(count);
    var s := first + packed + rest;
    assert s == first + (packed + rest) && s[|first|..] == packed + rest;
    VarintRoundTrip(count, TWO_32, packed + rest);
    hide ReadVarint, EncodeVarint;
  }

  lemma {:induction false} UnpackPacked(counts: seq<uint32>, before: seq<uint32>, rest: seq<byte>)
    ensures ReadElements(Pack(counts) + rest, |Pack(counts)|, before)
         == Success(Unpacked(before + counts, |Pack(counts)|))
  {
    if |counts| == 0 {
      assert before + counts == before;
    } else {
      var packed := Pack(counts[1..]);
      assert Pack(counts) == EncodeVarint(counts[0]) + packed;
      hide ReadElements, EncodeVarint, Pack;
      UnpackPacked(counts[1..], before + [counts[0]], rest);
      assert before + [counts[0]] + counts[1..] == before + counts;
      UnpackFirst(counts[0], packed, rest, before, before + counts);
    }
  }

  /** The elements end where they should exactly when the last of those bytes ends a varint. */
  lemma {:induction false} ElementsStopIff(s: seq<byte>, left: nat, counts: seq<uint32>)
    requires left <= |s| && ReadElements(s, left, counts).Success?
    ensures var length := ReadElements(s, left, counts).value.length;
            left <= length && (length == left <==> left == 0 || s[left - 1] < TWO_7)
    decreases |s|
  {
    if left > 0 {
      var v := ReadVarint(s, TWO_32).value;
      VarintEnds(s, 0, 0, TWO_32);
      hide ReadVarint;
      if v.length <= left {
        ElementsStopIff(s[v.length..], left - v.length, counts + [v.value]);
        assert v.length < left ==> s[v.length..][left - v.length - 1] == s[left - 1];
      }
    }
  }

  /**
   The decoder of a packed field stops at the declared length exactly when the field is empty or
   its last byte has no continuation bit; otherwise it reads on behind the field.
   */
  lemma PackedStopsAtItsLengthIff(m: ObservationsCounts, s: seq<byte>, at: nat)
    requires ReadPacked(m, s, at).Success?
    ensures ReadVarint(s, TWO_64).Success?
    ensures var n := ReadVarint(s, TWO_64).value;
            && n.length + n.value <= |s|
            && n.length + n.value <= ReadPacked(m, s, at).value.1
            && (ReadPacked(m, s, at).value.1 == n.length + n.value
                <==> n.value == 0 || s[n.length + n.value - 1] < TWO_7)
  {
    hide ReadVarint, ReadElements;
    var n := ReadVarint(s, TWO_64).value;
    ElementsStopIff(s[n.length..], n.value, m.counts);
    assert n.value > 0 ==> s[n.length..][n.value - 1] == s[n.length + n.value - 1];
  }

  /** A packed field of length 1 whose only element runs one byte past it is accepted. */
  lemma PackedMayRunPastItsLength()
    ensures Decode(FORMAT, [10, 1, 128, 1], 0, EMPTY) == Success(ObservationsCounts([128]))
  {
    var head, body: seq<byte>, element: seq<byte> := EncodeTag(1, 2), [1, 128, 1], [128, 1];
    assert EncodeVarint(128) == element && element + [] == element;
    VarintRoundTrip(128, TWO_32, []);
    assert ReadVarint(element, TWO_32) == Success(Varint(128, 2));
    assert EncodeVarint(1) == [1] && [1] + element == body;
    VarintRoundTrip(1, TWO_64, element);
    assert ReadVarint(body, TWO_64) == Success(Varint(1, 1));
    TagRoundTrip(1, 2, body);
    assert head == [10] && head + (body + []) == [10, 1, 128, 1] && head + body == [10, 1, 128, 1] && body + [] == body;
    hide ReadVarint, EncodeVarint, EncodeTag, ReadTag, Decode;
    assert body[1..] == element && element[2..] == [];
    var none: seq<uint32>, one: seq<uint32> := [], [128];
    assert none + [128] == one && ReadElements(element[2..], 1 - 2, one) == Success(Unpacked(one, 0));
    assert ReadElements(element, 1, none) == Success(Unpacked(one, 2));
    assert ReadPacked(EMPTY, body, 1) == Success((ObservationsCounts([128]), 3));
    DecodeKnownStep(FORMAT, Tag(1, 2, 1), head, body, [], 0, EMPTY, ObservationsCounts([128]));
    DecodeNothing(4, ObservationsCounts([128]));
  }

  lemma DecodeNothing(at: nat, m: ObservationsCounts)
    ensures Decode(FORMAT, [], at, m) == Success(m)
  {
  }

  function Unpack(payload: seq<byte>): seq<uint32> {
    match ReadElements(payload, |payload|, [])
    case Success(u) => u.counts
    case Failure(_) => []
  }

  /** The effect of one packed record. */
  function Apply(m: ObservationsCounts, f: Field): ObservationsCounts {
    if f.Num? then m else ObservationsCounts(m.counts + Unpack(f.payload))
  }

  lemma UnpackIsInverse(counts: seq<uint32>)
    ensures Unpack(Pack(counts)) == counts
  {
    UnpackPacked(counts, [], []);
    assert Pack(counts) + [] == Pack(counts) && [] + counts == counts;
  }

  lemma ReadsBlock(m: ObservationsCounts, counts: seq<uint32>, rest: seq<byte>, at: nat)
    requires at + |EncodeBlob(Pack(counts))| < TWO_63
    ensures ReadPacked(m, EncodeBlob(Pack(counts)) + rest, at)
         == Success((ObservationsCounts(m.counts + counts), |EncodeBlob(Pack(counts))|))
  {
    hide ReadVarint, EncodeVarint, ReadElements, Pack;
    var payload := Pack(counts);
    var n := EncodeVarint(|payload|);
    ThreeParts(n, payload, rest);
    VarintRoundTrip(|payload|, TWO_64, payload + rest);
    UnpackPacked(counts, m.counts, rest);
  }

  lemma ReadsBytes(counts: seq<uint32>)
    ensures Handles(FORMAT, Apply, Bin(1, Pack(counts)))
  {
    var f := Bin(1, Pack(counts));
    UnpackIsInverse(counts);
    forall m: ObservationsCounts, rest: seq<byte>, at: nat | at + |Body(f)| < TWO_63
      ensures FORMAT.field(m, Tag(f.number, WireTypeOf(f), |EncodeTag(f.number, WireTypeOf(f))|), Body(f) + rest, at)
           == Success((Apply(m, f), |Body(f)|))
    {
      hide EncodeTag, ReadPacked, EncodeBlob, Pack, Unpack;
      ReadsBlock(m, counts, rest, at);
    }
  }

  lemma ReadsAllFields(m: ObservationsCounts)
    ensures forall i :: 0 <= i < |Fields(m)| ==> Handles(FORMAT, Apply, Fields(m)[i])
  {
    ReadsBytes(m.counts);
  }

  lemma FoldFields(m: ObservationsCounts)
    ensures Fold(Apply, Fields(m), EMPTY) == m
  {
    PackedIsEmptyIff(m.counts);
    UnpackIsInverse(m.counts);
    FoldOptBin(Apply, 1, Pack(m.counts), EMPTY);
    hide Fold, Pack, Unpack;
    assert [] + m.counts == m.counts;
  }

  /** Decoding what was encoded gives the message back. */
  lemma RoundTrip(m: ObservationsCounts)
    requires |Encode(m)| < TWO_63
    ensures Decode(FORMAT, Encode(m), 0, EMPTY) == Success(m)
  {
    ReadsAllFields(m);
    FoldFields(m);
    hide Fields, Handles, Fold, Decode;
    DecodeFields(FORMAT, Apply, Fields(m), EMPTY);
  }

  /** So it does with any well-formed unknown fields, nested groups included, in between. */
  lemma UnknownFieldsAreTransparent(m: ObservationsCounts, items: seq<Item>)
    requires KnownFields(items) == Fields(m) && |EncodeItems(items)| < TWO_63
    requires forall i :: 0 <= i < |items| && items[i].Unknown? ==>
               WellFormed(items[i].chunk) && items[i].chunk.number !in {0, 1}
    ensures Decode(FORMAT, EncodeItems(items), 0, EMPTY) == Success(m)
  {
    ReadsAllFields(m);
    FoldFields(m);
    hide Fields, Handles, Fold, Decode, WellFormed, EncodeItems, KnownFields;
    DecodeWithUnknown(FORMAT, Apply, items, EMPTY);
  }
}
