/** The FeedCounts message of the genesis state: the counters of one feed, as nested messages. */
module FeedCountsMessage {
  import opened Wrappers
  import opened Bytes
  import opened Wire
  import opened Records
  import opened Messages
  import CountMessage

  type Counter = CountMessage.Counter

  datatype FeedCounts = FeedCounts(feedId: seq<byte>, counts: seq<Counter>)

  const EMPTY: FeedCounts := FeedCounts([], [])

  function Encodings(counts: seq<Counter>): (r: seq<seq<byte>>)
    ensures |r| == |counts|
    ensures forall i :: 0 <= i < |r| ==> r[i] == CountMessage.Encode(counts[i])
  {
    seq(|counts|, i requires 0 <= i < |counts| => CountMessage.Encode(counts[i]))
  }

  function Fields(m: FeedCounts): seq<Field> {
    OptBin(1, m.feedId) + Each(2, Encodings(m.counts))
  }

  function Encode(m: FeedCounts): seq<byte> {
    EncodeFields(Fields(m))
  }

  lemma EncodeParts(m: FeedCounts)
    ensures Encode(m) == EncodeFields(OptBin(1, m.feedId)) + EncodeFields(Each(2, Encodings(m.counts)))
  {
    EncodeFieldsAppend(OptBin(1, m.feedId), Each(2, Encodings(m.counts)));
  }

  method Size(m: FeedCounts) returns (n: nat)
    ensures n == |Encode(m)|
  {
    EncodeParts(m);
    OptBinSize(1, m.feedId);
    hide Sov, EncodeFields, OptBin, EncodeField, Encode, CountMessage.Encode;
    n := 0;
    var l: nat := |m.feedId|;
    if l > 0 {
      n := n + 1 + l + Sov(l);
    }
    ghost var payloads := Encodings(m.counts);
    assert payloads[..0] == [] && payloads[..|payloads|] == payloads;
    ghost var start: nat := n;
    EachOfNothing(2);
    for k := 0 to |m.counts|
      invariant n == start + |EncodeFields(Each(2, payloads[..k]))|
    {
      l := CountMessage.Size(m.counts[k]);
      n := n + 1 + l + Sov(l);
      OneMoreSize(payloads, k);
    }
  }

  /** One more nested message: its tag, its length and its bytes. */
  lemma OneMoreSize(payloads: seq<seq<byte>>, k: nat)
    requires k < |payloads|
    ensures |EncodeFields(Each(2, payloads[..k + 1]))|
         == |EncodeFields(Each(2, payloads[..k]))| + 1 + |payloads[k]| + Sov(|payloads[k]|)
  {
    hide Sov, EncodeFields, EncodeField;
    EachAppend(2, payloads, k);
    HeaderAndPayload(2, payloads[k]);
    SovIsLength(|payloads[k]|);
  }

  lemma EachOfNothing(number: nat)
    ensures EncodeFields(Each(number, [])) == []
  {
  }

  /** The nested message first, then its length and tag in front of it. */
  method PutNested(a: array<byte>, end: nat, c: Counter) returns (i: nat)
    requires |EncodeField(Bin(2, CountMessage.Encode(c)))| <= end <= a.Length
    modifies a
    ensures i == end - |EncodeField(Bin(2, CountMessage.Encode(c)))|
    ensures Wrote(old(a[..]), a[..], i, EncodeField(Bin(2, CountMessage.Encode(c))))
  {
    hide Wrote, EncodeField, CountMessage.Encode, EncodeVarint, EncodeTag;
    HeaderAndPayload(2, CountMessage.Encode(c));
    OneByteTag(2, 2);
    ghost var payload := CountMessage.Encode(c);
    var size := CountMessage.MarshalToSizedBuffer(a, end, c);
    ghost var middle := a[..];
    i := end - size;
    i := PutHeader(a, i, 2, size);
    WroteInFront(old(a[..]), middle, a[..], end - size, payload, EncodeTag(2, 2) + EncodeVarint(size));
  }

  /** Fills the buffer backwards from end, the counters from last to first. */
  method MarshalToSizedBuffer(a: array<byte>, end: nat, m: FeedCounts) returns (n: nat)
    requires |Encode(m)| <= end <= a.Length
    modifies a
    ensures n == |Encode(m)|
    ensures Wrote(old(a[..]), a[..], end - n, Encode(m))
  {
    EncodeParts(m);
    hide Encode, CountMessage.Encode, EncodeFields, Wrote, OptBin, EncodeField;
    ghost var before, payloads := a[..], Encodings(m.counts);
    WroteNothing(before, end);
    var i: nat := end;
    assert payloads[|payloads|..] == [] && payloads[0..] == payloads;
    EachOfNothing(2);
    for k := |m.counts| downto 0
      invariant i == end - |EncodeFields(Each(2, payloads[k..]))|
      invariant Wrote(before, a[..], i, EncodeFields(Each(2, payloads[k..])))
    {
      EachSplit(2, payloads, k);
      EachTail(2, payloads, k);
      ghost var middle, was := a[..], i;
      i := PutNested(a, i, m.counts[k]);
      WroteInFront(before, middle, a[..], was, EncodeFields(Each(2, payloads[k + 1..])),
                   EncodeField(Bin(2, payloads[k])));
    }
    i := PutOptBin(a, i, 1, m.feedId, before, EncodeFields(Each(2, payloads)));
    n := end - i;
  }

  /** A buffer of the computed size is filled exactly, down to index 0. */
  method Marshal(m: FeedCounts) returns (data: array<byte>)
    ensures fresh(data) && data[..] == Encode(m)
  {
    var size := Size(m);
    data := new byte[size];
    ghost var before := data[..];
    var n := MarshalToSizedBuffer(data, size, m);
    WroteEverything(before, data[..], Encode(m));
  }

  // ---------- decoding ----------

  /** What the switch of the decoder does with one known field; a counter is decoded on its own. */
  function ReadField(m: FeedCounts, tag: Tag, s: seq<byte>, at: nat): Result<(FeedCounts, nat), WireError> {
    match tag.number
    case 1 => var b :- BlobField(tag, s, at); Success((m.(feedId := b.payload), b.length))
    case 2 =>
      var b :- BlobField(tag, s, at);
      var c :- Decode(CountMessage.FORMAT, b.payload, 0, CountMessage.EMPTY);
      Success((m.(counts := m.counts + [c]), b.length))
    case _ => Failure(IllegalTag)
  }

  const FORMAT: Schema<FeedCounts> := Schema({1, 2}, ReadField)

  method FieldAt(data: seq<byte>, index: nat, tag: Tag, m: FeedCounts) returns (r: Result<(FeedCounts, nat), WireError>)
    requires index <= |data|
    ensures r == ReadField(m, tag, data[index..], index)
    ensures r.Success? ==> 0 < r.value.1 <= |data| - index
  {
    hide BlobField, Decode;
    match tag.number {
      case 1 =>
        var b :- BlobAt(data, index, tag);
        return Success((m.(feedId := b.payload), b.length));
      case 2 =>
        var b :- BlobAt(data, index, tag);
        var c :- CountMessage.Unmarshal(b.payload, CountMessage.EMPTY);
        return Success((m.(counts := m.counts + [c]), b.length));
      case _ =>
        return Failure(IllegalTag);
    }
  }

  /** One round of the decoding loop: the message and the index after it. */
  method RoundAt(data: seq<byte>, index: nat, m: FeedCounts) returns (r: Result<(FeedCounts, nat), WireError>)
    requires index < |data|
    ensures r.Failure? ==> Decode(FORMAT, data[index..], index, m) == Failure(r.error)
    ensures r.Success? ==> index < r.value.1 <= |data|
    ensures r.Success? ==>
            Decode(FORMAT, data[index..], index, m) == Decode(FORMAT, data[r.value.1..], r.value.1, r.value.0)
  {
    hide Decode, ReadTag, SkipInside, ReadField;
    DecodeRound(FORMAT, data, index, m);
    var tag :- TagAt(data, index);
    if tag.number in {1, 2} {
      var step :- FieldAt(data, index + tag.length, tag, m);
      return Success((step.0, index + tag.length + step.1));
    } else {
      var n :- SkipAt(data, index);
      return Success((m, index + n));
    }
  }

  /** Decodes into an existing message; every round moves the index forward. */
  method Unmarshal(data: seq<byte>, into: FeedCounts) returns (r: Result<FeedCounts, WireError>)
    ensures r == Decode(FORMAT, data, 0, into)
  {
    hide Decode, ReadTag, SkipInside, ReadField;
    var index: nat, m := 0, into;
    DecodeEnd(FORMAT, data, m);
    while index < |data|
      invariant index <= |data|
      invariant Decode(FORMAT, data, 0, into) == Decode(FORMAT, data[index..], index, m)
      decreases |data| - index
    {
      var round :- RoundAt(data, index, m);
      m, index := round.0, round.1;
    }
    DecodeEnd(FORMAT, data, m);
    return Success(m);
  }

  // ---------- round trip ----------

  function Nested(payload: seq<byte>): Counter {
    match Decode(CountMessage.FORMAT, payload, 0, CountMessage.EMPTY)
    case Success(c) => c
    case Failure(_) => CountMessage.EMPTY
  }

  /** The effect of one record of this message. */
  function Apply(m: FeedCounts, f: Field): FeedCounts {
    if f.Bin? && f.number == 1 then m.(feedId := f.payload)
    else if f.Bin? && f.number == 2 then m.(counts := m.counts + [Nested(f.payload)])
    else m
  }

  lemma ReadsFeedId(payload: seq<byte>)
    ensures Handles(FORMAT, Apply, Bin(1, payload))
  {
    var f := Bin(1, payload);
    forall m: FeedCounts, rest: seq<byte>, at: nat | at + |Body(f)| < TWO_63
      ensures FORMAT.field(m, Tag(f.number, WireTypeOf(f), |EncodeTag(f.number, WireTypeOf(f))|), Body(f) + rest, at)
           == Success((Apply(m, f), |Body(f)|))
    {
      hide EncodeTag, ReadBlob, EncodeBlob;
      BlobRoundTrip(payload, rest, at);
    }
  }

  lemma ReadsCounter(c: Counter)
    ensures Handles(FORMAT, Apply, Bin(2, CountMessage.Encode(c)))
  {
    var f := Bin(2, CountMessage.Encode(c));
    forall m: FeedCounts, rest: seq<byte>, at: nat | at + |Body(f)| < TWO_63
      ensures FORMAT.field(m, Tag(f.number, WireTypeOf(f), |EncodeTag(f.number, WireTypeOf(f))|), Body(f) + rest, at)
           == Success((Apply(m, f), |Body(f)|))
    {
      assert |EncodeBlob(f.payload)| >= |f.payload|;
      hide EncodeTag, ReadBlob, EncodeBlob, CountMessage.Encode, Decode;
      BlobRoundTrip(f.payload, rest, at);
      CountMessage.RoundTrip(c);
    }
  }

  lemma ReadsAllFields(m: FeedCounts)
    ensures forall i :: 0 <= i < |Fields(m)| ==> Handles(FORMAT, Apply, Fields(m)[i])
  {
    hide Handles, CountMessage.Encode;
    forall i | 0 <= i < |Fields(m)| ensures Handles(FORMAT, Apply, Fields(m)[i]) {
      var named := |OptBin(1, m.feedId)|;
      if i < named {
        ReadsFeedId(m.feedId);
      } else {
        ReadsCounter(m.counts[i - named]);
      }
    }
  }

  lemma NestedIsInverse(c: Counter)
    requires |CountMessage.Encode(c)| < TWO_63
    ensures Nested(CountMessage.Encode(c)) == c
  {
    CountMessage.RoundTrip(c);
    hide CountMessage.Encode, Decode;
  }

  lemma EachTailOfEncodings(counts: seq<Counter>)
    requires |counts| > 0
    ensures var fs := Each(2, Encodings(counts));
            fs[0] == Bin(2, CountMessage.Encode(counts[0])) && fs[1..] == Each(2, Encodings(counts[1..]))
  {
    hide CountMessage.Encode;
  }

  lemma ApplyNested(m: FeedCounts, c: Counter)
    requires |CountMessage.Encode(c)| < TWO_63
    ensures Apply(m, Bin(2, CountMessage.Encode(c))) == m.(counts := m.counts + [c])
  {
    NestedIsInverse(c);
    hide CountMessage.Encode, Nested;
  }

  lemma FoldFirstCounter(counts: seq<Counter>, m: FeedCounts)
    requires |counts| > 0 && |CountMessage.Encode(counts[0])| < TWO_63
    ensures Fold(Apply, Each(2, Encodings(counts)), m)
         == Fold(Apply, Each(2, Encodings(counts[1..])), m.(counts := m.counts + [counts[0]]))
  {
    ApplyNested(m, counts[0]);
    EachTailOfEncodings(counts);
    hide CountMessage.Encode, Apply, Each, Encodings;
  }

  ghost predicate AllFit(counts: seq<Counter>) {
    forall i :: 0 <= i < |counts| ==> |CountMessage.Encode(counts[i])| < TWO_63
  }

  lemma TailFits(counts: seq<Counter>)
    requires |counts| > 0 && AllFit(counts)
    ensures |CountMessage.Encode(counts[0])| < TWO_63 && AllFit(counts[1..])
  {
    hide CountMessage.Encode;
  }

  lemma OneMoreCount(m: FeedCounts, counts: seq<Counter>)
    requires |counts| > 0
    ensures var next := m.(counts := m.counts + [counts[0]]);
            next.(counts := next.counts + counts[1..]) == m.(counts := m.counts + counts)
  {
    assert m.counts + [counts[0]] + counts[1..] == m.counts + counts;
  }

  lemma NoCounts(m: FeedCounts)
    ensures Fold(Apply, Each(2, Encodings([])), m) == m.(counts := m.counts + [])
  {
    assert Each(2, Encodings([])) == [] && m.counts + [] == m.counts;
  }

  lemma {:induction false} FoldCounts(counts: seq<Counter>, m: FeedCounts)
    requires AllFit(counts)
    ensures Fold(Apply, Each(2, Encodings(counts)), m) == m.(counts := m.counts + counts)
    decreases |counts|
  {
    hide CountMessage.Encode, Apply, Each, Encodings, Fold, AllFit;
    if |counts| == 0 {
      assert counts == [];
      NoCounts(m);
    } else {
      TailFits(counts);
      FoldFirstCounter(counts, m);
      FoldCounts(counts[1..], m.(counts := m.counts + [counts[0]]));
      OneMoreCount(m, counts);
    }
  }

  lemma FoldFields(m: FeedCounts)
    requires |Encode(m)| < TWO_63
    ensures Fold(Apply, Fields(m), EMPTY) == m
  {
    EncodeParts(m);
    hide Encode, CountMessage.Encode, Fold, EncodeFields;
    forall i | 0 <= i < |m.counts| ensures |CountMessage.Encode(m.counts[i])| < TWO_63 {
      EachCovers(2, Encodings(m.counts), i);
    }
    FoldAppend(Apply, OptBin(1, m.feedId), Each(2, Encodings(m.counts)), EMPTY);
    FoldOptBin(Apply, 1, m.feedId, EMPTY);
    FoldCounts(m.counts, EMPTY.(feedId := m.feedId));
    assert [] + m.counts == m.counts;
  }

  /** Decoding what was encoded gives the message back. */
  lemma RoundTrip(m: FeedCounts)
    requires |Encode(m)| < TWO_63
    ensures Decode(FORMAT, Encode(m), 0, EMPTY) == Success(m)
  {
    ReadsAllFields(m);
    FoldFields(m);
    hide Fields, Handles, Fold, Decode;
    DecodeFields(FORMAT, Apply, Fields(m), EMPTY);
  }

  /** So it does with any well-formed unknown fields, nested groups included, in between. */
  lemma UnknownFieldsAreTransparent(m: FeedCounts, items: seq<Item>)
    requires KnownFields(items) == Fields(m) && |EncodeItems(items)| < TWO_63
    requires forall i :: 0 <= i < |items| && items[i].Unknown? ==>
               WellFormed(items[i].chunk) && items[i].chunk.number !in {0, 1, 2}
    ensures Decode(FORMAT, EncodeItems(items), 0, EMPTY) == Success(m)
  {
    KnownFieldsSize(items);
    ReadsAllFields(m);
    hide EncodeItems, KnownFields, Fields, Handles;
    FoldFields(m);
    hide Fields, Handles, Fold, Decode, WellFormed, EncodeItems, KnownFields;
    DecodeWithUnknown(FORMAT, Apply, items, EMPTY);
  }
}
