/** The Count message of the genesis state: a counter of one address. */
module CountMessage {
  import opened Wrappers
  import opened Bytes
  import opened Wire
  import opened Records
  import opened Messages

  datatype Counter = Counter(address: seq<byte>, count: uint64)

  const EMPTY: Counter := Counter([], 0)

  function Fields(m: Counter): seq<Field> {
    OptBin(1, m.address) + OptNum(2, m.count)
  }

  function Encode(m: Counter): seq<byte> {
    EncodeFields(Fields(m))
  }

  method Size(m: Counter) returns (n: nat)
    ensures n == |Encode(m)|
  {
    hide Sov, EncodeFields, OptBin, OptNum;
    EncodeFieldsAppend(OptBin(1, m.address), OptNum(2, m.count));
    OptBinSize(1, m.address);
    OptNumSize(2, m.count);
    n := 0;
    var l: nat := |m.address|;
    if l > 0 {
      n := n + 1 + l + Sov(l);
    }
    if m.count != 0 {
      n := n + 1 + Sov(m.count);
    }
  }

  /** Fills the buffer backwards from end. */
  method MarshalToSizedBuffer(a: array<byte>, end: nat, m: Counter) returns (n: nat)
    requires |Encode(m)| <= end <= a.Length
    modifies a
    ensures n == |Encode(m)|
    ensures Wrote(old(a[..]), a[..], end - n, Encode(m))
  {
    EncodeFieldsAppend(OptBin(1, m.address), OptNum(2, m.count));
    hide EncodeFields, Wrote, OptNum, OptBin;
    ghost var before := a[..];
    WroteNothing(before, end);
    var i := PutOptNum(a, end, 2, m.count, before, []);
    i := PutOptBin(a, i, 1, m.address, before, EncodeFields(OptNum(2, m.count)) + []);
    assert EncodeFields(OptNum(2, m.count)) + [] == EncodeFields(OptNum(2, m.count));
    n := end - i;
  }

  // ---------- decoding ----------

  /** What the switch of the decoder does with one known field. */
  function ReadField(m: Counter, tag: Tag, s: seq<byte>, at: nat): Result<(Counter, nat), WireError> {
    match tag.number
    case 1 => var b :- BlobField(tag, s, at); Success((m.(address := b.payload), b.length))
    case 2 => var v :- NumberField(tag, s, TWO_64); Success((m.(count := v.value), v.length))
    case _ => Failure(IllegalTag)
  }

  const FORMAT: Schema<Counter> := Schema({1, 2}, ReadField)

  method FieldAt(data: seq<byte>, index: nat, tag: Tag, m: Counter) returns (r: Result<(Counter, nat), WireError>)
    requires index <= |data|
    ensures r == ReadField(m, tag, data[index..], index)
    ensures r.Success? ==> 0 < r.value.1 <= |data| - index
  {
    hide NumberField, BlobField;
    match tag.number {
      case 1 =>
        var b :- BlobAt(data, index, tag);
        return Success((m.(address := b.payload), b.length));
      case 2 =>
        var v :- NumberAt(data, index, tag, TWO_64);
        return Success((m.(count := v.value), v.length));
      case _ =>
        return Failure(IllegalTag);
    }
  }

  /** One round of the decoding loop: the message and the index after it. */
  method RoundAt(data: seq<byte>, index: nat, m: Counter) returns (r: Result<(Counter, nat), WireError>)
    requires index < |data|
    ensures r.Failure? ==> Decode(FORMAT, data[index..], index, m) == Failure(r.error)
    ensures r.Success? ==> index < r.value.1 <= |data|
    ensures r.Success? ==>
            Decode(FORMAT, data[index..], index, m) == Decode(FORMAT, data[r.value.1..], r.value.1, r.value.0)
  {
    hide Decode, ReadTag, SkipInside, ReadField;
    DecodeRound(FORMAT, data, index, m);
    var tag :- TagAt(data, index);
    if tag.number in {1, 2} {
      var step :- FieldAt(data, index + tag.length, tag, m);
      return Success((step.0, index + tag.length + step.1));
    } else {
      var n :- SkipAt(data, index);
      return Success((m, index + n));
    }
  }

  /** Decodes into an existing message; every round moves the index forward. */
  method Unmarshal(data: seq<byte>, into: Counter) returns (r: Result<Counter, WireError>)
    ensures r == Decode(FORMAT, data, 0, into)
  {
    hide Decode, ReadTag, SkipInside, ReadField;
    var index: nat, m := 0, into;
    DecodeEnd(FORMAT, data, m);
    while index < |data|
      invariant index <= |data|
      invariant Decode(FORMAT, data, 0, into) == Decode(FORMAT, data[index..], index, m)
      decreases |data| - index
    {
      var round :- RoundAt(data, index, m);
      m, index := round.0, round.1;
    }
    DecodeEnd(FORMAT, data, m);
    return Success(m);
  }

  // ---------- round trip ----------

  /** The effect of one record of this message. */
  function Apply(m: Counter, f: Field): Counter {
    match f
    case Num(number, value) => if number == 2 then m.(count := value % TWO_64) else m
    case Bin(number, payload) => if number == 1 then m.(address := payload) else m
  }

  lemma ReadsNumber(number: nat, value: nat)
    requires number == 2 && value < TWO_64
    ensures Handles(FORMAT, Apply, Num(number, value))
  {
    var f := Num(number, value);
    forall m: Counter, rest: seq<byte>, at: nat | at + |Body(f)| < TWO_63
      ensures FORMAT.field(m, Tag(f.number, WireTypeOf(f), |EncodeTag(f.number, WireTypeOf(f))|), Body(f) + rest, at)
           == Success((Apply(m, f), |Body(f)|))
    {
      hide EncodeTag, ReadVarint, EncodeVarint;
      VarintRoundTrip(value, TWO_64, rest);
    }
  }

  lemma ReadsBytes(number: nat, payload: seq<byte>)
    requires number == 1
    ensures Handles(FORMAT, Apply, Bin(number, payload))
  {
    var f := Bin(number, payload);
    forall m: Counter, rest: seq<byte>, at: nat | at + |Body(f)| < TWO_63
      ensures FORMAT.field(m, Tag(f.number, WireTypeOf(f), |EncodeTag(f.number, WireTypeOf(f))|), Body(f) + rest, at)
           == Success((Apply(m, f), |Body(f)|))
    {
      hide EncodeTag, ReadBlob, EncodeBlob;
      BlobRoundTrip(payload, rest, at);
    }
  }

  lemma ReadsAllFields(m: Counter)
    ensures forall i :: 0 <= i < |Fields(m)| ==> Handles(FORMAT, Apply, Fields(m)[i])
  {
    hide Handles;
    forall i | 0 <= i < |Fields(m)| ensures Handles(FORMAT, Apply, Fields(m)[i]) {
      match Fields(m)[i] {
        case Num(number, value) => ReadsNumber(number, value);
        case Bin(number, payload) => ReadsBytes(number, payload);
      }
    }
  }

  lemma FoldFields(m: Counter)
    ensures Fold(Apply, Fields(m), EMPTY) == m
  {
    FoldAppend(Apply, OptBin(1, m.address), OptNum(2, m.count), EMPTY);
    FoldOptBin(Apply, 1, m.address, EMPTY);
    FoldOptNum(Apply, 2, m.count, EMPTY.(address := m.address));
    hide Fold;
  }

  /** Decoding what was encoded gives the message back. */
  lemma RoundTrip(m: Counter)
    requires |Encode(m)| < TWO_63
    ensures Decode(FORMAT, Encode(m), 0, EMPTY) == Success(m)
  {
    ReadsAllFields(m);
    FoldFields(m);
    hide Fields, Handles, Fold, Decode;
    DecodeFields(FORMAT, Apply, Fields(m), EMPTY);
  }

  /** So it does with any well-formed unknown fields, nested groups included, in between. */
  lemma UnknownFieldsAreTransparent(m: Counter, items: seq<Item>)
    requires KnownFields(items) == Fields(m) && |EncodeItems(items)| < TWO_63
    requires forall i :: 0 <= i < |items| && items[i].Unknown? ==>
               WellFormed(items[i].chunk) && items[i].chunk.number !in {0, 1, 2}
    ensures Decode(FORMAT, EncodeItems(items), 0, EMPTY) == Success(m)
  {
    ReadsAllFields(m);
    FoldFields(m);
    hide Fields, Handles, Fold, Decode, WellFormed, EncodeItems, KnownFields;
    DecodeWithUnknown(FORMAT, Apply, items, EMPTY);
  }
}
