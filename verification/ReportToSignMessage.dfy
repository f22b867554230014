/** The ReportToSign message: what an oracle signs for an Injective chain module. */
module ReportToSignMessage {
  import opened Wrappers
  import opened Bytes
  import opened Wire
  import opened Records
  import opened Messages

  datatype ReportToSign = ReportToSign(
    configDigest: seq<byte>,
    epoch: uint64,
    round: uint64,
    extraHash: seq<byte>,
    report: seq<byte>)

  const EMPTY: ReportToSign := ReportToSign([], 0, 0, [], [])

  function Fields(m: ReportToSign): seq<Field> {
    OptBin(1, m.configDigest)
      + (OptNum(2, m.epoch) + (OptNum(3, m.round) + (OptBin(4, m.extraHash) + OptBin(5, m.report))))
  }

  function Encode(m: ReportToSign): seq<byte> {
    EncodeFields(Fields(m))
  }

  lemma EncodeParts(m: ReportToSign)
    ensures Encode(m)
         == EncodeFields(OptBin(1, m.configDigest))
            + (EncodeFields(OptNum(2, m.epoch)) + (EncodeFields(OptNum(3, m.round))
            + (EncodeFields(OptBin(4, m.extraHash)) + EncodeFields(OptBin(5, m.report)))))
  {
    hide EncodeFields;
    EncodeFieldsAppend(OptBin(4, m.extraHash), OptBin(5, m.report));
    var after3 := OptBin(4, m.extraHash) + OptBin(5, m.report);
    EncodeFieldsAppend(OptNum(3, m.round), after3);
    EncodeFieldsAppend(OptNum(2, m.epoch), OptNum(3, m.round) + after3);
    EncodeFieldsAppend(OptBin(1, m.configDigest), OptNum(2, m.epoch) + (OptNum(3, m.round) + after3));
  }

  lemma PartSizes(m: ReportToSign)
    ensures |Encode(m)|
         == |EncodeFields(OptBin(1, m.configDigest))| + |EncodeFields(OptNum(2, m.epoch))|
            + |EncodeFields(OptNum(3, m.round))|
            + |EncodeFields(OptBin(4, m.extraHash))| + |EncodeFields(OptBin(5, m.report))|
  {
    EncodeParts(m);
    hide *;
  }

  method Size(m: ReportToSign) returns (n: nat)
    ensures n == |Encode(m)|
  {
    hide *;
    PartSizes(m);
    OptBinSize(1, m.configDigest);
    OptNumSize(2, m.epoch);
    OptNumSize(3, m.round);
    OptBinSize(4, m.extraHash);
    OptBinSize(5, m.report);
    n := 0;
    var l: nat := |m.configDigest|;
    if l > 0 {
      n := n + 1 + l + Sov(l);
    }
    if m.epoch != 0 {
      n := n + 1 + Sov(m.epoch);
    }
    if m.round != 0 {
      n := n + 1 + Sov(m.round);
    }
    l := |m.extraHash|;
    if l > 0 {
      n := n + 1 + l + Sov(l);
    }
    l := |m.report|;
    if l > 0 {
      n := n + 1 + l + Sov(l);
    }
  }

  /** Fills the buffer backwards from end. */
  method MarshalToSizedBuffer(a: array<byte>, end: nat, m: ReportToSign) returns (n: nat)
    requires |Encode(m)| <= end <= a.Length
    modifies a
    ensures n == |Encode(m)|
    ensures Wrote(old(a[..]), a[..], end - n, Encode(m))
  {
    EncodeParts(m);
    hide Encode, EncodeFields, Wrote, OptNum, OptBin;
    ghost var before := a[..];
    WroteNothing(before, end);
    var i := PutOptBin(a, end, 5, m.report, before, []);
    ghost var behind := EncodeFields(OptBin(5, m.report)) + [];
    i := PutOptBin(a, i, 4, m.extraHash, before, behind);
    behind := EncodeFields(OptBin(4, m.extraHash)) + behind;
    i := PutOptNum(a, i, 3, m.round, before, behind);
    behind := EncodeFields(OptNum(3, m.round)) + behind;
    i := PutOptNum(a, i, 2, m.epoch, before, behind);
    behind := EncodeFields(OptNum(2, m.epoch)) + behind;
    i := PutOptBin(a, i, 1, m.configDigest, before, behind);
    assert EncodeFields(OptBin(5, m.report)) + [] == EncodeFields(OptBin(5, m.report));
    n := end - i;
  }

  /** A buffer of the computed size is filled exactly, down to index 0. */
  method Marshal(m: ReportToSign) returns (data: array<byte>)
    ensures fresh(data) && data[..] == Encode(m)
  {
    var size := Size(m);
    data := new byte[size];
    ghost var before := data[..];
    var n := MarshalToSizedBuffer(data, size, m);
    WroteEverything(before, data[..], Encode(m));
  }

  // ---------- decoding ----------

  /** What the switch of the decoder does with one known field. */
  function ReadField(m: ReportToSign, tag: Tag, s: seq<byte>, at: nat): Result<(ReportToSign, nat), WireError> {
    match tag.number
    case 1 => var b :- BlobField(tag, s, at); Success((m.(configDigest := b.payload), b.length))
    case 2 => var v :- NumberField(tag, s, TWO_64); Success((m.(epoch := v.value), v.length))
    case 3 => var v :- NumberField(tag, s, TWO_64); Success((m.(round := v.value), v.length))
    case 4 => var b :- BlobField(tag, s, at); Success((m.(extraHash := b.payload), b.length))
    case 5 => var b :- BlobField(tag, s, at); Success((m.(report := b.payload), b.length))
    case _ => Failure(IllegalTag)
  }

  const FORMAT: Schema<ReportToSign> := Schema({1, 2, 3, 4, 5}, ReadField)

  method FieldAt(data: seq<byte>, index: nat, tag: Tag, m: ReportToSign)
    returns (r: Result<(ReportToSign, nat), WireError>)
    requires index <= |data|
    ensures r == ReadField(m, tag, data[index..], index)
    ensures r.Success? ==> 0 < r.value.1 <= |data| - index
  {
    hide NumberField, BlobField;
    match tag.number {
      case 1 =>
        var b :- BlobAt(data, index, tag);
        return Success((m.(configDigest := b.payload), b.length));
      case 2 =>
        var v :- NumberAt(data, index, tag, TWO_64);
        return Success((m.(epoch := v.value), v.length));
      case 3 =>
        var v :- NumberAt(data, index, tag, TWO_64);
        return Success((m.(round := v.value), v.length));
      case 4 =>
        var b :- BlobAt(data, index, tag);
        return Success((m.(extraHash := b.payload), b.length));
      case 5 =>
        var b :- BlobAt(data, index, tag);
        return Success((m.(report := b.payload), b.length));
      case _ =>
        return Failure(IllegalTag);
    }
  }

  /** One round of the decoding loop: the message and the index after it. */
  method RoundAt(data: seq<byte>, index: nat, m: ReportToSign) returns (r: Result<(ReportToSign, nat), WireError>)
    requires index < |data|
    ensures r.Failure? ==> Decode(FORMAT, data[index..], index, m) == Failure(r.error)
    ensures r.Success? ==> index < r.value.1 <= |data|
    ensures r.Success? ==>
            Decode(FORMAT, data[index..], index, m) == Decode(FORMAT, data[r.value.1..], r.value.1, r.value.0)
  {
    hide Decode, ReadTag, SkipInside, ReadField;
    DecodeRound(FORMAT, data, index, m);
    var tag :- TagAt(data, index);
    if tag.number in {1, 2, 3, 4, 5} {
      var step :- FieldAt(data, index + tag.length, tag, m);
      return Success((step.0, index + tag.length + step.1));
    } else {
      var n :- SkipAt(data, index);
      return Success((m, index + n));
    }
  }

  /** Decodes into an existing message; every round moves the index forward. */
  method Unmarshal(data: seq<byte>, into: ReportToSign) returns (r: Result<ReportToSign, WireError>)
    ensures r == Decode(FORMAT, data, 0, into)
  {
    hide Decode, ReadTag, SkipInside, ReadField;
    var index: nat, m := 0, into;
    DecodeEnd(FORMAT, data, m);
    while index < |data|
      invariant index <= |data|
      invariant Decode(FORMAT, data, 0, into) == Decode(FORMAT, data[index..], index, m)
      decreases |data| - index
    {
      var round :- RoundAt(data, index, m);
      m, index := round.0, round.1;
    }
    DecodeEnd(FORMAT, data, m);
    return Success(m);
  }

  // ---------- round trip ----------

  /** The effect of one record of this message. */
  function Apply(m: ReportToSign, f: Field): ReportToSign {
    match f
    case Num(number, value) =>
      if number == 2 then m.(epoch := value % TWO_64)
      else if number == 3 then m.(round := value % TWO_64)
      else m
    case Bin(number, payload) =>
      if number == 1 then m.(configDigest := payload)
      else if number == 4 then m.(extraHash := payload)
      else if number == 5 then m.(report := payload)
      else m
  }

  lemma ReadsNumber(number: nat, value: nat)
    requires number in {2, 3} && value < TWO_64
    ensures Handles(FORMAT, Apply, Num(number, value))
  {
    var f := Num(number, value);
    forall m: ReportToSign, rest: seq<byte>, at: nat | at + |Body(f)| < TWO_63
      ensures FORMAT.field(m, Tag(f.number, WireTypeOf(f), |EncodeTag(f.number, WireTypeOf(f))|), Body(f) + rest, at)
           == Success((Apply(m, f), |Body(f)|))
    {
      hide EncodeTag, ReadVarint, EncodeVarint;
      VarintRoundTrip(value, TWO_64, rest);
    }
  }

  lemma ReadsBytes(number: nat, payload: seq<byte>)
    requires number in {1, 4, 5}
    ensures Handles(FORMAT, Apply, Bin(number, payload))
  {
    var f := Bin(number, payload);
    forall m: ReportToSign, rest: seq<byte>, at: nat | at + |Body(f)| < TWO_63
      ensures FORMAT.field(m, Tag(f.number, WireTypeOf(f), |EncodeTag(f.number, WireTypeOf(f))|), Body(f) + rest, at)
           == Success((Apply(m, f), |Body(f)|))
    {
      hide EncodeTag, ReadBlob, EncodeBlob;
      BlobRoundTrip(payload, rest, at);
    }
  }

  lemma ReadsAllFields(m: ReportToSign)
    ensures forall i :: 0 <= i < |Fields(m)| ==> Handles(FORMAT, Apply, Fields(m)[i])
  {
    hide Handles;
    forall i | 0 <= i < |Fields(m)| ensures Handles(FORMAT, Apply, Fields(m)[i]) {
      match Fields(m)[i] {
        case Num(number, value) => ReadsNumber(number, value);
        case Bin(number, payload) => ReadsBytes(number, payload);
      }
    }
  }

  lemma FoldFields(m: ReportToSign)
    ensures Fold(Apply, Fields(m), EMPTY) == m
  {
    hide Fold, OptNum, OptBin;
    var after4 := OptBin(5, m.report);
    var after3 := OptBin(4, m.extraHash) + after4;
    var after2 := OptNum(3, m.round) + after3;
    var after1 := OptNum(2, m.epoch) + after2;
    var m1 := EMPTY.(configDigest := m.configDigest);
    FoldAppend(Apply, OptBin(1, m.configDigest), after1, EMPTY);
    FoldOptBin(Apply, 1, m.configDigest, EMPTY);
    var m2 := m1.(epoch := m.epoch);
    FoldAppend(Apply, OptNum(2, m.epoch), after2, m1);
    FoldOptNum(Apply, 2, m.epoch, m1);
    var m3 := m2.(round := m.round);
    FoldAppend(Apply, OptNum(3, m.round), after3, m2);
    FoldOptNum(Apply, 3, m.round, m2);
    var m4 := m3.(extraHash := m.extraHash);
    FoldAppend(Apply, OptBin(4, m.extraHash), after4, m3);
    FoldOptBin(Apply, 4, m.extraHash, m3);
    FoldOptBin(Apply, 5, m.report, m4);
  }

  /** Decoding what was encoded gives the message back. */
  lemma RoundTrip(m: ReportToSign)
    requires |Encode(m)| < TWO_63
    ensures Decode(FORMAT, Encode(m), 0, EMPTY) == Success(m)
  {
    ReadsAllFields(m);
    FoldFields(m);
    hide Fields, Handles, Fold, Decode;
    DecodeFields(FORMAT, Apply, Fields(m), EMPTY);
  }

  /** So it does with any well-formed unknown fields, nested groups included, in between. */
  lemma UnknownFieldsAreTransparent(m: ReportToSign, items: seq<Item>)
    requires KnownFields(items) == Fields(m) && |EncodeItems(items)| < TWO_63
    requires forall i :: 0 <= i < |items| && items[i].Unknown? ==>
               WellFormed(items[i].chunk) && items[i].chunk.number !in {0, 1, 2, 3, 4, 5}
    ensures Decode(FORMAT, EncodeItems(items), 0, EMPTY) == Success(m)
  {
    ReadsAllFields(m);
    FoldFields(m);
    hide Fields, Handles, Fold, Decode, WellFormed, EncodeItems, KnownFields;
    DecodeWithUnknown(FORMAT, Apply, items, EMPTY);
  }
}
