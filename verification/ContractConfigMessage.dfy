/** The ContractConfig message: the oracle configuration an Injective chain module stores. */
module ContractConfigMessage {
  import opened Wrappers
  import opened Bytes
  import opened Wire
  import opened Records
  import opened Messages

  datatype ContractConfig = ContractConfig(
    configCount: uint64,
    signers: seq<seq<byte>>,
    transmitters: seq<seq<byte>>,
    f: uint32,
    onchainConfig: seq<byte>,
    offchainConfigVersion: uint64,
    offchainConfig: seq<byte>)

  const EMPTY: ContractConfig := ContractConfig(0, [], [], 0, [], 0, [])

  /** The records of a message, in field order. */
  function Fields(m: ContractConfig): seq<Field> {
    OptNum(1, m.configCount) + (Each(2, m.signers) + (Each(3, m.transmitters) + (OptNum(4, m.f)
      + (OptBin(5, m.onchainConfig) + (OptNum(6, m.offchainConfigVersion) + OptBin(7, m.offchainConfig))))))
  }

  function Encode(m: ContractConfig): seq<byte> {
    EncodeFields(Fields(m))
  }

  lemma EncodeParts(m: ContractConfig)
    ensures Encode(m)
         == EncodeFields(OptNum(1, m.configCount))
            + (EncodeFields(Each(2, m.signers)) + (EncodeFields(Each(3, m.transmitters))
            + (EncodeFields(OptNum(4, m.f)) + (EncodeFields(OptBin(5, m.onchainConfig))
            + (EncodeFields(OptNum(6, m.offchainConfigVersion)) + EncodeFields(OptBin(7, m.offchainConfig)))))))
  {
    hide EncodeFields;
    EncodeFieldsAppend(OptNum(6, m.offchainConfigVersion), OptBin(7, m.offchainConfig));
    var after5 := OptNum(6, m.offchainConfigVersion) + OptBin(7, m.offchainConfig);
    EncodeFieldsAppend(OptBin(5, m.onchainConfig), after5);
    EncodeFieldsAppend(OptNum(4, m.f), OptBin(5, m.onchainConfig) + after5);
    var after3 := OptNum(4, m.f) + (OptBin(5, m.onchainConfig) + after5);
    EncodeFieldsAppend(Each(3, m.transmitters), after3);
    EncodeFieldsAppend(Each(2, m.signers), Each(3, m.transmitters) + after3);
    EncodeFieldsAppend(OptNum(1, m.configCount), Each(2, m.signers) + (Each(3, m.transmitters) + after3));
  }

  lemma PartSizes(m: ContractConfig)
    ensures |Encode(m)|
         == |EncodeFields(OptNum(1, m.configCount))| + |EncodeFields(Each(2, m.signers))|
            + |EncodeFields(Each(3, m.transmitters))|
            + |EncodeFields(OptNum(4, m.f))| + |EncodeFields(OptBin(5, m.onchainConfig))|
            + |EncodeFields(OptNum(6, m.offchainConfigVersion))| + |EncodeFields(OptBin(7, m.offchainConfig))|
  {
    EncodeParts(m);
    hide *;
  }

  method Size(m: ContractConfig) returns (n: nat)
    ensures n == |Encode(m)|
  {
    hide *;
    PartSizes(m);
    OptNumSize(1, m.configCount);
    OptNumSize(4, m.f);
    OptBinSize(5, m.onchainConfig);
    OptNumSize(6, m.offchainConfigVersion);
    OptBinSize(7, m.offchainConfig);
    n := 0;
    if m.configCount != 0 {
      n := n + 1 + Sov(m.configCount);
    }
    var signers := SizeOfEach(2, m.signers);
    var transmitters := SizeOfEach(3, m.transmitters);
    n := n + signers + transmitters;
    if m.f != 0 {
      n := n + 1 + Sov(m.f);
    }
    var l: nat := |m.onchainConfig|;
    if l > 0 {
      n := n + 1 + l + Sov(l);
    }
    if m.offchainConfigVersion != 0 {
      n := n + 1 + Sov(m.offchainConfigVersion);
    }
    l := |m.offchainConfig|;
    if l > 0 {
      n := n + 1 + l + Sov(l);
    }
  }

  /** Fills the buffer backwards from end. */
  method MarshalToSizedBuffer(a: array<byte>, end: nat, m: ContractConfig) returns (n: nat)
    requires |Encode(m)| <= end <= a.Length
    modifies a
    ensures n == |Encode(m)|
    ensures Wrote(old(a[..]), a[..], end - n, Encode(m))
  {
    EncodeParts(m);
    hide Encode, EncodeFields, Wrote, OptNum, OptBin, Each;
    ghost var before := a[..];
    WroteNothing(before, end);
    var i := PutOptBin(a, end, 7, m.offchainConfig, before, []);
    ghost var behind := EncodeFields(OptBin(7, m.offchainConfig)) + [];
    i := PutOptNum(a, i, 6, m.offchainConfigVersion, before, behind);
    behind := EncodeFields(OptNum(6, m.offchainConfigVersion)) + behind;
    i := PutOptBin(a, i, 5, m.onchainConfig, before, behind);
    behind := EncodeFields(OptBin(5, m.onchainConfig)) + behind;
    i := PutOptNum(a, i, 4, m.f, before, behind);
    behind := EncodeFields(OptNum(4, m.f)) + behind;
    i := PutEach(a, i, 3, m.transmitters, before, behind);
    behind := EncodeFields(Each(3, m.transmitters)) + behind;
    i := PutEach(a, i, 2, m.signers, before, behind);
    behind := EncodeFields(Each(2, m.signers)) + behind;
    i := PutOptNum(a, i, 1, m.configCount, before, behind);
    assert EncodeFields(OptBin(7, m.offchainConfig)) + [] == EncodeFields(OptBin(7, m.offchainConfig));
    n := end - i;
  }

  /** A buffer of the computed size is filled exactly, down to index 0. */
  method Marshal(m: ContractConfig) returns (data: array<byte>)
    ensures fresh(data) && data[..] == Encode(m)
  {
    var size := Size(m);
    data := new byte[size];
    ghost var before := data[..];
    var n := MarshalToSizedBuffer(data, size, m);
    WroteEverything(before, data[..], Encode(m));
  }

  // ---------- decoding ----------

  /** What the switch of the decoder does with one known field. */
  function ReadField(m: ContractConfig, tag: Tag, s: seq<byte>, at: nat): Result<(ContractConfig, nat), WireError> {
    match tag.number
    case 1 => var v :- NumberField(tag, s, TWO_64); Success((m.(configCount := v.value), v.length))
    case 2 => var b :- BlobField(tag, s, at); Success((m.(signers := m.signers + [b.payload]), b.length))
    case 3 => var b :- BlobField(tag, s, at); Success((m.(transmitters := m.transmitters + [b.payload]), b.length))
    case 4 => var v :- NumberField(tag, s, TWO_32); Success((m.(f := v.value), v.length))
    case 5 => var b :- BlobField(tag, s, at); Success((m.(onchainConfig := b.payload), b.length))
    case 6 => var v :- NumberField(tag, s, TWO_64); Success((m.(offchainConfigVersion := v.value), v.length))
    case 7 => var b :- BlobField(tag, s, at); Success((m.(offchainConfig := b.payload), b.length))
    case _ => Failure(IllegalTag)
  }

  const FORMAT: Schema<ContractConfig> := Schema({1, 2, 3, 4, 5, 6, 7}, ReadField)

  method FieldAt(data: seq<byte>, index: nat, tag: Tag, m: ContractConfig)
    returns (r: Result<(ContractConfig, nat), WireError>)
    requires index <= |data|
    ensures r == ReadField(m, tag, data[index..], index)
    ensures r.Success? ==> 0 < r.value.1 <= |data| - index
  {
    hide NumberField, BlobField;
    match tag.number {
      case 1 =>
        var v :- NumberAt(data, index, tag, TWO_64);
        return Success((m.(configCount := v.value), v.length));
      case 2 =>
        var b :- BlobAt(data, index, tag);
        return Success((m.(signers := m.signers + [b.payload]), b.length));
      case 3 =>
        var b :- BlobAt(data, index, tag);
        return Success((m.(transmitters := m.transmitters + [b.payload]), b.length));
      case 4 =>
        var v :- NumberAt(data, index, tag, TWO_32);
        return Success((m.(f := v.value), v.length));
      case 5 =>
        var b :- BlobAt(data, index, tag);
        return Success((m.(onchainConfig := b.payload), b.length));
      case 6 =>
        var v :- NumberAt(data, index, tag, TWO_64);
        return Success((m.(offchainConfigVersion := v.value), v.length));
      case 7 =>
        var b :- BlobAt(data, index, tag);
        return Success((m.(offchainConfig := b.payload), b.length));
      case _ =>
        return Failure(IllegalTag);
    }
  }

  /** One round of the decoding loop: the message and the index after it. */
  method RoundAt(data: seq<byte>, index: nat, m: ContractConfig) returns (r: Result<(ContractConfig, nat), WireError>)
    requires index < |data|
    ensures r.Failure? ==> Decode(FORMAT, data[index..], index, m) == Failure(r.error)
    ensures r.Success? ==> index < r.value.1 <= |data|
    ensures r.Success? ==>
            Decode(FORMAT, data[index..], index, m) == Decode(FORMAT, data[r.value.1..], r.value.1, r.value.0)
  {
    hide Decode, ReadTag, SkipInside, ReadField;
    DecodeRound(FORMAT, data, index, m);
    var tag :- TagAt(data, index);
    if tag.number in {1, 2, 3, 4, 5, 6, 7} {
      var step :- FieldAt(data, index + tag.length, tag, m);
      return Success((step.0, index + tag.length + step.1));
    } else {
      var n :- SkipAt(data, index);
      return Success((m, index + n));
    }
  }

  /** Decodes into an existing message; every round moves the index forward. */
  method Unmarshal(data: seq<byte>, into: ContractConfig) returns (r: Result<ContractConfig, WireError>)
    ensures r == Decode(FORMAT, data, 0, into)
  {
    hide Decode, ReadTag, SkipInside, ReadField;
    var index: nat, m := 0, into;
    DecodeEnd(FORMAT, data, m);
    while index < |data|
      invariant index <= |data|
      invariant Decode(FORMAT, data, 0, into) == Decode(FORMAT, data[index..], index, m)
      decreases |data| - index
    {
      var round :- RoundAt(data, index, m);
      m, index := round.0, round.1;
    }
    DecodeEnd(FORMAT, data, m);
    return Success(m);
  }

  // ---------- round trip ----------

  /** The effect of one record of this message. */
  function Apply(m: ContractConfig, f: Field): ContractConfig {
    match f
    case Num(number, value) =>
      if number == 1 then m.(configCount := value % TWO_64)
      else if number == 4 then m.(f := value % TWO_32)
      else if number == 6 then m.(offchainConfigVersion := value % TWO_64)
      else m
    case Bin(number, payload) =>
      if number == 2 then m.(signers := m.signers + [payload])
      else if number == 3 then m.(transmitters := m.transmitters + [payload])
      else if number == 5 then m.(onchainConfig := payload)
      else if number == 7 then m.(offchainConfig := payload)
      else m
  }

  lemma ReadsNumber(number: nat, value: nat)
    requires (number in {1, 6} && value < TWO_64) || (number == 4 && value < TWO_32)
    ensures Handles(FORMAT, Apply, Num(number, value))
  {
    var f := Num(number, value);
    forall m: ContractConfig, rest: seq<byte>, at: nat | at + |Body(f)| < TWO_63
      ensures FORMAT.field(m, Tag(f.number, WireTypeOf(f), |EncodeTag(f.number, WireTypeOf(f))|), Body(f) + rest, at)
           == Success((Apply(m, f), |Body(f)|))
    {
      hide EncodeTag, ReadVarint, EncodeVarint;
      VarintRoundTrip(value, if number == 4 then TWO_32 else TWO_64, rest);
    }
  }

  lemma ReadsBytes(number: nat, payload: seq<byte>)
    requires number in {2, 3, 5, 7}
    ensures Handles(FORMAT, Apply, Bin(number, payload))
  {
    var f := Bin(number, payload);
    forall m: ContractConfig, rest: seq<byte>, at: nat | at + |Body(f)| < TWO_63
      ensures FORMAT.field(m, Tag(f.number, WireTypeOf(f), |EncodeTag(f.number, WireTypeOf(f))|), Body(f) + rest, at)
           == Success((Apply(m, f), |Body(f)|))
    {
      hide EncodeTag, ReadBlob, EncodeBlob;
      BlobRoundTrip(payload, rest, at);
    }
  }

  lemma ReadsAllFields(m: ContractConfig)
    ensures forall i :: 0 <= i < |Fields(m)| ==> Handles(FORMAT, Apply, Fields(m)[i])
  {
    hide Handles;
    forall i | 0 <= i < |Fields(m)| ensures Handles(FORMAT, Apply, Fields(m)[i]) {
      match Fields(m)[i] {
        case Num(number, value) => ReadsNumber(number, value);
        case Bin(number, payload) => ReadsBytes(number, payload);
      }
    }
  }

  lemma {:induction false} FoldSigners(signers: seq<seq<byte>>, m: ContractConfig)
    ensures Fold(Apply, Each(2, signers), m) == m.(signers := m.signers + signers)
  {
    var fs := Each(2, signers);
    if |signers| > 0 {
      assert fs[1..] == Each(2, signers[1..]);
      FoldSigners(signers[1..], m.(signers := m.signers + [signers[0]]));
      assert m.signers + [signers[0]] + signers[1..] == m.signers + signers;
    } else {
      assert m.signers + signers == m.signers;
    }
  }

  lemma {:induction false} FoldTransmitters(transmitters: seq<seq<byte>>, m: ContractConfig)
    ensures Fold(Apply, Each(3, transmitters), m) == m.(transmitters := m.transmitters + transmitters)
  {
    var fs := Each(3, transmitters);
    if |transmitters| > 0 {
      assert fs[1..] == Each(3, transmitters[1..]);
      FoldTransmitters(transmitters[1..], m.(transmitters := m.transmitters + [transmitters[0]]));
      assert m.transmitters + [transmitters[0]] + transmitters[1..] == m.transmitters + transmitters;
    } else {
      assert m.transmitters + transmitters == m.transmitters;
    }
  }

  lemma FoldFields(m: ContractConfig)
    ensures Fold(Apply, Fields(m), EMPTY) == m
  {
    hide Fold, OptNum, OptBin, Each;
    var after6 := OptBin(7, m.offchainConfig);
    var after5 := OptNum(6, m.offchainConfigVersion) + after6;
    var after4 := OptBin(5, m.onchainConfig) + after5;
    var after3 := OptNum(4, m.f) + after4;
    var after2 := Each(3, m.transmitters) + after3;
    var after1 := Each(2, m.signers) + after2;
    var m1 := EMPTY.(configCount := m.configCount);
    FoldAppend(Apply, OptNum(1, m.configCount), after1, EMPTY);
    FoldOptNum(Apply, 1, m.configCount, EMPTY);
    var m2 := m1.(signers := m.signers);
    FoldAppend(Apply, Each(2, m.signers), after2, m1);
    FoldSigners(m.signers, m1);
    assert m1.signers + m.signers == m.signers && m2.transmitters + m.transmitters == m.transmitters;
    var m3 := m2.(transmitters := m.transmitters);
    FoldAppend(Apply, Each(3, m.transmitters), after3, m2);
    FoldTransmitters(m.transmitters, m2);
    var m4 := m3.(f := m.f);
    FoldAppend(Apply, OptNum(4, m.f), after4, m3);
    FoldOptNum(Apply, 4, m.f, m3);
    var m5 := m4.(onchainConfig := m.onchainConfig);
    FoldAppend(Apply, OptBin(5, m.onchainConfig), after5, m4);
    FoldOptBin(Apply, 5, m.onchainConfig, m4);
    var m6 := m5.(offchainConfigVersion := m.offchainConfigVersion);
    FoldAppend(Apply, OptNum(6, m.offchainConfigVersion), after6, m5);
    FoldOptNum(Apply, 6, m.offchainConfigVersion, m5);
    FoldOptBin(Apply, 7, m.offchainConfig, m6);
  }

  /** Decoding what was encoded gives the message back. */
  lemma RoundTrip(m: ContractConfig)
    requires |Encode(m)| < TWO_63
    ensures Decode(FORMAT, Encode(m), 0, EMPTY) == Success(m)
  {
    ReadsAllFields(m);
    FoldFields(m);
    hide Fields, Handles, Fold, Decode;
    DecodeFields(FORMAT, Apply, Fields(m), EMPTY);
  }

  /** So it does with any well-formed unknown fields, nested groups included, in between. */
  lemma UnknownFieldsAreTransparent(m: ContractConfig, items: seq<Item>)
    requires KnownFields(items) == Fields(m) && |EncodeItems(items)| < TWO_63
    requires forall i :: 0 <= i < |items| && items[i].Unknown? ==>
               WellFormed(items[i].chunk) && items[i].chunk.number !in {0, 1, 2, 3, 4, 5, 6, 7}
    ensures Decode(FORMAT, EncodeItems(items), 0, EMPTY) == Success(m)
  {
    ReadsAllFields(m);
    FoldFields(m);
    hide Fields, Handles, Fold, Decode, WellFormed, EncodeItems, KnownFields;
    DecodeWithUnknown(FORMAT, Apply, items, EMPTY);
  }
}
