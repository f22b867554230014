/**
 Messages as sequences of records: encoding them front to back, writing them back to front
 into a sized buffer, decoding them field by field, and passing over unknown fields.
 */
module Records {
  import opened Wrappers
  import opened Bytes
  import opened Wire

  // ---------- encoding ----------

  datatype Field = Num(number: nat, value: nat) | Bin(number: nat, payload: seq<byte>)

  function WireTypeOf(f: Field): nat {
    if f.Num? then 0 else 2
  }

  function EncodeTag(number: nat, wireType: nat): (r: seq<byte>)
    ensures |r| > 0
  {
    EncodeVarint(number * 8 + wireType)
  }

  function Body(f: Field): (r: seq<byte>)
    ensures |r| > 0
  {
    match f
    case Num(_, value) => EncodeVarint(value)
    case Bin(_, payload) => EncodeBlob(payload)
  }

  function EncodeField(f: Field): seq<byte> {
    EncodeTag(f.number, WireTypeOf(f)) + Body(f)
  }

  function EncodeFields(fs: seq<Field>): seq<byte> {
    if |fs| == 0 then [] else EncodeField(fs[0]) + EncodeFields(fs[1..])
  }

  lemma {:induction false} EncodeFieldsAppend(a: seq<Field>, b: seq<Field>)
    ensures EncodeFields(a + b) == EncodeFields(a) + EncodeFields(b)
  {
    if |a| == 0 {
      assert a + b == b;
    } else {
      assert (a + b)[1..] == a[1..] + b;
      EncodeFieldsAppend(a[1..], b);
    }
  }

  /** Fields the generated code can write: one-byte tags, 64-bit numbers. */
  predicate Writable(f: Field) {
    0 < f.number < 16 && (f.Num? ==> f.value < TWO_64)
  }

  // ---------- filling a buffer from the back ----------

  function Splice(s: seq<byte>, i: nat, bytes: seq<byte>): (r: seq<byte>)
    requires i + |bytes| <= |s|
    ensures |r| == |s|
  {
    s[..i] + bytes + s[i + |bytes|..]
  }

  lemma SpliceInFront(s: seq<byte>, i: nat, x: seq<byte>, y: seq<byte>)
    requires |y| <= i && i + |x| <= |s|
    ensures Splice(Splice(s, i, x), i - |y|, y) == Splice(s, i - |y|, y + x)
  {
  }

  /** after is before with the given bytes written at i, and nothing else. */
  ghost predicate Wrote(before: seq<byte>, after: seq<byte>, i: nat, bytes: seq<byte>) {
    i + |bytes| <= |before| && after == Splice(before, i, bytes)
  }

  lemma WroteInFront(before: seq<byte>, middle: seq<byte>, after: seq<byte>, i: nat, x: seq<byte>, y: seq<byte>)
    requires Wrote(before, middle, i, x) && |y| <= i && Wrote(middle, after, i - |y|, y)
    ensures Wrote(before, after, i - |y|, y + x)
  {
    SpliceInFront(before, i, x, y);
  }

  lemma WroteByIndex(before: seq<byte>, after: seq<byte>, i: nat, bytes: seq<byte>)
    requires |after| == |before| && i + |bytes| <= |before|
    requires forall k :: 0 <= k < |bytes| ==> after[i + k] == bytes[k]
    requires forall k :: 0 <= k < |before| && !(i <= k < i + |bytes|) ==> after[k] == before[k]
    ensures Wrote(before, after, i, bytes)
  {
    forall k | i <= k < i + |bytes| ensures after[k] == bytes[k - i] {
      assert after[i + (k - i)] == bytes[k - i];
    }
    assert after == Splice(before, i, bytes);
  }

  /** encodeVarintOcr and encodeVarintGenesis. */
  method PutVarint(a: array<byte>, end: nat, value: nat) returns (base: nat)
    requires |EncodeVarint(value)| <= end <= a.Length
    modifies a
    ensures base == end - |EncodeVarint(value)|
    ensures Wrote(old(a[..]), a[..], base, EncodeVarint(value))
  {
    SovIsLength(value);
    hide Sov, Wrote, EncodeVarint;
    var offset: nat := end - Sov(value);
    base := offset;
    var v: nat := value;
    ghost var done: seq<byte> := [];
    while v >= TWO_7
      invariant |done| == offset - base && offset + |EncodeVarint(v)| == end
      invariant EncodeVarint(value) == done + EncodeVarint(v)
      invariant forall k :: 0 <= k < |done| ==> a[base + k] == done[k]
      invariant forall k :: 0 <= k < a.Length && !(base <= k < end) ==> a[k] == old(a[k])
    {
      VarintGroups(v);
      done := done + [v % TWO_7 + TWO_7];
      a[offset] := v % TWO_7 + TWO_7;
      v := v / TWO_7;
      offset := offset + 1;
    }
    VarintGroups(v);
    a[offset] := v;
    WroteByIndex(old(a[..]), a[..], base, EncodeVarint(value));
  }

  method PutByte(a: array<byte>, end: nat, b: byte) returns (i: nat)
    requires 0 < end <= a.Length
    modifies a
    ensures i == end - 1
    ensures Wrote(old(a[..]), a[..], i, [b])
  {
    i := end - 1;
    a[i] := b;
  }

  method PutBytes(a: array<byte>, end: nat, bytes: seq<byte>) returns (i: nat)
    requires |bytes| <= end <= a.Length
    modifies a
    ensures i == end - |bytes|
    ensures Wrote(old(a[..]), a[..], i, bytes)
  {
    i := end - |bytes|;
    forall k | 0 <= k < |bytes| {
      a[i + k] := bytes[k];
    }
    assert a[i..end] == bytes;
    assert a[..] == a[..i] + a[i..end] + a[end..];
    assert a[..i] == old(a[..i]) && a[end..] == old(a[end..]);
  }

  lemma OneByteTag(number: nat, wireType: nat)
    requires number < 16 && wireType < 8
    ensures EncodeTag(number, wireType) == [number * 8 + wireType]
  {
  }

  /** Value first, then its tag in front of it. */
  method PutNum(a: array<byte>, end: nat, number: nat, value: nat) returns (i: nat)
    requires Writable(Num(number, value)) && |EncodeField(Num(number, value))| <= end <= a.Length
    modifies a
    ensures i == end - |EncodeField(Num(number, value))|
    ensures Wrote(old(a[..]), a[..], i, EncodeField(Num(number, value)))
  {
    OneByteTag(number, 0);
    i := PutVarint(a, end, value);
    ghost var middle := a[..];
    i := PutByte(a, i, number * 8);
    WroteInFront(old(a[..]), middle, a[..], i + 1, EncodeVarint(value), [number * 8]);
  }

  /** Length and tag in front of a payload that is already in place. */
  method PutHeader(a: array<byte>, end: nat, number: nat, length: nat) returns (i: nat)
    requires 0 < number < 16 && |EncodeVarint(length)| + 1 <= end <= a.Length
    modifies a
    ensures i == end - |EncodeTag(number, 2) + EncodeVarint(length)|
    ensures Wrote(old(a[..]), a[..], i, EncodeTag(number, 2) + EncodeVarint(length))
  {
    OneByteTag(number, 2);
    i := PutVarint(a, end, length);
    ghost var middle := a[..];
    i := PutByte(a, i, number * 8 + 2);
    WroteInFront(old(a[..]), middle, a[..], i + 1, EncodeVarint(length), [number * 8 + 2]);
  }

  lemma HeaderAndPayload(number: nat, payload: seq<byte>)
    requires 0 < number < 16
    ensures EncodeTag(number, 2) + EncodeVarint(|payload|) + payload == EncodeField(Bin(number, payload))
    ensures |EncodeField(Bin(number, payload))| == 1 + |EncodeVarint(|payload|)| + |payload|
  {
    OneByteTag(number, 2);
  }

  /** Payload first, then its length and its tag in front of it. */
  method PutBin(a: array<byte>, end: nat, number: nat, payload: seq<byte>) returns (i: nat)
    requires 0 < number < 16 && |EncodeField(Bin(number, payload))| <= end <= a.Length
    modifies a
    ensures i == end - |EncodeField(Bin(number, payload))|
    ensures Wrote(old(a[..]), a[..], i, EncodeField(Bin(number, payload)))
  {
    HeaderAndPayload(number, payload);
    i := PutBytes(a, end, payload);
    ghost var middle, start := a[..], i;
    i := PutHeader(a, i, number, |payload|);
    WroteInFront(old(a[..]), middle, a[..], start, payload, EncodeTag(number, 2) + EncodeVarint(|payload|));
  }

  // ---------- decoding ----------

  /** How one message type reads a known field; the result says how many bytes it took. */
  datatype Schema<!M> = Schema(known: set<int>, field: (M, Tag, seq<byte>, nat) -> Result<(M, nat), WireError>)

  function Decode<M>(schema: Schema<M>, s: seq<byte>, at: nat, m: M): Result<M, WireError>
    decreases |s|
  {
    if |s| == 0 then Success(m)
    else
      var tag :- ReadTag(s);
      if tag.number in schema.known then
        var step :- schema.field(m, tag, s[tag.length..], at + tag.length);
        if tag.length + step.1 > |s| then Failure(UnexpectedEof)
        else Decode(schema, s[tag.length + step.1..], at + tag.length + step.1, step.0)
      else
        var n :- SkipInside(s, at);
        Decode(schema, s[n..], at + n, m)
  }

  function NumberField(tag: Tag, s: seq<byte>, modulus: nat): (r: Result<Varint, WireError>)
    requires modulus > 0
    ensures r.Success? ==> 0 < r.value.length <= |s| && r.value.value < modulus
  {
    if tag.wireType != 0 then Failure(WrongWireType) else ReadVarint(s, modulus)
  }

  function BlobField(tag: Tag, s: seq<byte>, at: nat): (r: Result<Blob, WireError>)
    ensures r.Success? ==> 0 < r.value.length <= |s|
  {
    if tag.wireType != 2 then Failure(WrongWireType) else ReadBlob(s, at)
  }

  method TagAt(data: seq<byte>, index: nat) returns (r: Result<Tag, WireError>)
    requires index <= |data|
    ensures r == ReadTag(data[index..])
  {
    var wire :- DecodeVarint(data, index, TWO_64);
    if wire.value % 8 == 4 {
      return Failure(EndGroupForNonGroup);
    }
    if Int32(wire.value / 8) <= 0 {
      return Failure(IllegalTag);
    }
    return Success(Tag(Int32(wire.value / 8), wire.value % 8, wire.length));
  }

  method NumberAt(data: seq<byte>, index: nat, tag: Tag, modulus: nat) returns (r: Result<Varint, WireError>)
    requires index <= |data| && modulus > 0
    ensures r == NumberField(tag, data[index..], modulus)
  {
    if tag.wireType != 0 {
      return Failure(WrongWireType);
    }
    r := DecodeVarint(data, index, modulus);
  }

  method BlobAt(data: seq<byte>, index: nat, tag: Tag) returns (r: Result<Blob, WireError>)
    requires index <= |data|
    ensures r == BlobField(tag, data[index..], index)
  {
    if tag.wireType != 2 {
      return Failure(WrongWireType);
    }
    var n :- DecodeVarint(data, index, TWO_64);
    if n.value >= TWO_63 {
      return Failure(InvalidLength);
    }
    var start := index + n.length;
    var postIndex := start + n.value;
    if postIndex >= TWO_63 {
      return Failure(InvalidLength);
    }
    if postIndex > |data| {
      return Failure(UnexpectedEof);
    }
    assert data[index..][n.length..n.length + n.value] == data[start..postIndex];
    return Success(Blob(data[start..postIndex], n.length + n.value));
  }

  /** The default branch of every decoder. */
  method SkipAt(data: seq<byte>, index: nat) returns (r: Result<nat, WireError>)
    requires index <= |data|
    ensures r == SkipInside(data[index..], index)
  {
    var n :- SkipField(data[index..]);
    if index + n >= TWO_63 {
      return Failure(InvalidLength);
    }
    if index + n > |data| {
      return Failure(UnexpectedEof);
    }
    return Success(n);
  }

  // ---------- reading back what was written ----------

  lemma TagRoundTrip(number: nat, wireType: nat, rest: seq<byte>)
    requires 0 < number < TWO_31 && wireType < 8 && wireType != 4
    ensures ReadTag(EncodeTag(number, wireType) + rest) == Success(Tag(number, wireType, |EncodeTag(number, wireType)|))
  {
    VarintRoundTrip(number * 8 + wireType, TWO_64, rest);
  }

  /** The schema reads the encoding of f, in any place and for any message, as applying f. */
  ghost predicate Handles<M(!new)>(schema: Schema<M>, apply: (M, Field) -> M, f: Field) {
    && f.number in schema.known && 0 < f.number < TWO_31
    && forall m: M, rest: seq<byte>, at: nat :: at + |Body(f)| < TWO_63 ==>
         schema.field(m, Tag(f.number, WireTypeOf(f), |EncodeTag(f.number, WireTypeOf(f))|), Body(f) + rest, at)
         == Success((apply(m, f), |Body(f)|))
  }

  function Fold<M>(apply: (M, Field) -> M, fs: seq<Field>, m: M): M {
    if |fs| == 0 then m else Fold(apply, fs[1..], apply(m, fs[0]))
  }

  lemma {:induction false} FoldAppend<M>(apply: (M, Field) -> M, a: seq<Field>, b: seq<Field>, m: M)
    ensures Fold(apply, a + b, m) == Fold(apply, b, Fold(apply, a, m))
  {
    if |a| == 0 {
      assert a + b == b;
    } else {
      assert (a + b)[1..] == a[1..] + b;
      FoldAppend(apply, a[1..], b, apply(m, a[0]));
    }
  }

  lemma DecodeKnownAt<M>(schema: Schema<M>, s: seq<byte>, at: nat, m: M, tag: Tag, step: (M, nat))
    requires |s| > 0 && ReadTag(s) == Success(tag) && tag.number in schema.known
    requires schema.field(m, tag, s[tag.length..], at + tag.length) == Success(step) && tag.length + step.1 <= |s|
    ensures Decode(schema, s, at, m) == Decode(schema, s[tag.length + step.1..], at + tag.length + step.1, step.0)
  {
  }

  lemma ThreeParts(head: seq<byte>, body: seq<byte>, rest: seq<byte>)
    ensures (head + (body + rest))[|head|..] == body + rest && (head + (body + rest))[|head| + |body|..] == rest
    ensures head + body + rest == head + (body + rest) && |head + (body + rest)| == |head| + |body| + |rest|
  {
  }

  lemma DecodeKnownStep<M>(schema: Schema<M>, tag: Tag, head: seq<byte>, body: seq<byte>, rest: seq<byte>, at: nat,
      m: M, m': M)
    requires ReadTag(head + (body + rest)) == Success(tag) && tag.length == |head| > 0 && tag.number in schema.known
    requires schema.field(m, tag, body + rest, at + |head|) == Success((m', |body|))
    ensures Decode(schema, head + (body + rest), at, m) == Decode(schema, rest, at + |head| + |body|, m')
  {
    hide Decode, ReadTag;
    ThreeParts(head, body, rest);
    DecodeKnownAt(schema, head + (body + rest), at, m, tag, (m', |body|));
  }

  lemma HandlesAt<M(!new)>(schema: Schema<M>, apply: (M, Field) -> M, f: Field, m: M, rest: seq<byte>, at: nat)
    requires Handles(schema, apply, f) && at + |Body(f)| < TWO_63
    ensures f.number in schema.known && 0 < f.number < TWO_31
    ensures schema.field(m, Tag(f.number, WireTypeOf(f), |EncodeTag(f.number, WireTypeOf(f))|), Body(f) + rest, at)
         == Success((apply(m, f), |Body(f)|))
  {
  }

  lemma DecodeReadable<M>(schema: Schema<M>, number: nat, wireType: nat, body: seq<byte>, rest: seq<byte>, at: nat,
      m: M, m': M)
    requires 0 < number < TWO_31 && wireType < 8 && wireType != 4 && number in schema.known
    requires schema.field(m, Tag(number, wireType, |EncodeTag(number, wireType)|), body + rest,
                          at + |EncodeTag(number, wireType)|)
          == Success((m', |body|))
    ensures Decode(schema, EncodeTag(number, wireType) + (body + rest), at, m)
         == Decode(schema, rest, at + |EncodeTag(number, wireType)| + |body|, m')
  {
    hide *;
    TagRoundTrip(number, wireType, body + rest);
    DecodeKnownStep(schema, Tag(number, wireType, |EncodeTag(number, wireType)|), EncodeTag(number, wireType), body,
                    rest, at, m, m');
  }

  lemma DecodeOneField<M(!new)>(schema: Schema<M>, apply: (M, Field) -> M, f: Field, rest: seq<byte>, at: nat, m: M)
    requires Handles(schema, apply, f) && at + |EncodeField(f)| < TWO_63
    ensures Decode(schema, EncodeField(f) + rest, at, m) == Decode(schema, rest, at + |EncodeField(f)|, apply(m, f))
  {
    var number, wireType, body := f.number, WireTypeOf(f), Body(f);
    hide Decode, Handles, EncodeTag, Body;
    HandlesAt(schema, apply, f, m, rest, at + |EncodeTag(number, wireType)|);
    DecodeReadable(schema, number, wireType, body, rest, at, m, apply(m, f));
    ThreeParts(EncodeTag(number, wireType), body, rest);
  }

  // ---------- unknown fields ----------

  /** Any field of the wire format, groups included. */
  datatype Chunk =
    | VarintChunk(number: nat, value: nat)
    | Fixed64Chunk(number: nat, eight: seq<byte>)
    | BytesChunk(number: nat, payload: seq<byte>)
    | GroupChunk(number: nat, children: seq<Chunk>)
    | Fixed32Chunk(number: nat, four: seq<byte>)

  function EncodeChunk(c: Chunk): (r: seq<byte>)
    ensures |r| > 0
  {
    match c
    case VarintChunk(number, value) => EncodeTag(number, 0) + EncodeVarint(value)
    case Fixed64Chunk(number, eight) => EncodeTag(number, 1) + eight
    case BytesChunk(number, payload) => EncodeTag(number, 2) + EncodeBlob(payload)
    case GroupChunk(number, children) => EncodeTag(number, 3) + EncodeChunks(children) + EncodeTag(number, 4)
    case Fixed32Chunk(number, four) => EncodeTag(number, 5) + four
  }

  function EncodeChunks(cs: seq<Chunk>): seq<byte> {
    if |cs| == 0 then [] else EncodeChunk(cs[0]) + EncodeChunks(cs[1..])
  }

  predicate WellFormed(c: Chunk) {
    && c.number < TWO_31
    && match c
       case VarintChunk(_, value) => value < TWO_64
       case Fixed64Chunk(_, eight) => |eight| == 8
       case BytesChunk(_, payload) => true
       case GroupChunk(_, children) => AllWellFormed(children)
       case Fixed32Chunk(_, four) => |four| == 4
  }

  predicate AllWellFormed(cs: seq<Chunk>) {
    |cs| == 0 || (WellFormed(cs[0]) && AllWellFormed(cs[1..]))
  }

  function ChunkWireType(c: Chunk): nat {
    match c
    case VarintChunk(_, _) => 0
    case Fixed64Chunk(_, _) => 1
    case BytesChunk(_, _) => 2
    case GroupChunk(_, _) => 3
    case Fixed32Chunk(_, _) => 5
  }

  /** What skipping does behind an element that ends at n with the given depth. */
  function Resume(rest: seq<byte>, n: nat, depth: nat): Result<nat, WireError>
    requires n < TWO_63
  {
    if depth == 0 then Success(n) else SkipFrom(rest, n, depth)
  }

  lemma SkipTagged(number: nat, wireType: nat, body: seq<byte>, rest: seq<byte>, depth: nat)
    requires number < TWO_31 && wireType < 8
    ensures var s := EncodeTag(number, wireType) + body + rest;
            && ReadVarint(s, TWO_64) == Success(Varint(number * 8 + wireType, |EncodeTag(number, wireType)|))
            && s[|EncodeTag(number, wireType)|..] == body + rest
            && (number * 8 + wireType) % 8 == wireType
  {
    var tag := EncodeTag(number, wireType);
    assert tag + body + rest == tag + (body + rest);
    VarintRoundTrip(number * 8 + wireType, TWO_64, body + rest);
  }

  lemma SkipAfterElement(s: seq<byte>, n: nat, depth: nat, step: (nat, nat))
    requires |s| > 0 && SkipElement(s, depth) == Success(step) && step.0 <= |s| && n + step.0 < TWO_63
    ensures SkipFrom(s, n, depth) == Resume(s[step.0..], n + step.0, step.1)
  {
  }

  lemma FlatElement(c: Chunk, rest: seq<byte>, depth: nat)
    requires WellFormed(c) && !c.GroupChunk? && |EncodeChunk(c)| < TWO_63
    ensures SkipElement(EncodeChunk(c) + rest, depth) == Success((|EncodeChunk(c)|, depth))
  {
    var tag := EncodeTag(c.number, ChunkWireType(c));
    var body := EncodeChunk(c)[|tag|..];
    assert EncodeChunk(c) == tag + body;
    SkipTagged(c.number, ChunkWireType(c), body, rest, depth);
    match c {
      case VarintChunk(_, value) => VarintRoundTrip(value, TWO_64, rest);
      case BytesChunk(_, payload) =>
        assert body + rest == EncodeVarint(|payload|) + (payload + rest);
        VarintRoundTrip(|payload|, TWO_64, payload + rest);
      case _ =>
    }
  }

  /** An element without nesting is passed over in one round. */
  lemma SkipFlat(c: Chunk, rest: seq<byte>, n: nat, depth: nat)
    requires WellFormed(c) && !c.GroupChunk? && n + |EncodeChunk(c)| < TWO_63
    ensures SkipFrom(EncodeChunk(c) + rest, n, depth) == Resume(rest, n + |EncodeChunk(c)|, depth)
  {
    hide SkipElement, EncodeChunk;
    FlatElement(c, rest, depth);
    SkipAfterElement(EncodeChunk(c) + rest, n, depth, (|EncodeChunk(c)|, depth));
    assert (EncodeChunk(c) + rest)[|EncodeChunk(c)|..] == rest;
  }

  lemma GroupTagElement(number: nat, wireType: nat, rest: seq<byte>, depth: nat)
    requires number < TWO_31 && (wireType == 3 || (wireType == 4 && depth > 0))
    ensures SkipElement(EncodeTag(number, wireType) + rest, depth)
         == Success((|EncodeTag(number, wireType)|, if wireType == 3 then depth + 1 else depth - 1))
  {
    SkipTagged(number, wireType, [], rest, depth);
    assert EncodeTag(number, wireType) + [] + rest == EncodeTag(number, wireType) + rest;
  }

  /** A group tag changes the depth. */
  lemma EnterGroup(number: nat, rest: seq<byte>, n: nat, depth: nat)
    requires number < TWO_31 && n + |EncodeTag(number, 3)| < TWO_63
    ensures SkipFrom(EncodeTag(number, 3) + rest, n, depth) == SkipFrom(rest, n + |EncodeTag(number, 3)|, depth + 1)
  {
    hide SkipElement;
    var tag := EncodeTag(number, 3);
    GroupTagElement(number, 3, rest, depth);
    SkipAfterElement(tag + rest, n, depth, (|tag|, depth + 1));
    assert (tag + rest)[|tag|..] == rest;
  }

  lemma LeaveGroup(number: nat, rest: seq<byte>, n: nat, depth: nat)
    requires number < TWO_31 && n + |EncodeTag(number, 4)| < TWO_63
    ensures SkipFrom(EncodeTag(number, 4) + rest, n, depth + 1) == Resume(rest, n + |EncodeTag(number, 4)|, depth)
  {
    hide SkipElement;
    var tag := EncodeTag(number, 4);
    GroupTagElement(number, 4, rest, depth + 1);
    SkipAfterElement(tag + rest, n, depth + 1, (|tag|, depth));
    assert (tag + rest)[|tag|..] == rest;
  }

  /** Opening tag, contents, closing tag: each step is what the skipping loop does there. */
  lemma SkipGroup(number: nat, inner: seq<byte>, whole: seq<byte>, rest: seq<byte>, n: nat, depth: nat)
    requires number < TWO_31 && whole == EncodeTag(number, 3) + inner + EncodeTag(number, 4) && n + |whole| < TWO_63
    requires SkipFrom(inner + (EncodeTag(number, 4) + rest), n + |EncodeTag(number, 3)|, depth + 1)
          == SkipFrom(EncodeTag(number, 4) + rest, n + |EncodeTag(number, 3)| + |inner|, depth + 1)
    ensures SkipFrom(whole + rest, n, depth) == Resume(rest, n + |whole|, depth)
  {
    hide SkipFrom;
    var first, last := EncodeTag(number, 3), EncodeTag(number, 4);
    EnterGroup(number, inner + (last + rest), n, depth);
    LeaveGroup(number, rest, n + |first| + |inner|, depth);
    assert whole + rest == first + (inner + (last + rest));
  }

  lemma GroupSize(number: nat, children: seq<Chunk>)
    ensures EncodeChunk(GroupChunk(number, children))
         == EncodeTag(number, 3) + EncodeChunks(children) + EncodeTag(number, 4)
    ensures |EncodeChunk(GroupChunk(number, children))|
         == |EncodeTag(number, 3)| + |EncodeChunks(children)| + |EncodeTag(number, 4)|
  {
  }

  /** A well-formed field, with whatever is nested in it, is passed over exactly. */
  lemma {:induction false} SkipChunk(c: Chunk, rest: seq<byte>, n: nat, depth: nat)
    requires WellFormed(c) && n + |EncodeChunk(c)| < TWO_63
    ensures SkipFrom(EncodeChunk(c) + rest, n, depth) == Resume(rest, n + |EncodeChunk(c)|, depth)
    decreases c, 1
  {
    if c.GroupChunk? {
      SkipNested(c.number, c.children, rest, n, depth);
    } else {
      SkipFlat(c, rest, n, depth);
    }
  }

  lemma {:induction false} SkipNested(number: nat, children: seq<Chunk>, rest: seq<byte>, n: nat, depth: nat)
    requires number < TWO_31 && AllWellFormed(children) && n + |EncodeChunk(GroupChunk(number, children))| < TWO_63
    ensures SkipFrom(EncodeChunk(GroupChunk(number, children)) + rest, n, depth)
         == Resume(rest, n + |EncodeChunk(GroupChunk(number, children))|, depth)
    decreases children, 1
  {
    hide SkipFrom;
    GroupSize(number, children);
    var first, last := EncodeTag(number, 3), EncodeTag(number, 4);
    SkipChunks(children, last + rest, n + |first|, depth + 1);
    SkipGroup(number, EncodeChunks(children), EncodeChunk(GroupChunk(number, children)), rest, n, depth);
  }

  lemma {:induction false} SkipChunks(cs: seq<Chunk>, rest: seq<byte>, n: nat, depth: nat)
    requires AllWellFormed(cs) && n + |EncodeChunks(cs)| < TWO_63 && depth > 0
    ensures SkipFrom(EncodeChunks(cs) + rest, n, depth) == SkipFrom(rest, n + |EncodeChunks(cs)|, depth)
    decreases cs, 0
  {
    hide SkipFrom;
    if |cs| == 0 {
      assert EncodeChunks(cs) + rest == rest;
    } else {
      assert EncodeChunks(cs) + rest == EncodeChunk(cs[0]) + (EncodeChunks(cs[1..]) + rest);
      SkipChunk(cs[0], EncodeChunks(cs[1..]) + rest, n, depth);
      SkipChunks(cs[1..], rest, n + |EncodeChunk(cs[0])|, depth);
    }
  }

  /** A message's own fields with unknown ones anywhere in between. */
  datatype Item = Known(field: Field) | Unknown(chunk: Chunk)

  function EncodeItem(item: Item): seq<byte> {
    if item.Known? then EncodeField(item.field) else EncodeChunk(item.chunk)
  }

  function EncodeItems(items: seq<Item>): seq<byte> {
    if |items| == 0 then [] else EncodeItem(items[0]) + EncodeItems(items[1..])
  }

  function KnownFields(items: seq<Item>): seq<Field> {
    if |items| == 0 then []
    else (if items[0].Known? then [items[0].field] else []) + KnownFields(items[1..])
  }

  lemma {:induction false} KnownFieldsSize(items: seq<Item>)
    ensures |EncodeFields(KnownFields(items))| <= |EncodeItems(items)|
  {
    if |items| > 0 {
      KnownFieldsSize(items[1..]);
      hide EncodeField, EncodeChunk;
      if items[0].Known? {
        assert KnownFields(items)[1..] == KnownFields(items[1..]);
      } else {
        assert KnownFields(items) == KnownFields(items[1..]);
      }
    }
  }

  lemma {:induction false} KnownFieldsMembers(items: seq<Item>, i: nat)
    requires i < |items| && items[i].Known?
    ensures exists j :: 0 <= j < |KnownFields(items)| && KnownFields(items)[j] == items[i].field
  {
    if i == 0 {
      assert KnownFields(items)[0] == items[0].field;
    } else {
      KnownFieldsMembers(items[1..], i - 1);
      var j :| 0 <= j < |KnownFields(items[1..])| && KnownFields(items[1..])[j] == items[i].field;
      assert KnownFields(items)[j + if items[0].Known? then 1 else 0] == items[i].field;
    }
  }

  ghost predicate Acceptable<M(!new)>(schema: Schema<M>, apply: (M, Field) -> M, item: Item) {
    match item
    case Known(f) => Handles(schema, apply, f)
    case Unknown(c) => WellFormed(c) && 0 < c.number && c.number !in schema.known
  }

  lemma DecodeUnknownStep<M>(schema: Schema<M>, chunk: seq<byte>, rest: seq<byte>, at: nat, m: M)
    requires ReadTag(chunk + rest).Success? && ReadTag(chunk + rest).value.number !in schema.known
    requires Skip(chunk + rest) == Success(|chunk|) && |chunk| > 0 && at + |chunk| < TWO_63
    ensures Decode(schema, chunk + rest, at, m) == Decode(schema, rest, at + |chunk|, m)
  {
    hide ReadTag, Skip;
    assert (chunk + rest)[|chunk|..] == rest;
  }

  lemma ChunkTag(c: Chunk, rest: seq<byte>)
    requires WellFormed(c) && 0 < c.number
    ensures ReadTag(EncodeChunk(c) + rest).Success? && ReadTag(EncodeChunk(c) + rest).value.number == c.number
  {
    var head := EncodeTag(c.number, ChunkWireType(c));
    var body := EncodeChunk(c)[|head|..];
    assert EncodeChunk(c) == head + body;
    assert head + body + rest == head + (body + rest);
    TagRoundTrip(c.number, ChunkWireType(c), body + rest);
  }

  lemma DecodeUnknown<M>(schema: Schema<M>, c: Chunk, rest: seq<byte>, at: nat, m: M)
    requires WellFormed(c) && 0 < c.number && c.number !in schema.known && at + |EncodeChunk(c)| < TWO_63
    ensures Decode(schema, EncodeChunk(c) + rest, at, m) == Decode(schema, rest, at + |EncodeChunk(c)|, m)
  {
    hide Decode, ReadTag, WellFormed, EncodeChunk, SkipFrom;
    ChunkTag(c, rest);
    SkipChunk(c, rest, 0, 0);
    DecodeUnknownStep(schema, EncodeChunk(c), rest, at, m);
  }

  lemma DecodeItem<M(!new)>(schema: Schema<M>, apply: (M, Field) -> M, item: Item, rest: seq<byte>, at: nat, m: M)
    requires Acceptable(schema, apply, item) && at + |EncodeItem(item)| < TWO_63
    ensures Decode(schema, EncodeItem(item) + rest, at, m)
         == Decode(schema, rest, at + |EncodeItem(item)|, if item.Known? then apply(m, item.field) else m)
  {
    hide Decode, Handles, WellFormed;
    match item {
      case Known(f) => DecodeOneField(schema, apply, f, rest, at, m);
      case Unknown(c) => DecodeUnknown(schema, c, rest, at, m);
    }
  }

  lemma FoldItem<M>(apply: (M, Field) -> M, items: seq<Item>, m: M)
    requires |items| > 0
    ensures Fold(apply, KnownFields(items), m)
         == Fold(apply, KnownFields(items[1..]), if items[0].Known? then apply(m, items[0].field) else m)
  {
    if items[0].Known? {
      assert KnownFields(items)[1..] == KnownFields(items[1..]);
    } else {
      assert KnownFields(items) == KnownFields(items[1..]);
    }
  }

  ghost predicate AllAcceptable<M(!new)>(schema: Schema<M>, apply: (M, Field) -> M, items: seq<Item>) {
    forall i :: 0 <= i < |items| ==> Acceptable(schema, apply, items[i])
  }

  lemma DecodeFirstItem<M(!new)>(schema: Schema<M>, apply: (M, Field) -> M, items: seq<Item>, at: nat, m: M)
    requires |items| > 0 && AllAcceptable(schema, apply, items) && at + |EncodeItems(items)| < TWO_63
    ensures AllAcceptable(schema, apply, items[1..])
    ensures |EncodeItems(items)| == |EncodeItem(items[0])| + |EncodeItems(items[1..])|
    ensures Decode(schema, EncodeItems(items), at, m)
         == Decode(schema, EncodeItems(items[1..]), at + |EncodeItem(items[0])|,
                   if items[0].Known? then apply(m, items[0].field) else m)
  {
    hide Decode;
    assert Acceptable(schema, apply, items[0]);
    DecodeItem(schema, apply, items[0], EncodeItems(items[1..]), at, m);
  }

  lemma DecodeNoItems<M>(schema: Schema<M>, apply: (M, Field) -> M, items: seq<Item>, at: nat, m: M)
    requires |items| == 0
    ensures Decode(schema, EncodeItems(items), at, m) == Success(Fold(apply, KnownFields(items), m))
  {
  }

  /** Unknown fields anywhere in a message do not change what is decoded. */
  lemma {:induction false} DecodeItems<M(!new)>(schema: Schema<M>, apply: (M, Field) -> M, items: seq<Item>, at: nat,
      m: M)
    requires AllAcceptable(schema, apply, items)
    requires at + |EncodeItems(items)| < TWO_63
    ensures Decode(schema, EncodeItems(items), at, m) == Success(Fold(apply, KnownFields(items), m))
    decreases |items|
  {
    hide Decode, Fold, KnownFields, EncodeItems, EncodeItem, AllAcceptable, ReadTag, SkipInside;
    if |items| == 0 {
      DecodeNoItems(schema, apply, items, at, m);
    } else {
      var m' := if items[0].Known? then apply(m, items[0].field) else m;
      DecodeFirstItem(schema, apply, items, at, m);
      FoldItem(apply, items, m);
      DecodeItems(schema, apply, items[1..], at + |EncodeItem(items[0])|, m');
    }
  }

  /** Known fields with well-formed unknown ones anywhere in between decode as the known fields alone. */
  lemma DecodeWithUnknown<M(!new)>(schema: Schema<M>, apply: (M, Field) -> M, items: seq<Item>, m: M)
    requires forall i :: 0 <= i < |KnownFields(items)| ==> Handles(schema, apply, KnownFields(items)[i])
    requires forall i :: 0 <= i < |items| && items[i].Unknown? ==>
               WellFormed(items[i].chunk) && items[i].chunk.number > 0 && items[i].chunk.number !in schema.known
    requires |EncodeItems(items)| < TWO_63
    ensures Decode(schema, EncodeItems(items), 0, m) == Success(Fold(apply, KnownFields(items), m))
  {
    hide Handles, Fold, Decode, WellFormed, EncodeItems;
    forall i | 0 <= i < |items| ensures Acceptable(schema, apply, items[i]) {
      if items[i].Known? {
        KnownFieldsMembers(items, i);
      }
    }
    DecodeItems(schema, apply, items, 0, m);
  }

  function AsItems(fs: seq<Field>): seq<Item> {
    if |fs| == 0 then [] else [Known(fs[0])] + AsItems(fs[1..])
  }

  lemma {:induction false} AsItemsEncode(fs: seq<Field>)
    ensures EncodeItems(AsItems(fs)) == EncodeFields(fs) && KnownFields(AsItems(fs)) == fs && |AsItems(fs)| == |fs|
    ensures forall i :: 0 <= i < |fs| ==> AsItems(fs)[i] == Known(fs[i])
  {
    if |fs| > 0 {
      AsItemsEncode(fs[1..]);
      assert AsItems(fs)[1..] == AsItems(fs[1..]);
    }
  }

  /** Decoding the encoded fields applies them in order. */
  lemma DecodeFields<M(!new)>(schema: Schema<M>, apply: (M, Field) -> M, fs: seq<Field>, m: M)
    requires forall i :: 0 <= i < |fs| ==> Handles(schema, apply, fs[i])
    requires |EncodeFields(fs)| < TWO_63
    ensures Decode(schema, EncodeFields(fs), 0, m) == Success(Fold(apply, fs, m))
  {
    AsItemsEncode(fs);
    forall i | 0 <= i < |fs| ensures Acceptable(schema, apply, AsItems(fs)[i]) {
      assert Handles(schema, apply, fs[i]);
    }
    DecodeItems(schema, apply, AsItems(fs), 0, m);
  }
}
