/**
 The protobuf wire format as the generated code reads and writes it: varints, tags,
 length-delimited records and the skipping of unknown fields.

 Decoders are specified on the bytes that remain; `at` is the absolute index of the first of
 them, which only matters for the 63-bit overflow checks on indices.
 */
module Wire {
  import opened Wrappers
  import opened Bytes

  datatype WireError =
    | IntOverflow | UnexpectedEof | InvalidLength | EndGroupForNonGroup | IllegalTag | WrongWireType
    | UnexpectedEndOfGroup | IllegalWireType

  // ---------- varints ----------

  function Pow2(n: nat): (p: nat)
    ensures p > 0
  {
    if n == 0 then 1 else 2 * Pow2(n - 1)
  }

  /** Base 128, least significant group first, continuation bit on all groups but the last. */
  function EncodeVarint(v: nat): (r: seq<byte>)
    ensures |r| > 0
  {
    if v < TWO_7 then [v] else [v % TWO_7 + TWO_7] + EncodeVarint(v / TWO_7)
  }

  lemma VarintGroups(v: nat)
    ensures EncodeVarint(v) == if v < TWO_7 then [v] else [v % TWO_7 + TWO_7] + EncodeVarint(v / TWO_7)
  {
  }

  function BitLength(n: nat): nat {
    if n == 0 then 0 else 1 + BitLength(n / 2)
  }

  /** The generated code's size computation. */
  function Sov(x: nat): nat {
    (BitLength(x + 1 - x % 2) + 6) / 7
  }

  lemma {:induction false} BitLengthBounds(n: nat)
    requires n > 0
    ensures BitLength(n) > 0 && Pow2(BitLength(n) - 1) <= n < Pow2(BitLength(n))
  {
    if n > 1 {
      BitLengthBounds(n / 2);
    }
  }

  lemma BitLengthShift(n: nat)
    requires n >= TWO_7
    ensures BitLength(n) == 7 + BitLength(n / TWO_7)
  {
    assert n / 2 / 2 == n / 4 && n / 4 / 2 == n / 8 && n / 8 / 2 == n / 16 && n / 16 / 2 == n / 32
        && n / 32 / 2 == n / 64 && n / 64 / 2 == n / 128;
    assert BitLength(n) == 1 + BitLength(n / 2);
    assert BitLength(n / 2) == 1 + BitLength(n / 4);
    assert BitLength(n / 4) == 1 + BitLength(n / 8);
    assert BitLength(n / 8) == 1 + BitLength(n / 16);
    assert BitLength(n / 16) == 1 + BitLength(n / 32);
    assert BitLength(n / 32) == 1 + BitLength(n / 64);
    assert BitLength(n / 64) == 1 + BitLength(n / 128);
  }

  lemma SmallBitLength(n: nat)
    requires 0 < n < TWO_7
    ensures 1 <= BitLength(n) <= 7
  {
    BitLengthBounds(n);
    Pow2Values();
    if BitLength(n) > 7 {
      Pow2Mono(7, BitLength(n) - 1);
    }
  }

  lemma {:induction false} Pow2Add(a: nat, b: nat)
    ensures Pow2(a + b) == Pow2(a) * Pow2(b)
  {
    if b > 0 {
      Pow2Add(a, b - 1);
      assert Pow2(a) * (2 * Pow2(b - 1)) == 2 * (Pow2(a) * Pow2(b - 1));
    }
  }

  lemma Pow2Values()
    ensures Pow2(7) == TWO_7
    ensures Pow2(64) == TWO_64
  {
    assert Pow2(4) == 16;
    assert Pow2(7) == TWO_7;
    Pow2Add(4, 4);
    Pow2Add(8, 8);
    Pow2Add(16, 16);
    Pow2Add(32, 32);
  }

  lemma {:induction false} Pow2Mono(a: nat, b: nat)
    requires a <= b
    ensures Pow2(a) <= Pow2(b)
  {
    if a < b {
      Pow2Mono(a, b - 1);
    }
  }

  lemma SovStep(x: nat)
    requires x >= TWO_7
    ensures Sov(x) == 1 + Sov(x / TWO_7)
  {
    var odd := x + 1 - x % 2;
    BitLengthShift(odd);
    assert odd / TWO_7 == x / TWO_7;
    SameBitLength(x / TWO_7);
  }

  /** The size computed from the bit length is the number of bytes written. */
  lemma {:induction false} SovIsLength(x: nat)
    ensures Sov(x) == |EncodeVarint(x)|
  {
    if x < TWO_7 {
      SmallBitLength(x + 1 - x % 2);
    } else {
      SovIsLength(x / TWO_7);
      SovStep(x);
    }
  }

  lemma {:induction false} SameBitLength(n: nat)
    requires n > 0
    ensures BitLength(n + 1 - n % 2) == BitLength(n)
  {
    if n > 1 {
      assert (n + 1 - n % 2) / 2 == n / 2;
    }
  }

  datatype Varint = Varint(value: nat, length: nat)

  /** The shift loop; the accumulator keeps the low bits that its type can hold. */
  function VarintFrom(s: seq<byte>, shift: nat, acc: nat, modulus: nat): (r: Result<Varint, WireError>)
    requires modulus > 0
    ensures r.Success? ==> 0 < r.value.length <= |s|
    ensures r.Success? ==> r.value.value < modulus
    decreases |s|
  {
    if shift >= 64 then Failure(IntOverflow)
    else if |s| == 0 then Failure(UnexpectedEof)
    else
      var acc' := (acc + s[0] % TWO_7 * Pow2(shift)) % modulus;
      if s[0] < TWO_7 then Success(Varint(acc', 1))
      else
        var rest :- VarintFrom(s[1..], shift + 7, acc', modulus);
        Success(Varint(rest.value, rest.length + 1))
  }

  /** A varint ends at its first byte without a continuation bit. */
  lemma {:induction false} VarintEnds(s: seq<byte>, shift: nat, acc: nat, modulus: nat)
    requires modulus > 0 && VarintFrom(s, shift, acc, modulus).Success?
    ensures var length := VarintFrom(s, shift, acc, modulus).value.length;
            s[length - 1] < TWO_7 && forall i :: 0 <= i < length - 1 ==> s[i] >= TWO_7
    decreases |s|
  {
    if s[0] >= TWO_7 {
      VarintEnds(s[1..], shift + 7, (acc + s[0] % TWO_7 * Pow2(shift)) % modulus, modulus);
      forall i | 0 < i <= VarintFrom(s, shift, acc, modulus).value.length - 1 ensures s[i] == s[1..][i - 1] {
      }
    }
  }

  function ReadVarint(s: seq<byte>, modulus: nat): (r: Result<Varint, WireError>)
    requires modulus > 0
    ensures r.Success? ==> 0 < r.value.length <= |s|
    ensures r.Success? ==> r.value.value < modulus
  {
    VarintFrom(s, 0, 0, modulus)
  }

  lemma SplitGroup(v: nat, weight: nat)
    ensures v % TWO_7 * weight + v / TWO_7 * (TWO_7 * weight) == v * weight
  {
    assert v == v % TWO_7 + TWO_7 * (v / TWO_7);
    assert v * weight == v % TWO_7 * weight + TWO_7 * (v / TWO_7) * weight;
    assert TWO_7 * (v / TWO_7) * weight == v / TWO_7 * (TWO_7 * weight);
  }

  lemma ShiftFits(v: nat, shift: nat, acc: nat)
    requires v > 0 && acc + v * Pow2(shift) < TWO_64
    ensures shift < 64
  {
    assert v * Pow2(shift) >= Pow2(shift);
    if shift >= 64 {
      Pow2Mono(64, shift);
      Pow2Values();
    }
  }

  lemma ModSmall(x: nat, m: nat)
    requires x < m
    ensures x % m == x
  {
  }

  lemma LastGroup(b: byte, tail: seq<byte>, shift: nat, acc: nat, modulus: nat)
    requires shift < 64 && b < TWO_7 && acc + b * Pow2(shift) < modulus
    ensures VarintFrom([b] + tail, shift, acc, modulus) == Success(Varint(acc + b * Pow2(shift), 1))
  {
    assert ([b] + tail)[0] == b && b % TWO_7 == b;
    ModSmall(acc + b * Pow2(shift), modulus);
  }

  lemma ContinuedGroup(low: nat, tail: seq<byte>, shift: nat, acc: nat, modulus: nat)
    requires shift < 64 && low < TWO_7 && acc + low * Pow2(shift) < modulus
    requires VarintFrom(tail, shift + 7, acc + low * Pow2(shift), modulus).Success?
    ensures var rest := VarintFrom(tail, shift + 7, acc + low * Pow2(shift), modulus).value;
            VarintFrom([low + TWO_7] + tail, shift, acc, modulus) == Success(Varint(rest.value, rest.length + 1))
  {
    var s: seq<byte> := [low + TWO_7] + tail;
    assert s[0] == low + TWO_7 && s[0] % TWO_7 == low && s[1..] == tail;
    ModSmall(acc + low * Pow2(shift), modulus);
  }

  lemma {:induction false} VarintFromEncoded(v: nat, shift: nat, acc: nat, modulus: nat, rest: seq<byte>)
    requires 0 < modulus <= TWO_64 && acc + v * Pow2(shift) < modulus && (shift == 0 || v > 0)
    ensures VarintFrom(EncodeVarint(v) + rest, shift, acc, modulus)
         == Success(Varint(acc + v * Pow2(shift), |EncodeVarint(v)|))
  {
    if v > 0 { ShiftFits(v, shift, acc); }
    if v < TWO_7 {
      LastGroup(v, rest, shift, acc, modulus);
    } else {
      var low, high := v % TWO_7, v / TWO_7;
      GroupStep(v, shift);
      assert EncodeVarint(v) + rest == [low + TWO_7] + (EncodeVarint(high) + rest);
      VarintFromEncoded(high, shift + 7, acc + low * Pow2(shift), modulus, rest);
      ContinuedGroup(low, EncodeVarint(high) + rest, shift, acc, modulus);
    }
  }

  lemma GroupStep(v: nat, shift: nat)
    ensures v % TWO_7 * Pow2(shift) + v / TWO_7 * Pow2(shift + 7) == v * Pow2(shift)
    ensures v % TWO_7 * Pow2(shift) >= 0 && v / TWO_7 * Pow2(shift + 7) >= 0
  {
    Pow2Add(shift, 7);
    Pow2Values();
    SplitGroup(v, Pow2(shift));
  }

  /** Reading back a written varint, whatever follows it. */
  lemma VarintRoundTrip(v: nat, modulus: nat, rest: seq<byte>)
    requires v < modulus <= TWO_64
    ensures ReadVarint(EncodeVarint(v) + rest, modulus) == Success(Varint(v, |EncodeVarint(v)|))
  {
    assert Pow2(0) == 1;
    VarintFromEncoded(v, 0, 0, modulus, rest);
  }

  // ---------- tags and records ----------

  function Int32(x: nat): int {
    var low := x % TWO_32;
    if low >= TWO_31 then low - TWO_32 else low
  }

  datatype Tag = Tag(number: int, wireType: nat, length: nat)

  function ReadTag(s: seq<byte>): (r: Result<Tag, WireError>)
    ensures r.Success? ==> 0 < r.value.length <= |s|
  {
    var wire :- ReadVarint(s, TWO_64);
    if wire.value % 8 == 4 then Failure(EndGroupForNonGroup)
    else if Int32(wire.value / 8) <= 0 then Failure(IllegalTag)
    else Success(Tag(Int32(wire.value / 8), wire.value % 8, wire.length))
  }

  datatype Blob = Blob(payload: seq<byte>, length: nat)

  /** A length-delimited payload; the length is a signed 64-bit number. */
  function ReadBlob(s: seq<byte>, at: nat): (r: Result<Blob, WireError>)
    ensures r.Success? ==> 0 < r.value.length <= |s|
  {
    var n :- ReadVarint(s, TWO_64);
    if n.value >= TWO_63 || at + n.length + n.value >= TWO_63 then Failure(InvalidLength)
    else if n.length + n.value > |s| then Failure(UnexpectedEof)
    else Success(Blob(s[n.length..n.length + n.value], n.length + n.value))
  }

  function EncodeBlob(payload: seq<byte>): (r: seq<byte>)
    ensures |r| > 0
  {
    EncodeVarint(|payload|) + payload
  }

  lemma BlobRoundTrip(payload: seq<byte>, rest: seq<byte>, at: nat)
    requires at + |EncodeBlob(payload)| < TWO_63
    ensures ReadBlob(EncodeBlob(payload) + rest, at) == Success(Blob(payload, |EncodeBlob(payload)|))
  {
    var n := EncodeVarint(|payload|);
    assert EncodeBlob(payload) + rest == n + (payload + rest);
    VarintRoundTrip(|payload|, TWO_64, payload + rest);
    assert (n + (payload + rest))[|n|..|n| + |payload|] == payload;
  }

  // ---------- skipping ----------

  /** How many bytes one element takes, and the group depth after it. */
  function SkipElement(s: seq<byte>, depth: nat): (r: Result<(nat, nat), WireError>)
    ensures r.Success? ==> r.value.0 > 0
  {
    var wire :- ReadVarint(s, TWO_64);
    var rest := s[wire.length..];
    match wire.value % 8
    case 0 =>
      var v :- ReadVarint(rest, TWO_64);
      Success((wire.length + v.length, depth))
    case 1 => Success((wire.length + 8, depth))
    case 2 =>
      var n :- ReadVarint(rest, TWO_64);
      if n.value >= TWO_63 then Failure(InvalidLength) else Success((wire.length + n.length + n.value, depth))
    case 3 => Success((wire.length, depth + 1))
    case 4 => if depth == 0 then Failure(UnexpectedEndOfGroup) else Success((wire.length, depth - 1))
    case 5 => Success((wire.length + 4, depth))
    case _ => Failure(IllegalWireType)
  }

  /** The number of bytes up to the end of one field, nested groups included; n are already behind. */
  function SkipFrom(s: seq<byte>, n: nat, depth: nat): (r: Result<nat, WireError>)
    ensures r.Success? ==> n < r.value < TWO_63
    decreases |s|
  {
    if |s| == 0 then Failure(UnexpectedEof)
    else
      var step :- SkipElement(s, depth);
      if n + step.0 >= TWO_63 then Failure(InvalidLength)
      else if step.1 == 0 then Success(n + step.0)
      else if step.0 > |s| then Failure(UnexpectedEof)
      else SkipFrom(s[step.0..], n + step.0, step.1)
  }

  function Skip(s: seq<byte>): (r: Result<nat, WireError>)
    ensures r.Success? ==> 0 < r.value < TWO_63
  {
    SkipFrom(s, 0, 0)
  }

  /** What a decoder skips over: the field must also lie inside the buffer. */
  function SkipInside(s: seq<byte>, at: nat): (r: Result<nat, WireError>)
    ensures r.Success? ==> 0 < r.value <= |s|
  {
    var n :- Skip(s);
    if at + n >= TWO_63 then Failure(InvalidLength)
    else if n > |s| then Failure(UnexpectedEof)
    else Success(n)
  }

  // ---------- the loops ----------

  method DecodeVarint(data: seq<byte>, start: nat, modulus: nat) returns (r: Result<Varint, WireError>)
    requires start <= |data| && modulus > 0
    ensures r == ReadVarint(data[start..], modulus)
  {
    var index: nat, shift: nat, value: nat := start, 0, 0;
    while true
      invariant start <= index <= |data|
      invariant var rest := VarintFrom(data[index..], shift, value, modulus);
                ReadVarint(data[start..], modulus)
                == if rest.Success? then Success(Varint(rest.value.value, rest.value.length + (index - start)))
                   else rest
      decreases |data| - index
    {
      if shift >= 64 {
        return Failure(IntOverflow);
      }
      if index >= |data| {
        return Failure(UnexpectedEof);
      }
      var b := data[index];
      assert data[index..][1..] == data[index + 1..];
      index := index + 1;
      value := (value + b % TWO_7 * Pow2(shift)) % modulus;
      if b < TWO_7 {
        return Success(Varint(value, index - start));
      }
      shift := shift + 7;
    }
  }

  /** One round of the skipping loop: the index behind the element, and the new depth. */
  method SkipOne(data: seq<byte>, index: nat, depth: nat) returns (r: Result<(nat, nat), WireError>)
    requires index < |data|
    ensures r == if SkipElement(data[index..], depth).Success?
                 then Success((index + SkipElement(data[index..], depth).value.0,
                               SkipElement(data[index..], depth).value.1))
                 else SkipElement(data[index..], depth)
  {
    var wire :- DecodeVarint(data, index, TWO_64);
    var next := index + wire.length;
    assert data[index..][wire.length..] == data[next..];
    match wire.value % 8 {
      case 0 =>
        var v :- DecodeVarint(data, next, TWO_64);
        return Success((next + v.length, depth));
      case 1 =>
        return Success((next + 8, depth));
      case 2 =>
        var n :- DecodeVarint(data, next, TWO_64);
        if n.value >= TWO_63 {
          return Failure(InvalidLength);
        }
        return Success((next + n.length + n.value, depth));
      case 3 =>
        return Success((next, depth + 1));
      case 4 =>
        if depth == 0 {
          return Failure(UnexpectedEndOfGroup);
        }
        return Success((next, depth - 1));
      case 5 =>
        return Success((next + 4, depth));
      case _ =>
        return Failure(IllegalWireType);
    }
  }

  /** skipOcr and skipGenesis. */
  method SkipField(data: seq<byte>) returns (r: Result<nat, WireError>)
    ensures r == Skip(data)
  {
    var index: nat, depth: nat := 0, 0;
    while index < |data|
      invariant index <= |data|
      invariant Skip(data) == SkipFrom(data[index..], index, depth)
      decreases |data| - index
    {
      var step :- SkipOne(data, index, depth);
      var next := step.0;
      if next >= TWO_63 {
        return Failure(InvalidLength);
      }
      depth := step.1;
      if depth == 0 {
        return Success(next);
      }
      if next > |data| {
        return Failure(UnexpectedEof);
      }
      assert data[index..][next - index..] == data[next..];
      index := next;
    }
    return Failure(UnexpectedEof);
  }
}
