/**
 What all generated messages share: fields left out when they are zero or empty, repeated
 fields, their sizes, and putting them in front of what is already in the buffer.
 */
module Messages {
  import opened Wrappers
  import opened Bytes
  import opened Wire
  import opened Records

  function OptNum(number: nat, value: nat): seq<Field> {
    if value == 0 then [] else [Num(number, value)]
  }

  function OptBin(number: nat, payload: seq<byte>): seq<Field> {
    if |payload| == 0 then [] else [Bin(number, payload)]
  }

  /** A repeated field: one record for each element, empty elements included. */
  function Each(number: nat, payloads: seq<seq<byte>>): (fs: seq<Field>)
    ensures |fs| == |payloads|
    ensures forall i :: 0 <= i < |fs| ==> fs[i] == Bin(number, payloads[i])
  {
    seq(|payloads|, i requires 0 <= i < |payloads| => Bin(number, payloads[i]))
  }

  // ---------- sizes ----------

  lemma EncodeOne(f: Field)
    ensures EncodeFields([f]) == EncodeField(f)
  {
    assert [f][1..] == [];
    assert EncodeFields([f]) == EncodeField(f) + EncodeFields([]);
  }

  lemma OptNumSize(number: nat, value: nat)
    requires 0 < number < 16
    ensures |EncodeFields(OptNum(number, value))| == if value == 0 then 0 else 1 + Sov(value)
  {
    if value > 0 {
      EncodeOne(Num(number, value));
      OneByteTag(number, 0);
      SovIsLength(value);
    }
  }

  lemma OptBinSize(number: nat, payload: seq<byte>)
    requires 0 < number < 16
    ensures |EncodeFields(OptBin(number, payload))| == if |payload| == 0 then 0 else 1 + |payload| + Sov(|payload|)
  {
    if |payload| > 0 {
      EncodeOne(Bin(number, payload));
      HeaderAndPayload(number, payload);
      SovIsLength(|payload|);
    }
  }

  lemma EachSplit(number: nat, payloads: seq<seq<byte>>, k: nat)
    requires k < |payloads|
    ensures EncodeFields(Each(number, payloads[k..]))
         == EncodeField(Bin(number, payloads[k])) + EncodeFields(Each(number, payloads[k + 1..]))
  {
    var fs := Each(number, payloads[k..]);
    assert fs[1..] == Each(number, payloads[k + 1..]);
    assert fs[0] == Bin(number, payloads[k]);
  }

  lemma EachAppend(number: nat, payloads: seq<seq<byte>>, k: nat)
    requires k < |payloads|
    ensures EncodeFields(Each(number, payloads[..k + 1]))
         == EncodeFields(Each(number, payloads[..k])) + EncodeField(Bin(number, payloads[k]))
  {
    EncodeOne(Bin(number, payloads[k]));
    EncodeFieldsAppend(Each(number, payloads[..k]), [Bin(number, payloads[k])]);
    assert Each(number, payloads[..k + 1]) == Each(number, payloads[..k]) + [Bin(number, payloads[k])];
  }

  /** The part of a size computation that runs over a repeated field. */
  method SizeOfEach(number: nat, payloads: seq<seq<byte>>) returns (n: nat)
    requires 0 < number < 16
    ensures n == |EncodeFields(Each(number, payloads))|
  {
    n := 0;
    for k := 0 to |payloads|
      invariant n == |EncodeFields(Each(number, payloads[..k]))|
    {
      var l: nat := |payloads[k]|;
      n := n + 1 + l + Sov(l);
      EachAppend(number, payloads, k);
      HeaderAndPayload(number, payloads[k]);
      SovIsLength(l);
    }
    assert payloads[..|payloads|] == payloads;
  }

  lemma WroteNothing(s: seq<byte>, end: nat)
    requires end <= |s|
    ensures Wrote(s, s, end, [])
  {
  }

  lemma WroteEverything(before: seq<byte>, after: seq<byte>, bytes: seq<byte>)
    requires Wrote(before, after, 0, bytes) && |before| == |bytes|
    ensures after == bytes
  {
  }

  // ---------- writing in front of what is there ----------

  method PutOptNum(a: array<byte>, end: nat, number: nat, value: nat, ghost before: seq<byte>, ghost behind: seq<byte>)
    returns (i: nat)
    requires 0 < number < 16 && value < TWO_64
    requires |EncodeFields(OptNum(number, value))| <= end <= a.Length && Wrote(before, a[..], end, behind)
    modifies a
    ensures i == end - |EncodeFields(OptNum(number, value))|
    ensures Wrote(before, a[..], i, EncodeFields(OptNum(number, value)) + behind)
  {
    i := end;
    if value != 0 {
      EncodeOne(Num(number, value));
      i := PutNum(a, end, number, value);
      hide Wrote, EncodeField;
      WroteInFront(before, old(a[..]), a[..], end, behind, EncodeField(Num(number, value)));
    } else {
      assert EncodeFields(OptNum(number, value)) + behind == behind;
    }
  }

  method PutOptBin(a: array<byte>, end: nat, number: nat, payload: seq<byte>, ghost before: seq<byte>,
      ghost behind: seq<byte>)
    returns (i: nat)
    requires 0 < number < 16
    requires |EncodeFields(OptBin(number, payload))| <= end <= a.Length && Wrote(before, a[..], end, behind)
    modifies a
    ensures i == end - |EncodeFields(OptBin(number, payload))|
    ensures Wrote(before, a[..], i, EncodeFields(OptBin(number, payload)) + behind)
  {
    i := end;
    if |payload| > 0 {
      EncodeOne(Bin(number, payload));
      i := PutBin(a, end, number, payload);
      hide Wrote, EncodeField;
      WroteInFront(before, old(a[..]), a[..], end, behind, EncodeField(Bin(number, payload)));
    } else {
      assert EncodeFields(OptBin(number, payload)) + behind == behind;
    }
  }

  method PutEach(a: array<byte>, end: nat, number: nat, payloads: seq<seq<byte>>, ghost before: seq<byte>,
      ghost behind: seq<byte>)
    returns (i: nat)
    requires 0 < number < 16
    requires |EncodeFields(Each(number, payloads))| <= end <= a.Length && Wrote(before, a[..], end, behind)
    modifies a
    ensures i == end - |EncodeFields(Each(number, payloads))|
    ensures Wrote(before, a[..], i, EncodeFields(Each(number, payloads)) + behind)
  {
    i := end;
    hide Wrote, EncodeField;
    ghost var rest := behind;
    assert Each(number, payloads[|payloads|..]) == [] && payloads[0..] == payloads;
    assert EncodeFields([]) + behind == behind;
    for k := |payloads| downto 0
      invariant rest == EncodeFields(Each(number, payloads[k..])) + behind
      invariant i == end - |EncodeFields(Each(number, payloads[k..]))|
      invariant |EncodeFields(Each(number, payloads[k..]))| <= |EncodeFields(Each(number, payloads))|
      invariant Wrote(before, a[..], i, rest)
    {
      EachSplit(number, payloads, k);
      EachTail(number, payloads, k);
      ghost var middle, was := a[..], i;
      i := PutBin(a, i, number, payloads[k]);
      WroteInFront(before, middle, a[..], was, rest, EncodeField(Bin(number, payloads[k])));
      rest := EncodeField(Bin(number, payloads[k])) + rest;
      assert rest == EncodeFields(Each(number, payloads[k..])) + behind;
    }
  }

  lemma EachTail(number: nat, payloads: seq<seq<byte>>, k: nat)
    requires k <= |payloads|
    ensures |EncodeFields(Each(number, payloads[k..]))| <= |EncodeFields(Each(number, payloads))|
  {
    hide EncodeFields;
    EncodeFieldsAppend(Each(number, payloads[..k]), Each(number, payloads[k..]));
    assert Each(number, payloads) == Each(number, payloads[..k]) + Each(number, payloads[k..]);
  }

  lemma EachCovers(number: nat, payloads: seq<seq<byte>>, k: nat)
    requires k < |payloads|
    ensures |payloads[k]| <= |EncodeFields(Each(number, payloads))|
  {
    EachSplit(number, payloads, k);
    EachTail(number, payloads, k);
    assert |EncodeField(Bin(number, payloads[k]))| >= |payloads[k]|;
  }

  // ---------- the effect of fields that may be left out ----------

  lemma FoldOne<M>(apply: (M, Field) -> M, f: Field, m: M)
    ensures Fold(apply, [f], m) == apply(m, f)
  {
    assert [f][1..] == [];
    assert Fold(apply, [], apply(m, f)) == apply(m, f);
  }

  lemma FoldOptNum<M>(apply: (M, Field) -> M, number: nat, value: nat, m: M)
    ensures Fold(apply, OptNum(number, value), m) == if value == 0 then m else apply(m, Num(number, value))
  {
    FoldOne(apply, Num(number, value), m);
  }

  lemma FoldOptBin<M>(apply: (M, Field) -> M, number: nat, payload: seq<byte>, m: M)
    ensures Fold(apply, OptBin(number, payload), m) == if |payload| == 0 then m else apply(m, Bin(number, payload))
  {
    FoldOne(apply, Bin(number, payload), m);
  }

  // ---------- the decoding loop ----------

  lemma DecodeEnd<M>(schema: Schema<M>, data: seq<byte>, m: M)
    ensures Decode(schema, data[|data|..], |data|, m) == Success(m)
    ensures data[0..] == data
  {
  }

  /** One round of a decoding loop. */
  lemma DecodeRound<M>(schema: Schema<M>, data: seq<byte>, index: nat, m: M)
    requires index < |data|
    ensures var s := data[index..];
            ReadTag(s).Failure? ==> Decode(schema, s, index, m) == Failure(ReadTag(s).error)
    ensures var s := data[index..];
            ReadTag(s).Success? && ReadTag(s).value.number in schema.known ==>
              var at := index + ReadTag(s).value.length;
              var step := schema.field(m, ReadTag(s).value, data[at..], at);
              && (step.Failure? ==> Decode(schema, s, index, m) == Failure(step.error))
              && (step.Success? && at + step.value.1 <= |data| ==>
                    Decode(schema, s, index, m)
                      == Decode(schema, data[at + step.value.1..], at + step.value.1, step.value.0))
    ensures var s := data[index..];
            ReadTag(s).Success? && ReadTag(s).value.number !in schema.known ==>
              var n := SkipInside(s, index);
              && (n.Failure? ==> Decode(schema, s, index, m) == Failure(n.error))
              && (n.Success? ==>
                    Decode(schema, s, index, m) == Decode(schema, data[index + n.value..], index + n.value, m))
  {
    hide ReadTag, SkipInside;
    var s := data[index..];
    if ReadTag(s).Success? {
      var at := index + ReadTag(s).value.length;
      assert s[ReadTag(s).value.length..] == data[at..];
      if ReadTag(s).value.number in schema.known {
        var step := schema.field(m, ReadTag(s).value, data[at..], at);
        if step.Success? && at + step.value.1 <= |data| {
          assert s[ReadTag(s).value.length + step.value.1..] == data[at + step.value.1..];
        }
      } else if SkipInside(s, index).Success? {
        assert s[SkipInside(s, index).value..] == data[index + SkipInside(s, index).value..];
      }
    }
  }
}
