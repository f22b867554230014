/**
 The configuration digest, computed once by the contract and once by the node, and the
 digest of a proposal that its reviewers compare. The hash function is a parameter.
 */
module Digest {
  import opened Wrappers
  import opened Bytes
  import opened Seqs

  type Hash = seq<byte> -> Hash32

  const DIGEST_PREFIX: byte := 2

  datatype Oracle = Oracle(signer: seq<byte>, transmitter: seq<byte>, payee: seq<byte>)

  /** What the node knows of a configuration. */
  datatype ContractConfig = ContractConfig(
    configDigest: Hash32,
    configCount: uint64,
    signers: seq<seq<byte>>,
    transmitters: seq<seq<byte>>,
    f: byte,
    onchainConfig: seq<byte>,
    offchainConfigVersion: uint64,
    offchainConfig: seq<byte>)

  const ZERO_DIGEST: Hash32 :=
    [0, 0, 0, 0, 0, 0, 0, 0, 0, 0, 0, 0, 0, 0, 0, 0, 0, 0, 0, 0, 0, 0, 0, 0, 0, 0, 0, 0, 0, 0, 0, 0]

  const ZERO_CONFIG: ContractConfig := ContractConfig(ZERO_DIGEST, 0, [], [], 0, [], 0, [])

  function Flatten(parts: seq<seq<byte>>): seq<byte> {
    if |parts| == 0 then [] else Flatten(parts[..|parts| - 1]) + parts[|parts| - 1]
  }

  function Signers(oracles: seq<Oracle>): (r: seq<seq<byte>>)
    ensures |r| == |oracles| && forall i :: 0 <= i < |r| ==> r[i] == oracles[i].signer
  {
    seq(|oracles|, i requires 0 <= i < |oracles| => oracles[i].signer)
  }

  function Transmitters(oracles: seq<Oracle>): (r: seq<seq<byte>>)
    ensures |r| == |oracles| && forall i :: 0 <= i < |r| ==> r[i] == oracles[i].transmitter
  {
    seq(|oracles|, i requires 0 <= i < |oracles| => oracles[i].transmitter)
  }

  // ---------- preimages ----------

  /** Lengths are cast to 8 and 32 bits, as both programs do. */
  function ConfigPreimage(
      chainId: seq<byte>, contract: seq<byte>, configCount: nat, signers: seq<seq<byte>>,
      transmitters: seq<seq<byte>>, f: byte, onchainConfig: seq<byte>, version: uint64,
      offchainConfig: seq<byte>): seq<byte> {
    Be(|chainId|, 1) + (chainId + (contract + (Be(configCount, 4) + (Be(|signers|, 1) + (Flatten(signers)
    + (Flatten(transmitters) + ([f] + (Be(|onchainConfig|, 4) + (onchainConfig + (Be(version, 8)
    + (Be(|offchainConfig|, 4) + offchainConfig)))))))))))
  }

  function OracleBytes(o: Oracle): seq<byte> {
    o.signer + o.transmitter + o.payee
  }

  function FlattenOracles(oracles: seq<Oracle>): seq<byte> {
    if |oracles| == 0 then [] else FlattenOracles(oracles[..|oracles| - 1]) + OracleBytes(oracles[|oracles| - 1])
  }

  function ProposalPreimage(oracles: seq<Oracle>, f: byte, version: uint64, offchainConfig: seq<byte>): seq<byte> {
    Be(|oracles|, 1) + (FlattenOracles(oracles) + ([f] + (Be(version, 8) + (Be(|offchainConfig|, 4) + offchainConfig))))
  }

  function Mask(h: Hash32): (d: Hash32) {
    [0, DIGEST_PREFIX] + h[2..]
  }

  lemma Assoc<T>(a: seq<T>, b: seq<T>, c: seq<T>)
    ensures (a + b) + c == a + (b + c)
  {
  }

  /** Writing thirteen parts one after the other. */
  lemma Regroup<T>(a: seq<T>, b: seq<T>, c: seq<T>, d: seq<T>, e: seq<T>, f: seq<T>, g: seq<T>,
                   h: seq<T>, i: seq<T>, j: seq<T>, k: seq<T>, l: seq<T>, m: seq<T>)
    ensures a + b + c + d + e + f + g + h + i + j + k + l + m
         == a + (b + (c + (d + (e + (f + (g + (h + (i + (j + (k + (l + m)))))))))))
  {
    Assoc(a + b + c + d + e + f + g + h + i + j + k, l, m);
    Assoc(a + b + c + d + e + f + g + h + i + j, k, l + m);
    Assoc(a + b + c + d + e + f + g + h + i, j, k + (l + m));
    Assoc(a + b + c + d + e + f + g + h, i, j + (k + (l + m)));
    Assoc(a + b + c + d + e + f + g, h, i + (j + (k + (l + m))));
    Assoc(a + b + c + d + e + f, g, h + (i + (j + (k + (l + m)))));
    Assoc(a + b + c + d + e, f, g + (h + (i + (j + (k + (l + m))))));
    Assoc(a + b + c + d, e, f + (g + (h + (i + (j + (k + (l + m)))))));
    Assoc(a + b + c, d, e + (f + (g + (h + (i + (j + (k + (l + m))))))));
    Assoc(a + b, c, d + (e + (f + (g + (h + (i + (j + (k + (l + m)))))))));
    Assoc(a, b, c + (d + (e + (f + (g + (h + (i + (j + (k + (l + m))))))))));
  }

  // ---------- the two programs ----------

  method WriteAll(buf: seq<byte>, parts: seq<seq<byte>>) returns (r: seq<byte>)
    ensures r == buf + Flatten(parts)
  {
    r := buf;
    for i := 0 to |parts|
      invariant r == buf + Flatten(parts[..i])
    {
      assert parts[..i + 1][..i] == parts[..i];
      Assoc(buf, Flatten(parts[..i]), parts[i]);
      r := r + parts[i];
    }
    assert parts[..|parts|] == parts;
  }

  /** The contract feeds a hasher field by field; an over-long chain id aborts. */
  method ConfigDigestFromData(
      hash: Hash, chainId: seq<byte>, contract: seq<byte>, configCount: uint32, oracles: seq<Oracle>, f: byte,
      onchainConfig: seq<byte>, version: uint64, offchainConfig: seq<byte>)
    returns (r: Option<Hash32>)
    ensures r == if |chainId| < TWO_8
                 then Some(Mask(hash(ConfigPreimage(chainId, contract, configCount, Signers(oracles),
                                                    Transmitters(oracles), f, onchainConfig, version, offchainConfig))))
                 else None
  {
    if |chainId| >= TWO_8 {
      return None;
    }
    var input := Be(|chainId|, 1) + chainId + contract + Be(configCount, 4) + Be(|oracles|, 1);
    input := WriteAll(input, Signers(oracles));
    input := WriteAll(input, Transmitters(oracles));
    input := input + [f] + Be(|onchainConfig|, 4) + onchainConfig + Be(version, 8) + Be(|offchainConfig|, 4)
      + offchainConfig;
    Regroup(Be(|chainId|, 1), chainId, contract, Be(configCount, 4), Be(|oracles|, 1), Flatten(Signers(oracles)),
            Flatten(Transmitters(oracles)), [f], Be(|onchainConfig|, 4), onchainConfig, Be(version, 8),
            Be(|offchainConfig|, 4), offchainConfig);
    var digest: seq<byte> := hash(input);
    assert digest[0 := 0][1 := DIGEST_PREFIX] == Mask(hash(input));
    digest := digest[0 := 0][1 := DIGEST_PREFIX];
    return Some(digest);
  }

  function NodeDigest(hash: Hash, chainId: seq<byte>, contract: seq<byte>, cfg: ContractConfig): Option<Hash32> {
    if |chainId| >= TWO_8 then None
    else
      Some(Mask(hash(ConfigPreimage(chainId, contract, cfg.configCount, cfg.signers, cfg.transmitters, cfg.f,
                                    cfg.onchainConfig, cfg.offchainConfigVersion, cfg.offchainConfig))))
  }

  /** The node writes into a buffer, signers first and transmitters after them. */
  method ConfigDigest(hash: Hash, chainId: seq<byte>, contract: seq<byte>, cfg: ContractConfig)
    returns (r: Option<Hash32>)
    ensures r == NodeDigest(hash, chainId, contract, cfg)
  {
    if |chainId| >= TWO_8 {
      return None;
    }
    var buf := Be(|chainId|, 1) + chainId + contract + Be(cfg.configCount, 4) + Be(|cfg.signers|, 1);
    buf := WriteAll(buf, cfg.signers);
    buf := WriteAll(buf, cfg.transmitters);
    buf := buf + [cfg.f] + Be(|cfg.onchainConfig|, 4) + cfg.onchainConfig + Be(cfg.offchainConfigVersion, 8)
    + Be(|cfg.offchainConfig|, 4) + cfg.offchainConfig;
    Regroup(Be(|chainId|, 1), chainId, contract, Be(cfg.configCount, 4), Be(|cfg.signers|, 1), Flatten(cfg.signers),
            Flatten(cfg.transmitters), [cfg.f], Be(|cfg.onchainConfig|, 4), cfg.onchainConfig,
            Be(cfg.offchainConfigVersion, 8), Be(|cfg.offchainConfig|, 4), cfg.offchainConfig);
    var digest: seq<byte> := hash(buf);
    assert digest[0 := 0][1 := DIGEST_PREFIX] == Mask(hash(buf));
    digest := digest[0 := 0][1 := DIGEST_PREFIX];
    return Some(digest);
  }

  /** The digest of a proposal interleaves each oracle's three parts. */
  method ProposalDigest(hash: Hash, oracles: seq<Oracle>, f: byte, version: uint64, offchainConfig: seq<byte>)
    returns (digest: Hash32)
    ensures digest == hash(ProposalPreimage(oracles, f, version, offchainConfig))
  {
    var input := Be(|oracles|, 1);
    ghost var header := input;
    for i := 0 to |oracles|
      invariant input == header + FlattenOracles(oracles[..i])
    {
      assert oracles[..i + 1][..i] == oracles[..i];
      input := input + oracles[i].signer;
      input := input + oracles[i].transmitter;
      input := input + oracles[i].payee;
    }
    assert oracles[..|oracles|] == oracles;
    input := input + [f] + Be(version, 8) + Be(|offchainConfig|, 4) + offchainConfig;
    assert input == ProposalPreimage(oracles, f, version, offchainConfig);
    return hash(input);
  }

  // ---------- the on-chain part of the configuration ----------

  /** x as a 24-byte two's complement integer. */
  function Int192(x: int128): (r: seq<byte>)
    ensures |r| == 24
  {
    Be(if x < 0 then x + TWO_64 * TWO_128 else x, 24)
  }

  function OnchainConfig(minAnswer: int128, maxAnswer: int128): (r: seq<byte>)
    ensures |r| == 49
  {
    [1] + Int192(minAnswer) + Int192(maxAnswer)
  }

  lemma {:induction false} FromBeAppend(a: seq<byte>, b: seq<byte>)
    ensures FromBe(a + b) == FromBe(a) * Pow256(|b|) + FromBe(b)
  {
    if |b| == 0 {
      assert a + b == a;
    } else {
      var front := b[..|b| - 1];
      FromBeAppend(a, front);
      assert (a + b)[..|a + b| - 1] == a + front;
      assert (FromBe(a) * Pow256(|front|)) * 256 == FromBe(a) * Pow256(|b|) by {
        assert Pow256(|b|) == 256 * Pow256(|front|);
      }
    }
  }

  lemma EightBytes(b: byte)
    requires b == 0 || b == 255
    ensures FromBe([b, b, b, b, b, b, b, b]) == if b == 0 then 0 else TWO_64 - 1
  {
    FromBeAppend([b], [b]);
    FromBeAppend([b, b], [b, b]);
    FromBeAppend([b, b, b, b], [b, b, b, b]);
    assert [b] + [b] == [b, b];
    assert [b, b] + [b, b] == [b, b, b, b];
    assert [b, b, b, b] + [b, b, b, b] == [b, b, b, b, b, b, b, b];
    assert FromBe([b]) == b;
    assert Pow256(2) == TWO_16;
    Pow256Values();
  }

  /** Eight sign bytes in front of the 128-bit form are the 192-bit form. */
  lemma SignExtension(x: int128)
    ensures (if x < 0 then seq(8, _ => 255) else seq(8, _ => 0)) + Be(ToTwos(x), 16) == Int192(x)
  {
    var b: byte := if x < 0 then 255 else 0;
    var sign := [b, b, b, b, b, b, b, b];
    assert sign == if x < 0 then seq(8, _ => 255) else seq(8, _ => 0);
    var low := Be(ToTwos(x), 16);
    Pow256Values();
    EightBytes(b);
    FromBeAppend(sign, low);
    BeRoundTrip(ToTwos(x), 16);
    FromBeRoundTrip(sign + low);
  }

  method BuildOnchainConfig(minAnswer: int128, maxAnswer: int128) returns (bytes: seq<byte>)
    ensures bytes == OnchainConfig(minAnswer, maxAnswer)
  {
    bytes := [1];
    if minAnswer < 0 {
      bytes := bytes + seq(8, _ => 0xFF);
    } else {
      bytes := bytes + seq(8, _ => 0x00);
    }
    bytes := bytes + Be(ToTwos(minAnswer), 16);
    SignExtension(minAnswer);
    assert bytes == [1] + Int192(minAnswer);
    ghost var half := bytes;
    if maxAnswer < 0 {
      bytes := bytes + seq(8, _ => 0xFF);
    } else {
      bytes := bytes + seq(8, _ => 0x00);
    }
    bytes := bytes + Be(ToTwos(maxAnswer), 16);
    SignExtension(maxAnswer);
    assert bytes == half + Int192(maxAnswer);
  }

  /** The answer bounds can be recovered from the encoded configuration. */
  lemma OnchainConfigInjective(a: int128, b: int128, c: int128, d: int128)
    requires OnchainConfig(a, b) == OnchainConfig(c, d)
    ensures a == c && b == d
  {
    assert OnchainConfig(a, b)[1..25] == Int192(a) && OnchainConfig(a, b)[25..] == Int192(b);
    assert OnchainConfig(c, d)[1..25] == Int192(c) && OnchainConfig(c, d)[25..] == Int192(d);
    assert Pow256(24) == TWO_64 * TWO_128 by {
      Pow256Values();
      assert Pow256(18) == TWO_16 * TWO_128;
      assert Pow256(20) == TWO_32 * TWO_128;
      assert Pow256(22) == TWO_32 * TWO_16 * TWO_128;
    }
    var unsigned := (x: int128) => (if x < 0 then x + TWO_64 * TWO_128 else x) as int;
    BeInjective(unsigned(a), unsigned(c), 24);
    BeInjective(unsigned(b), unsigned(d), 24);
  }

  // ---------- unambiguity ----------

  lemma SplitEqual(a: seq<byte>, x: seq<byte>, b: seq<byte>, y: seq<byte>)
    requires a + x == b + y && |a| == |b|
    ensures a == b && x == y
  {
    assert a == (a + x)[..|a|] && b == (b + y)[..|b|];
    assert x == (a + x)[|a|..] && y == (b + y)[|b|..];
  }

  ghost predicate AllOfLength(parts: seq<seq<byte>>, width: nat) {
    forall i :: 0 <= i < |parts| ==> |parts[i]| == width
  }

  lemma {:induction false} FlattenLength(parts: seq<seq<byte>>, width: nat)
    requires AllOfLength(parts, width)
    ensures |Flatten(parts)| == |parts| * width
  {
    if |parts| > 0 {
      FlattenLength(parts[..|parts| - 1], width);
    }
  }

  lemma {:induction false} FlattenInjective(a: seq<seq<byte>>, b: seq<seq<byte>>, width: nat)
    requires |a| == |b| && AllOfLength(a, width) && AllOfLength(b, width)
    requires Flatten(a) == Flatten(b)
    ensures a == b
  {
    if |a| > 0 {
      var a', b' := a[..|a| - 1], b[..|b| - 1];
      FlattenLength(a', width);
      FlattenLength(b', width);
      SplitEqual(Flatten(a'), a[|a| - 1], Flatten(b'), b[|b| - 1]);
      FlattenInjective(a', b', width);
      assert a == a' + [a[|a| - 1]] && b == b' + [b[|b| - 1]];
    }
  }

  /** The fields of a digest preimage, for comparing two of them. */
  datatype Preimage = Preimage(
    chainId: seq<byte>, contract: seq<byte>, configCount: uint32, signers: seq<seq<byte>>, transmitters: seq<seq<byte>>,
    f: byte, onchainConfig: seq<byte>, version: uint64, offchainConfig: seq<byte>) {

    function Bytes(): seq<byte> {
      ConfigPreimage(chainId, contract, configCount, signers, transmitters, f, onchainConfig, version, offchainConfig)
    }

    /** Sizes that the encoding of lengths and the contract's checks of signers imply. */
    ghost predicate Sized() {
      && |chainId| < TWO_8 && |signers| < TWO_8 && AllOfLength(signers, 32)
      && |onchainConfig| < TWO_32 && |offchainConfig| < TWO_32
    }

    /** And every address of one fixed length, one transmitter for each signer. */
    ghost predicate WellSized(addressLength: nat) {
      && Sized() && |contract| == addressLength
      && |signers| == |transmitters| && AllOfLength(transmitters, addressLength)
    }

    function AfterOracles(): seq<byte> {
      [f] + (Be(|onchainConfig|, 4) + (onchainConfig + (Be(version, 8) + (Be(|offchainConfig|, 4) + offchainConfig))))
    }

    /** Everything behind the configuration count. */
    function Tail(): seq<byte> {
      Be(|signers|, 1) + (Flatten(signers) + (Flatten(transmitters) + AfterOracles()))
    }
  }

  /** The chain id carries its length, so one contract's preimages reveal the configuration count. */
  lemma HeadUnambiguous(p: Preimage, q: Preimage)
    requires |p.chainId| < TWO_8 && |q.chainId| < TWO_8 && |p.contract| == |q.contract| && p.Bytes() == q.Bytes()
    ensures p.chainId == q.chainId && p.contract == q.contract && p.configCount == q.configCount && p.Tail() == q.Tail()
  {
    Pow256Values();
    var rest := (r: Preimage) => r.contract + (Be(r.configCount, 4) + r.Tail());
    assert forall r: Preimage :: r.Bytes() == Be(|r.chainId|, 1) + (r.chainId + rest(r));
    SplitEqual(Be(|p.chainId|, 1), p.chainId + rest(p), Be(|q.chainId|, 1), q.chainId + rest(q));
    BeInjective(|p.chainId|, |q.chainId|, 1);
    SplitEqual(p.chainId, rest(p), q.chainId, rest(q));
    SplitEqual(p.contract, Be(p.configCount, 4) + p.Tail(), q.contract, Be(q.configCount, 4) + q.Tail());
    SplitEqual(Be(p.configCount, 4), p.Tail(), Be(q.configCount, 4), q.Tail());
    BeInjective(p.configCount, q.configCount, 4);
  }

  lemma SizedUnambiguous(a: seq<byte>, x: seq<byte>, b: seq<byte>, y: seq<byte>)
    requires |a| < TWO_32 && |b| < TWO_32
    requires Be(|a|, 4) + (a + x) == Be(|b|, 4) + (b + y)
    ensures a == b && x == y
  {
    Pow256Values();
    SplitEqual(Be(|a|, 4), a + x, Be(|b|, 4), b + y);
    BeInjective(|a|, |b|, 4);
    SplitEqual(a, x, b, y);
  }

  lemma SignersUnambiguous(p: Preimage, q: Preimage)
    requires p.Sized() && q.Sized() && p.Tail() == q.Tail()
    ensures p.signers == q.signers
    ensures Flatten(p.transmitters) + p.AfterOracles() == Flatten(q.transmitters) + q.AfterOracles()
  {
    Pow256Values();
    SplitEqual(Be(|p.signers|, 1), Flatten(p.signers) + (Flatten(p.transmitters) + p.AfterOracles()),
               Be(|q.signers|, 1), Flatten(q.signers) + (Flatten(q.transmitters) + q.AfterOracles()));
    BeInjective(|p.signers|, |q.signers|, 1);
    FlattenLength(p.signers, 32);
    FlattenLength(q.signers, 32);
    SplitEqual(Flatten(p.signers), Flatten(p.transmitters) + p.AfterOracles(),
               Flatten(q.signers), Flatten(q.transmitters) + q.AfterOracles());
    FlattenInjective(p.signers, q.signers, 32);
  }

  lemma RestUnambiguous(p: Preimage, q: Preimage)
    requires p.Sized() && q.Sized() && p.AfterOracles() == q.AfterOracles()
    ensures p.f == q.f && p.onchainConfig == q.onchainConfig && p.version == q.version
            && p.offchainConfig == q.offchainConfig
  {
    var versioned := (r: Preimage) => Be(r.version, 8) + (Be(|r.offchainConfig|, 4) + r.offchainConfig);
    SplitEqual([p.f], Be(|p.onchainConfig|, 4) + (p.onchainConfig + versioned(p)),
               [q.f], Be(|q.onchainConfig|, 4) + (q.onchainConfig + versioned(q)));
    SizedUnambiguous(p.onchainConfig, versioned(p), q.onchainConfig, versioned(q));
    SplitEqual(Be(p.version, 8), Be(|p.offchainConfig|, 4) + p.offchainConfig,
               Be(q.version, 8), Be(|q.offchainConfig|, 4) + q.offchainConfig);
    Pow256Values();
    BeInjective(p.version, q.version, 8);
    SplitEqual(Be(|p.offchainConfig|, 4), p.offchainConfig, Be(|q.offchainConfig|, 4), q.offchainConfig);
  }

  /**
   Two preimages of contracts with equally long addresses, and with equally many transmitter bytes,
   are equal exactly when all fields are, except that the transmitters need only concatenate to
   the same bytes.
   */
  lemma PreimageEqualIff(p: Preimage, q: Preimage)
    requires p.Sized() && q.Sized() && |p.contract| == |q.contract|
    requires |Flatten(p.transmitters)| == |Flatten(q.transmitters)|
    ensures p.Bytes() == q.Bytes() <==>
              p.(transmitters := q.transmitters) == q && Flatten(p.transmitters) == Flatten(q.transmitters)
  {
    if p.Bytes() == q.Bytes() {
      HeadUnambiguous(p, q);
      SignersUnambiguous(p, q);
      SplitEqual(Flatten(p.transmitters), p.AfterOracles(), Flatten(q.transmitters), q.AfterOracles());
      RestUnambiguous(p, q);
    }
  }

  /** Equal digest preimages come from equal configurations. */
  lemma PreimageUnambiguous(p: Preimage, q: Preimage, addressLength: nat)
    requires p.WellSized(addressLength) && q.WellSized(addressLength)
    requires p.Bytes() == q.Bytes()
    ensures p == q
  {
    HeadUnambiguous(p, q);
    SignersUnambiguous(p, q);
    FlattenLength(p.transmitters, addressLength);
    FlattenLength(q.transmitters, addressLength);
    PreimageEqualIff(p, q);
    FlattenInjective(p.transmitters, q.transmitters, addressLength);
  }

  lemma FlattenFour(w: seq<byte>, x: seq<byte>, y: seq<byte>, z: seq<byte>)
    ensures Flatten([w, x, y, z]) == w + x + y + z
  {
    assert [w, x, y, z][..3] == [w, x, y] && [w, x, y][..2] == [w, x] && [w, x][..1] == [w] && [w][..0] == [];
    assert Flatten([w, x]) == Flatten([w]) + x;
    assert Flatten([w, x, y]) == Flatten([w, x]) + y;
  }

  const CUT_EARLY: seq<seq<byte>> := [[1], [2, 3], [4], [5]]
  const CUT_LATE: seq<seq<byte>> := [[1, 2], [3], [4], [5]]

  /** Four transmitters each, all distinct, one concatenation. */
  lemma CutsConcatenateAlike()
    ensures Distinct(CUT_EARLY) && Distinct(CUT_LATE) && CUT_EARLY != CUT_LATE
    ensures Flatten(CUT_EARLY) == Flatten(CUT_LATE)
  {
    FlattenFour([1], [2, 3], [4], [5]);
    FlattenFour([1, 2], [3], [4], [5]);
    hide Flatten;
    assert |CUT_EARLY[0]| != |CUT_LATE[0]|;
    assert [1] + [2, 3] + [4] + [5] == [1, 2] + [3] + [4] + [5];
    assert CUT_EARLY[0][0] != CUT_EARLY[2][0] && CUT_EARLY[0][0] != CUT_EARLY[3][0];
    assert CUT_EARLY[2][0] != CUT_EARLY[3][0];
    assert CUT_LATE[1][0] != CUT_LATE[2][0] && CUT_LATE[1][0] != CUT_LATE[3][0] && CUT_LATE[2][0] != CUT_LATE[3][0];
  }

  /**
   Without a length in front of each transmitter the fixed address length is needed: whatever the
   other fields, these two different configurations have one preimage and so one digest.
   */
  lemma VaryingAddressLengthCollides(p: Preimage)
    ensures var a, b := p.(transmitters := CUT_EARLY), p.(transmitters := CUT_LATE);
            a != b && a.Bytes() == b.Bytes()
  {
    CutsConcatenateAlike();
    hide Flatten;
    assert p.(transmitters := CUT_EARLY).transmitters != p.(transmitters := CUT_LATE).transmitters;
  }

  ghost predicate OracleSized(o: Oracle, addressLength: nat) {
    |o.signer| == 32 && |o.transmitter| == addressLength && |o.payee| == addressLength
  }

  lemma {:induction false} FlattenOraclesInjective(a: seq<Oracle>, b: seq<Oracle>, addressLength: nat)
    requires |a| == |b|
    requires forall i :: 0 <= i < |a| ==> OracleSized(a[i], addressLength) && OracleSized(b[i], addressLength)
    ensures |FlattenOracles(a)| == |FlattenOracles(b)|
    ensures FlattenOracles(a) == FlattenOracles(b) ==> a == b
  {
    if |a| > 0 {
      var a', b' := a[..|a| - 1], b[..|b| - 1];
      var x, y := a[|a| - 1], b[|b| - 1];
      FlattenOraclesInjective(a', b', addressLength);
      assert OracleSized(x, addressLength) && OracleSized(y, addressLength);
      if FlattenOracles(a) == FlattenOracles(b) {
        SplitEqual(FlattenOracles(a'), OracleBytes(x), FlattenOracles(b'), OracleBytes(y));
        SplitEqual(x.signer + x.transmitter, x.payee, y.signer + y.transmitter, y.payee);
        SplitEqual(x.signer, x.transmitter, y.signer, y.transmitter);
        assert a == a' + [x] && b == b' + [y];
      }
    }
  }

  /** The proposal digest pins everything the owner accepts. */
  lemma ProposalPreimageUnambiguous(
      oracles: seq<Oracle>, f: byte, version: uint64, offchain: seq<byte>,
      oracles': seq<Oracle>, f': byte, version': uint64, offchain': seq<byte>, addressLength: nat)
    requires |oracles| < TWO_8 && |oracles'| < TWO_8 && |offchain| < TWO_32 && |offchain'| < TWO_32
    requires forall i :: 0 <= i < |oracles| ==> OracleSized(oracles[i], addressLength)
    requires forall i :: 0 <= i < |oracles'| ==> OracleSized(oracles'[i], addressLength)
    requires ProposalPreimage(oracles, f, version, offchain) == ProposalPreimage(oracles', f', version', offchain')
    ensures oracles == oracles' && f == f' && version == version' && offchain == offchain'
  {
    Pow256Values();
    var t := [f] + (Be(version, 8) + (Be(|offchain|, 4) + offchain));
    var t' := [f'] + (Be(version', 8) + (Be(|offchain'|, 4) + offchain'));
    SplitEqual(Be(|oracles|, 1), FlattenOracles(oracles) + t, Be(|oracles'|, 1), FlattenOracles(oracles') + t');
    BeInjective(|oracles|, |oracles'|, 1);
    FlattenOraclesInjective(oracles, oracles', addressLength);
    SplitEqual(FlattenOracles(oracles), t, FlattenOracles(oracles'), t');
    SplitEqual([f], Be(version, 8) + (Be(|offchain|, 4) + offchain), [f'], Be(version', 8)
               + (Be(|offchain'|, 4) + offchain'));
    SplitEqual(Be(version, 8), Be(|offchain|, 4) + offchain, Be(version', 8), Be(|offchain'|, 4) + offchain');
    BeInjective(version, version', 8);
    SplitEqual(Be(|offchain|, 4), offchain, Be(|offchain'|, 4), offchain');
  }
}
