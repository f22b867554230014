/**
 Configurations as bytes and attributes, position by position: what the two digests are taken of,
 the encoded answer bounds, and the event that announces a configuration.
 */
module ConfigLayouts {
  import opened Bytes
  import opened Digest
  import opened ConfigEvent

  /** The bytes of the part stand at this position. */
  ghost predicate Holds(b: seq<byte>, at: nat, part: seq<byte>) {
    at + |part| <= |b| && b[at..at + |part|] == part
  }

  lemma Peel(b: seq<byte>, at: nat, part: seq<byte>, rest: seq<byte>)
    requires at <= |b| && b[at..] == part + rest
    ensures Holds(b, at, part) && b[at + |part|..] == rest && |b| == at + |part| + |rest|
  {
    assert b[at..at + |part|] == b[at..][..|part|];
    assert b[at + |part|..] == b[at..][|part|..];
  }

  lemma PeelTwo(b: seq<byte>, at: nat, x: seq<byte>, y: seq<byte>, rest: seq<byte>)
    requires at <= |b| && b[at..] == x + (y + rest)
    ensures Holds(b, at, x) && Holds(b, at + |x|, y)
    ensures b[at + |x| + |y|..] == rest && |b| == at + |x| + |y| + |rest|
  {
    Peel(b, at, x, y + rest);
    Peel(b, at + |x|, y, rest);
  }

  lemma PeelLast(b: seq<byte>, at: nat, part: seq<byte>)
    requires at <= |b| && b[at..] == part
    ensures Holds(b, at, part) && |b| == at + |part|
  {
    assert part + [] == part;
    Peel(b, at, part, []);
  }

  lemma HeldInside(b: seq<byte>, at: nat, part: seq<byte>, i: nat, piece: seq<byte>)
    requires Holds(b, at, part) && Holds(part, i, piece)
    ensures Holds(b, at + i, piece)
  {
    forall k | 0 <= k < |piece| ensures b[at + i + k] == piece[k] {
      assert b[at..at + |part|][i + k] == part[i + k] && part[i..i + |piece|][k] == piece[k];
    }
  }

  lemma HeldInFront(front: seq<byte>, back: seq<byte>, at: nat, part: seq<byte>)
    requires Holds(front, at, part)
    ensures Holds(front + back, at, part)
  {
    assert (front + back)[at..at + |part|] == front[at..at + |part|];
  }

  lemma HeldLast(front: seq<byte>, part: seq<byte>)
    ensures Holds(front + part, |front|, part)
  {
  }

  /** Where the i-th of parts of one width begins. */
  ghost function Place(at: nat, width: nat, i: nat): nat {
    if i == 0 then at else Place(at, width, i - 1) + width
  }

  lemma {:induction false} PlaceIs(at: nat, width: nat, i: nat)
    ensures Place(at, width, i) == at + i * width
  {
    if i > 0 {
      PlaceIs(at, width, i - 1);
    }
  }

  lemma Shifted(at: nat, width: nat, i: nat)
    ensures Place(at, width, i) == at + Place(0, width, i)
  {
    PlaceIs(at, width, i);
    PlaceIs(0, width, i);
  }

  lemma {:induction false} FlattenAt(parts: seq<seq<byte>>, width: nat, i: nat)
    requires AllOfLength(parts, width) && i < |parts|
    ensures Holds(Flatten(parts), Place(0, width, i), parts[i])
    decreases |parts|
  {
    var front, last := parts[..|parts| - 1], parts[|parts| - 1];
    FlattenLength(front, width);
    if i < |front| {
      FlattenAt(front, width, i);
      hide Place, Holds;
      HeldInFront(Flatten(front), last, Place(0, width, i), parts[i]);
    } else {
      PlaceIs(0, width, i);
      HeldLast(Flatten(front), last);
    }
  }

  /** Parts of one width, one after the other. */
  ghost predicate RowAt(b: seq<byte>, at: nat, width: nat, parts: seq<seq<byte>>) {
    forall i :: 0 <= i < |parts| ==> Holds(b, Place(at, width, i), parts[i])
  }

  lemma FlattenedRow(b: seq<byte>, at: nat, width: nat, parts: seq<seq<byte>>)
    requires AllOfLength(parts, width) && Holds(b, at, Flatten(parts))
    ensures RowAt(b, at, width, parts)
  {
    forall i | 0 <= i < |parts| ensures Holds(b, Place(at, width, i), parts[i]) {
      FlattenAt(parts, width, i);
      Shifted(at, width, i);
      hide Holds, AllOfLength, Flatten, Place;
      HeldInside(b, at, Flatten(parts), Place(0, width, i), parts[i]);
    }
  }

  lemma RowEnds(at: nat, width: nat, parts: seq<seq<byte>>)
    requires AllOfLength(parts, width)
    ensures Place(at, width, |parts|) == at + |Flatten(parts)|
  {
    FlattenLength(parts, width);
    PlaceIs(at, width, |parts|);
  }

  /** Chain id behind its length, contract address, configuration count in four bytes, number of oracles in one. */
  ghost predicate HeadHolds(b: seq<byte>, p: Preimage)
    requires p.Sized()
  {
    var count := 1 + |p.chainId| + |p.contract|;
    && Holds(b, 0, [|p.chainId|]) && Holds(b, 1, p.chainId) && Holds(b, 1 + |p.chainId|, p.contract)
    && Holds(b, count, Be(p.configCount, 4)) && Holds(b, count + 4, [|p.signers|])
  }

  /** f, the on-chain part behind its length, the version in eight bytes, the off-chain part behind its length. */
  ghost predicate TailHolds(b: seq<byte>, at: nat, p: Preimage) {
    var version := at + 5 + |p.onchainConfig|;
    && Holds(b, at, [p.f]) && Holds(b, at + 1, Be(|p.onchainConfig|, 4)) && Holds(b, at + 5, p.onchainConfig)
    && Holds(b, version, Be(p.version, 8)) && Holds(b, version + 8, Be(|p.offchainConfig|, 4))
    && Holds(b, version + 12, p.offchainConfig) && |b| == version + 12 + |p.offchainConfig|
  }

  function FromCount(p: Preimage): seq<byte> {
    Be(p.configCount, 4) + (Be(|p.signers|, 1) + FromSigners(p))
  }

  function FromSigners(p: Preimage): seq<byte> {
    Flatten(p.signers) + (Flatten(p.transmitters) + p.AfterOracles())
  }

  function FromVersion(p: Preimage): seq<byte> {
    Be(p.version, 8) + (Be(|p.offchainConfig|, 4) + p.offchainConfig)
  }

  lemma HeadIsHeld(p: Preimage, b: seq<byte>)
    requires p.Sized() && b == Be(|p.chainId|, 1) + (p.chainId + (p.contract + FromCount(p)))
    ensures HeadHolds(b, p)
    ensures var at := 6 + |p.chainId| + |p.contract|;
            at <= |b| && b[at..] == FromSigners(p)
  {
    var count := 1 + |p.chainId| + |p.contract|;
    OneByte(|p.chainId|);
    OneByte(|p.signers|);
    assert b[0..] == b;
    PeelTwo(b, 0, Be(|p.chainId|, 1), p.chainId, p.contract + FromCount(p));
    hide Be, FromSigners, Holds, Preimage.Sized;
    Peel(b, 1 + |p.chainId|, p.contract, FromCount(p));
    PeelTwo(b, count, Be(p.configCount, 4), Be(|p.signers|, 1), FromSigners(p));
  }

  lemma TailIsHeld(p: Preimage, b: seq<byte>, at: nat)
    requires at <= |b| && b[at..] == p.AfterOracles()
    ensures TailHolds(b, at, p)
  {
    var version := at + 5 + |p.onchainConfig|;
    assert p.AfterOracles() == [p.f] + (Be(|p.onchainConfig|, 4) + (p.onchainConfig + FromVersion(p)));
    assert FromVersion(p) == Be(p.version, 8) + (Be(|p.offchainConfig|, 4) + p.offchainConfig);
    hide Be, Holds, FromVersion, Preimage.AfterOracles;
    PeelTwo(b, at, [p.f], Be(|p.onchainConfig|, 4), p.onchainConfig + FromVersion(p));
    Peel(b, at + 5, p.onchainConfig, FromVersion(p));
    PeelTwo(b, version, Be(p.version, 8), Be(|p.offchainConfig|, 4), p.offchainConfig);
    PeelLast(b, version + 12, p.offchainConfig);
  }

  /** All the parts in their places. */
  ghost predicate PartsHold(b: seq<byte>, p: Preimage, addressLength: nat)
    requires p.Sized()
  {
    var signers, n := 6 + |p.chainId| + addressLength, |p.signers|;
    && HeadHolds(b, p) && RowAt(b, signers, 32, p.signers)
    && RowAt(b, Place(signers, 32, n), addressLength, p.transmitters)
    && TailHolds(b, Place(Place(signers, 32, n), addressLength, n), p)
  }

  lemma RowsAreHeld(p: Preimage, b: seq<byte>, at: nat, addressLength: nat)
    requires p.WellSized(addressLength) && at <= |b| && b[at..] == FromSigners(p)
    ensures var n := |p.signers|;
            && RowAt(b, at, 32, p.signers) && RowAt(b, Place(at, 32, n), addressLength, p.transmitters)
            && Place(Place(at, 32, n), addressLength, n) <= |b|
            && b[Place(Place(at, 32, n), addressLength, n)..] == p.AfterOracles()
  {
    PeelTwo(b, at, Flatten(p.signers), Flatten(p.transmitters), p.AfterOracles());
    hide Flatten, FromSigners, Preimage.AfterOracles, RowAt, AllOfLength, Place, Holds, Be;
    RowEnds(at, 32, p.signers);
    RowEnds(Place(at, 32, |p.signers|), addressLength, p.transmitters);
    FlattenedRow(b, at, 32, p.signers);
    FlattenedRow(b, Place(at, 32, |p.signers|), addressLength, p.transmitters);
  }

  lemma PartsAreHeld(p: Preimage, b: seq<byte>, addressLength: nat)
    requires p.WellSized(addressLength) && b == Be(|p.chainId|, 1) + (p.chainId + (p.contract + FromCount(p)))
    ensures PartsHold(b, p, addressLength)
  {
    hide FromCount, FromSigners, HeadHolds, TailHolds, RowAt, Place, Be;
    var signers, n := 6 + |p.chainId| + addressLength, |p.signers|;
    HeadIsHeld(p, b);
    RowsAreHeld(p, b, signers, addressLength);
    TailIsHeld(p, b, Place(Place(signers, 32, n), addressLength, n));
  }

  /**
   The digest of a configuration is taken of these bytes, in this order and with nothing in
   between: all signers in 32 bytes each, then all transmitters.
   */
  lemma ConfigPreimageLayout(p: Preimage, addressLength: nat)
    requires p.WellSized(addressLength)
    ensures PartsHold(p.Bytes(), p, addressLength)
  {
    assert p.Bytes() == Be(|p.chainId|, 1) + (p.chainId + (p.contract + FromCount(p)));
    hide PartsHold, Preimage.Bytes, FromCount, Be;
    PartsAreHeld(p, p.Bytes(), addressLength);
  }

  lemma OneByte(n: nat)
    requires n < 256
    ensures Be(n, 1) == [n]
  {
    assert Be(n, 1) == Be(n / 256, 0) + [n % 256];
  }

  // ---------- proposals ----------

  lemma {:induction false} OraclesAt(oracles: seq<Oracle>, addressLength: nat, i: nat)
    requires forall k :: 0 <= k < |oracles| ==> OracleSized(oracles[k], addressLength)
    ensures |FlattenOracles(oracles)| == Place(0, 32 + 2 * addressLength, |oracles|)
    ensures i < |oracles| ==>
              Holds(FlattenOracles(oracles), Place(0, 32 + 2 * addressLength, i), OracleBytes(oracles[i]))
    decreases |oracles|
  {
    if |oracles| > 0 {
      var front, last, width := oracles[..|oracles| - 1], oracles[|oracles| - 1], 32 + 2 * addressLength;
      OraclesAt(front, addressLength, i);
      Widths(width, |front|);
      hide Place, Holds;
      if i < |front| {
        HeldInFront(FlattenOracles(front), OracleBytes(last), Place(0, width, i), OracleBytes(oracles[i]));
      } else {
        HeldLast(FlattenOracles(front), OracleBytes(last));
      }
    }
  }

  lemma Widths(width: nat, n: nat)
    ensures Place(0, width, n + 1) == Place(0, width, n) + width
  {
  }

  lemma OracleParts(o: Oracle, addressLength: nat)
    requires OracleSized(o, addressLength)
    ensures Holds(OracleBytes(o), 0, o.signer) && Holds(OracleBytes(o), 32, o.transmitter)
    ensures Holds(OracleBytes(o), 32 + addressLength, o.payee)
  {
    var b := OracleBytes(o);
    assert b[0..] == o.signer + (o.transmitter + o.payee);
    Peel(b, 0, o.signer, o.transmitter + o.payee);
    Peel(b, 32, o.transmitter, o.payee);
    assert o.payee + [] == o.payee;
    Peel(b, 32 + addressLength, o.payee, []);
  }

  ghost predicate OracleAt(b: seq<byte>, at: nat, o: Oracle, addressLength: nat) {
    Holds(b, at, o.signer) && Holds(b, at + 32, o.transmitter) && Holds(b, at + 32 + addressLength, o.payee)
  }

  lemma OracleInPlace(b: seq<byte>, start: nat, o: Oracle, addressLength: nat)
    requires OracleSized(o, addressLength) && Holds(b, start, OracleBytes(o))
    ensures OracleAt(b, start, o, addressLength)
  {
    OracleParts(o, addressLength);
    hide Holds, OracleBytes;
    HeldInside(b, start, OracleBytes(o), 0, o.signer);
    HeldInside(b, start, OracleBytes(o), 32, o.transmitter);
    HeldInside(b, start, OracleBytes(o), 32 + addressLength, o.payee);
  }

  lemma OracleIsHeld(b: seq<byte>, at: nat, oracles: seq<Oracle>, addressLength: nat, i: nat)
    requires forall k :: 0 <= k < |oracles| ==> OracleSized(oracles[k], addressLength)
    requires i < |oracles| && Holds(b, at, FlattenOracles(oracles))
    ensures OracleAt(b, Place(at, 32 + 2 * addressLength, i), oracles[i], addressLength)
  {
    var width := 32 + 2 * addressLength;
    OraclesAt(oracles, addressLength, i);
    Shifted(at, width, i);
    hide Holds, OracleBytes, FlattenOracles, Place, OracleAt;
    HeldInside(b, at, FlattenOracles(oracles), Place(0, width, i), OracleBytes(oracles[i]));
    OracleInPlace(b, Place(at, width, i), oracles[i], addressLength);
  }

  /** Behind the oracles: f, the version in eight bytes, the off-chain part behind its length. */
  ghost predicate EndHolds(b: seq<byte>, at: nat, f: byte, version: uint64, offchainConfig: seq<byte>) {
    && Holds(b, at, [f]) && Holds(b, at + 1, Be(version, 8)) && Holds(b, at + 9, Be(|offchainConfig|, 4))
    && Holds(b, at + 13, offchainConfig) && |b| == at + 13 + |offchainConfig|
  }

  lemma EndIsHeld(b: seq<byte>, at: nat, f: byte, version: uint64, offchainConfig: seq<byte>)
    requires at <= |b| && b[at..] == [f] + (Be(version, 8) + (Be(|offchainConfig|, 4) + offchainConfig))
    ensures EndHolds(b, at, f, version, offchainConfig)
  {
    var sized := Be(|offchainConfig|, 4) + offchainConfig;
    hide Be, Holds;
    PeelTwo(b, at, [f], Be(version, 8), sized);
    Peel(b, at + 9, Be(|offchainConfig|, 4), offchainConfig);
    PeelLast(b, at + 13, offchainConfig);
  }

  /** The digest of a proposal is taken of its oracles one by one: signer, transmitter and payee. */
  lemma ProposalPreimageLayout(
      oracles: seq<Oracle>, f: byte, version: uint64, offchainConfig: seq<byte>, addressLength: nat)
    requires |oracles| < 256 && forall k :: 0 <= k < |oracles| ==> OracleSized(oracles[k], addressLength)
    ensures var b, width := ProposalPreimage(oracles, f, version, offchainConfig), 32 + 2 * addressLength;
            && Holds(b, 0, [|oracles|])
            && (forall i :: 0 <= i < |oracles| ==> OracleAt(b, Place(1, width, i), oracles[i], addressLength))
            && EndHolds(b, Place(1, width, |oracles|), f, version, offchainConfig)
  {
    var b, width := ProposalPreimage(oracles, f, version, offchainConfig), 32 + 2 * addressLength;
    OneByte(|oracles|);
    OraclesAt(oracles, addressLength, |oracles|);
    var end := [f] + (Be(version, 8) + (Be(|offchainConfig|, 4) + offchainConfig));
    assert b[0..] == b == Be(|oracles|, 1) + (FlattenOracles(oracles) + end);
    Shifted(1, width, |oracles|);
    hide Be, ProposalPreimage, FlattenOracles, OracleAt, EndHolds, Place;
    PeelTwo(b, 0, Be(|oracles|, 1), FlattenOracles(oracles), end);
    EndIsHeld(b, Place(1, width, |oracles|), f, version, offchainConfig);
    hide Holds;
    forall i | 0 <= i < |oracles| ensures OracleAt(b, Place(1, width, i), oracles[i], addressLength) {
      OracleIsHeld(b, 1, oracles, addressLength, i);
    }
  }

  // ---------- answer bounds ----------

  /** A version byte, then the lower and the upper bound, each in 24 bytes of two's complement. */
  lemma OnchainConfigLayout(minAnswer: int128, maxAnswer: int128)
    ensures var b := OnchainConfig(minAnswer, maxAnswer);
            var wide := (x: int) => if x < 0 then x + TWO_64 * TWO_128 else x;
            |b| == 49 && b[0] == 1 && FromBe(b[1..25]) == wide(minAnswer) && FromBe(b[25..]) == wide(maxAnswer)
  {
    var b := OnchainConfig(minAnswer, maxAnswer);
    assert b[1..25] == Int192(minAnswer) && b[25..] == Int192(maxAnswer);
    Pow256Of24();
    BeRoundTrip(if minAnswer < 0 then minAnswer + TWO_64 * TWO_128 else minAnswer, 24);
    BeRoundTrip(if maxAnswer < 0 then maxAnswer + TWO_64 * TWO_128 else maxAnswer, 24);
  }

  lemma Pow256Of24()
    ensures Pow256(24) == TWO_64 * TWO_128
  {
    Pow256Values();
    assert Pow256(18) == TWO_16 * TWO_128;
    assert Pow256(20) == TWO_32 * TWO_128;
    assert Pow256(22) == TWO_32 * TWO_16 * TWO_128;
  }

  // ---------- the event ----------

  /** The attributes of the event in order: three of the contract, one per oracle and role, four of the proposal. */
  lemma EventLayout(
      base64: Base64, previousBlock: nat, digest: Hash32, configCount: uint32, oracles: seq<Oracle>, f: byte,
      onchainConfig: seq<byte>, version: uint64, offchainConfig: seq<byte>)
    ensures var a := SetConfigAttributes(base64, previousBlock, digest, configCount, oracles, f, onchainConfig, version,
                                         offchainConfig);
            var n := |oracles|;
            && |a| == 3 * n + 7
            && a[0] == Attribute("previous_config_block_number", DecimalDigits(previousBlock))
            && a[1] == Attribute("latest_config_digest", HexEncode(digest))
            && a[2] == Attribute("config_count", DecimalDigits(configCount))
            && (forall i :: 0 <= i < n ==> a[3 + i] == Attribute("signers", HexEncode(oracles[i].signer)))
            && (forall i :: 0 <= i < n ==> a[3 + n + i] == Attribute("transmitters", oracles[i].transmitter))
            && (forall i :: 0 <= i < n ==> a[3 + 2 * n + i] == Attribute("payees", oracles[i].payee))
            && a[3 * n + 3] == Attribute("f", DecimalDigits(f))
            && a[3 * n + 4] == Attribute("onchain_config", base64.encode(onchainConfig))
            && a[3 * n + 5] == Attribute("offchain_config_version", DecimalDigits(version))
            && a[3 * n + 6] == Attribute("offchain_config", base64.encode(offchainConfig))
  {
    hide DecimalDigits, HexEncode;
  }
}
