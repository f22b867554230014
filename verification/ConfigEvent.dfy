/**
 The set_config event: the attributes the contract emits when it accepts a proposal, and the
 node's parser that turns them back into a configuration.
 */
module ConfigEvent {
  import opened Wrappers
  import opened Bytes
  import opened Digest

  datatype Attribute = Attribute(key: string, value: seq<byte>)

  /** The base64 encoder and decoder, assumed inverse to each other where that matters. */
  datatype Base64 = Base64(encode: seq<byte> -> seq<byte>, decode: seq<byte> -> Option<seq<byte>>) {
    predicate Restores(s: seq<byte>) {
      decode(encode(s)) == Some(s)
    }

    ghost predicate Inverse() {
      forall s: seq<byte> :: Restores(s)
    }
  }

  // ---------- emitting ----------

  function SignerAttributes(oracles: seq<Oracle>): (r: seq<Attribute>)
    ensures |r| == |oracles|
  {
    seq(|oracles|, i requires 0 <= i < |oracles| => Attribute("signers", HexEncode(oracles[i].signer)))
  }

  function TransmitterAttributes(oracles: seq<Oracle>): seq<Attribute> {
    seq(|oracles|, i requires 0 <= i < |oracles| => Attribute("transmitters", oracles[i].transmitter))
  }

  function PayeeAttributes(oracles: seq<Oracle>): seq<Attribute> {
    seq(|oracles|, i requires 0 <= i < |oracles| => Attribute("payees", oracles[i].payee))
  }

  function SetConfigAttributes(
      base64: Base64, previousBlock: nat, digest: Hash32, configCount: uint32, oracles: seq<Oracle>, f: byte,
      onchainConfig: seq<byte>, version: uint64, offchainConfig: seq<byte>): seq<Attribute> {
    [Attribute("previous_config_block_number", DecimalDigits(previousBlock)),
     Attribute("latest_config_digest", HexEncode(digest)),
     Attribute("config_count", DecimalDigits(configCount))]
    + (SignerAttributes(oracles) + (TransmitterAttributes(oracles) + (PayeeAttributes(oracles)
    + [Attribute("f", DecimalDigits(f)),
       Attribute("onchain_config", base64.encode(onchainConfig)),
       Attribute("offchain_config_version", DecimalDigits(version)),
       Attribute("offchain_config", base64.encode(offchainConfig))])))
  }

  // ---------- parsing ----------

  datatype ParseError = Duplicate(key: string) | Invalid(key: string) | MissingKeys(found: nat)

  datatype ParseState = ParseState(known: set<string>, unknown: map<string, nat>, output: ContractConfig)

  const UNIQUE_KEYS: nat := 8
  const INITIAL: ParseState := ParseState({}, map[], ZERO_CONFIG)

  /** Go's conversions of a signed parse result to an unsigned field wrap around. */
  function ToUnsigned(i: int, modulus: int): (r: int)
    requires modulus > 0 && -modulus <= i < modulus
    ensures 0 <= r < modulus
  {
    if i < 0 then i + modulus else i
  }

  function First(st: ParseState, key: string): Result<ParseState, ParseError> {
    if key in st.known then Failure(Duplicate(key)) else Success(st.(known := st.known + {key}))
  }

  function ParseOne(base64: Base64, st: ParseState, a: Attribute): Result<ParseState, ParseError> {
    if a.key == "latest_config_digest" then
      var st :- First(st, a.key);
      match HexDecode(a.value)
      case Some(d) =>
        if |d| == 32 then Success(st.(output := st.output.(configDigest := d))) else Failure(Invalid(a.key))
      case None => Failure(Invalid(a.key))
    else if a.key == "config_count" then
      var st :- First(st, a.key);
      match ParseInt(a.value, TWO_63)
      case Some(i) => Success(st.(output := st.output.(configCount := ToUnsigned(i, TWO_64))))
      case None => Failure(Invalid(a.key))
    else if a.key == "signers" then
      match HexDecode(a.value)
      case Some(v) =>
        if |v| == 32 then
          Success(st.(known := st.known + {a.key}, output := st.output.(signers := st.output.signers + [v])))
        else Failure(Invalid(a.key))
      case None => Failure(Invalid(a.key))
    else if a.key == "transmitters" then
      Success(st.(known := st.known + {a.key},
                  output := st.output.(transmitters := st.output.transmitters + [a.value])))
    else if a.key == "f" then
      var st :- First(st, a.key);
      match ParseInt(a.value, TWO_7)
      case Some(i) => Success(st.(output := st.output.(f := ToUnsigned(i, TWO_8))))
      case None => Failure(Invalid(a.key))
    else if a.key == "onchain_config" then
      var st :- First(st, a.key);
      match base64.decode(a.value)
      case Some(b) => Success(st.(output := st.output.(onchainConfig := b)))
      case None => Failure(Invalid(a.key))
    else if a.key == "offchain_config_version" then
      var st :- First(st, a.key);
      match ParseInt(a.value, TWO_63)
      case Some(i) => Success(st.(output := st.output.(offchainConfigVersion := ToUnsigned(i, TWO_64))))
      case None => Failure(Invalid(a.key))
    else if a.key == "offchain_config" then
      var st :- First(st, a.key);
      match base64.decode(a.value)
      case Some(b) => Success(st.(output := st.output.(offchainConfig := b)))
      case None => Failure(Invalid(a.key))
    else
      var seen := if a.key in st.unknown then st.unknown[a.key] else 0;
      Success(st.(unknown := st.unknown[a.key := seen + 1]))
  }

  function ParseFrom(base64: Base64, st: ParseState, attrs: seq<Attribute>): Result<ParseState, ParseError>
    decreases |attrs|
  {
    if |attrs| == 0 then Success(st)
    else
      var next :- ParseOne(base64, st, attrs[0]);
      ParseFrom(base64, next, attrs[1..])
  }

  function Parsed(base64: Base64, attrs: seq<Attribute>): Result<ParseState, ParseError> {
    var st :- ParseFrom(base64, INITIAL, attrs);
    if |st.known| != UNIQUE_KEYS then Failure(MissingKeys(|st.known|)) else Success(st)
  }

  method ParseAttributes(base64: Base64, attrs: seq<Attribute>)
    returns (r: Result<(ContractConfig, map<string, nat>), ParseError>)
    ensures Parsed(base64, attrs).Success? ==>
              r == Success((Parsed(base64, attrs).value.output, Parsed(base64, attrs).value.unknown))
    ensures Parsed(base64, attrs).Failure? ==> r == Failure(Parsed(base64, attrs).error)
  {
    var st := INITIAL;
    for i := 0 to |attrs|
      invariant ParseFrom(base64, INITIAL, attrs) == ParseFrom(base64, st, attrs[i..])
    {
      match ParseOne(base64, st, attrs[i]) {
        case Success(next) => st := next;
        case Failure(e) => return Failure(e);
      }
    }
    if |st.known| != UNIQUE_KEYS {
      return Failure(MissingKeys(|st.known|));
    }
    return Success((st.output, st.unknown));
  }

  // ---------- the event round trip ----------

  predicate AllSigners32(oracles: seq<Oracle>) {
    forall i :: 0 <= i < |oracles| ==> |oracles[i].signer| == 32
  }

  lemma ParseCons(base64: Base64, st: ParseState, a: Attribute, rest: seq<Attribute>)
    requires ParseOne(base64, st, a).Success?
    ensures ParseFrom(base64, st, [a] + rest) == ParseFrom(base64, ParseOne(base64, st, a).value, rest)
  {
    assert ([a] + rest)[1..] == rest;
  }

  lemma ParseSigner(base64: Base64, st: ParseState, signer: seq<byte>)
    requires |signer| == 32
    ensures ParseOne(base64, st, Attribute("signers", HexEncode(signer)))
         == Success(st.(known := st.known + {"signers"}, output := st.output.(signers := st.output.signers + [signer])))
  {
    HexRoundTrip(signer);
  }

  lemma ParseTransmitter(base64: Base64, st: ParseState, transmitter: seq<byte>)
    ensures ParseOne(base64, st, Attribute("transmitters", transmitter))
         == Success(st.(known := st.known + {"transmitters"},
                        output := st.output.(transmitters := st.output.transmitters + [transmitter])))
  {
  }

  lemma ParsePayee(base64: Base64, st: ParseState, payee: seq<byte>)
    ensures ParseOne(base64, st, Attribute("payees", payee))
         == Success(st.(unknown := CountUnknown(st.unknown, "payees", 1)))
  {
  }

  lemma FirstSigner(oracles: seq<Oracle>, k: nat, rest: seq<Attribute>)
    requires k < |oracles|
    ensures SignerAttributes(oracles)[k..] + rest
         == [Attribute("signers", HexEncode(oracles[k].signer))] + (SignerAttributes(oracles)[k + 1..] + rest)
  {
    hide HexEncode;
  }

  /** Reading the signer attributes from position k on appends the remaining signers in order. */
  lemma {:induction false} ParseSigners(base64: Base64, st: ParseState, oracles: seq<Oracle>, k: nat,
      rest: seq<Attribute>)
    requires k <= |oracles| && AllSigners32(oracles)
    ensures ParseFrom(base64, st, SignerAttributes(oracles)[k..] + rest)
         == ParseFrom(base64, st.(known := if k < |oracles| then st.known + {"signers"} else st.known,
                                  output := st.output.(signers := st.output.signers + Signers(oracles)[k..])), rest)
    decreases |oracles| - k
  {
    var attrs := SignerAttributes(oracles)[k..] + rest;
    if k == |oracles| {
      assert attrs == rest;
      assert st.output.signers + Signers(oracles)[k..] == st.output.signers;
    } else {
      var signer := oracles[k].signer;
      var next := st.(known := st.known + {"signers"}, output := st.output.(signers := st.output.signers + [signer]));
      ParseSigner(base64, st, signer);
      hide ParseOne, ParseFrom, HexEncode, SignerAttributes;
      FirstSigner(oracles, k, rest);
      ParseCons(base64, st, Attribute("signers", HexEncode(signer)), SignerAttributes(oracles)[k + 1..] + rest);
      ParseSigners(base64, next, oracles, k + 1, rest);
      assert next.output.signers + Signers(oracles)[k + 1..] == st.output.signers + Signers(oracles)[k..];
      assert next.known + {"signers"} == next.known;
    }
  }

  lemma {:induction false} ParseTransmitters(base64: Base64, st: ParseState, oracles: seq<Oracle>, k: nat,
      rest: seq<Attribute>)
    requires k <= |oracles|
    ensures ParseFrom(base64, st, TransmitterAttributes(oracles)[k..] + rest)
         == ParseFrom(base64, st.(known := if k < |oracles| then st.known + {"transmitters"} else st.known,
                                  output := st.output.(transmitters := st.output.transmitters
                                                       + Transmitters(oracles)[k..])), rest)
    decreases |oracles| - k
  {
    var attrs := TransmitterAttributes(oracles)[k..] + rest;
    if k == |oracles| {
      assert attrs == rest;
      assert st.output.transmitters + Transmitters(oracles)[k..] == st.output.transmitters;
    } else {
      var transmitter := oracles[k].transmitter;
      var next := st.(known := st.known + {"transmitters"},
                      output := st.output.(transmitters := st.output.transmitters + [transmitter]));
      ParseTransmitter(base64, st, transmitter);
      hide ParseOne, ParseFrom;
      assert attrs == [Attribute("transmitters", transmitter)] + (TransmitterAttributes(oracles)[k + 1..] + rest);
      ParseCons(base64, st, Attribute("transmitters", transmitter), TransmitterAttributes(oracles)[k + 1..] + rest);
      ParseTransmitters(base64, next, oracles, k + 1, rest);
      assert next.output.transmitters + Transmitters(oracles)[k + 1..]
           == st.output.transmitters + Transmitters(oracles)[k..];
      assert next.known + {"transmitters"} == next.known;
    }
  }

  function CountUnknown(unknown: map<string, nat>, key: string, n: nat): map<string, nat> {
    if n == 0 then unknown else unknown[key := n + (if key in unknown then unknown[key] else 0)]
  }

  lemma {:induction false} ParsePayees(base64: Base64, st: ParseState, oracles: seq<Oracle>, k: nat,
      rest: seq<Attribute>)
    requires k <= |oracles|
    ensures ParseFrom(base64, st, PayeeAttributes(oracles)[k..] + rest)
         == ParseFrom(base64, st.(unknown := CountUnknown(st.unknown, "payees", |oracles| - k)), rest)
    decreases |oracles| - k
  {
    var attrs := PayeeAttributes(oracles)[k..] + rest;
    if k == |oracles| {
      assert attrs == rest;
    } else {
      var payee := oracles[k].payee;
      var next := st.(unknown := CountUnknown(st.unknown, "payees", 1));
      ParsePayee(base64, st, payee);
      hide ParseOne, ParseFrom;
      assert attrs == [Attribute("payees", payee)] + (PayeeAttributes(oracles)[k + 1..] + rest);
      ParseCons(base64, st, Attribute("payees", payee), PayeeAttributes(oracles)[k + 1..] + rest);
      ParsePayees(base64, next, oracles, k + 1, rest);
      assert CountUnknown(next.unknown, "payees", |oracles| - k - 1)
           == CountUnknown(st.unknown, "payees", |oracles| - k);
    }
  }

  /** The single-valued attributes at the end of the event. */
  lemma ParseF(base64: Base64, st: ParseState, f: byte)
    requires "f" !in st.known
    ensures ParseOne(base64, st, Attribute("f", DecimalDigits(f)))
         == if f >= TWO_7 then Failure(Invalid("f"))
            else Success(st.(known := st.known + {"f"}, output := st.output.(f := f)))
  {
    ParsePrinted(f, TWO_7);
    hide ParseInt, DecimalDigits;
  }

  lemma ParseVersion(base64: Base64, st: ParseState, version: uint64)
    requires "offchain_config_version" !in st.known
    ensures ParseOne(base64, st, Attribute("offchain_config_version", DecimalDigits(version)))
         == if version >= TWO_63 then Failure(Invalid("offchain_config_version"))
            else Success(st.(known := st.known + {"offchain_config_version"},
                             output := st.output.(offchainConfigVersion := version)))
  {
    ParsePrinted(version, TWO_63);
    hide ParseInt, DecimalDigits;
  }

  lemma ParseBlobs(base64: Base64, st: ParseState, blob: seq<byte>)
    requires base64.Inverse()
    ensures "onchain_config" !in st.known ==>
              ParseOne(base64, st, Attribute("onchain_config", base64.encode(blob)))
              == Success(st.(known := st.known + {"onchain_config"}, output := st.output.(onchainConfig := blob)))
    ensures "offchain_config" !in st.known ==>
              ParseOne(base64, st, Attribute("offchain_config", base64.encode(blob)))
              == Success(st.(known := st.known + {"offchain_config"}, output := st.output.(offchainConfig := blob)))
  {
    assert base64.Restores(blob);
    hide ParseInt;
  }

  lemma ParseTail(base64: Base64, st: ParseState, f: byte, onchain: seq<byte>, version: uint64, offchain: seq<byte>)
    requires base64.Inverse()
    requires {"f", "onchain_config", "offchain_config_version", "offchain_config"} !! st.known
    ensures var tail := [Attribute("f", DecimalDigits(f)), Attribute("onchain_config", base64.encode(onchain)),
                         Attribute("offchain_config_version", DecimalDigits(version)),
                         Attribute("offchain_config", base64.encode(offchain))];
            ParseFrom(base64, st, tail)
            == if f >= TWO_7 then Failure(Invalid("f"))
               else if version >= TWO_63 then Failure(Invalid("offchain_config_version"))
               else Success(st.(known := st.known
                                + {"f", "onchain_config", "offchain_config_version", "offchain_config"},
                                output := st.output.(f := f, onchainConfig := onchain,
                                                     offchainConfigVersion := version, offchainConfig := offchain)))
  {
    var a := Attribute("f", DecimalDigits(f));
    var b := Attribute("onchain_config", base64.encode(onchain));
    var c := Attribute("offchain_config_version", DecimalDigits(version));
    var d := Attribute("offchain_config", base64.encode(offchain));
    assert [a, b, c, d][1..] == [b, c, d] && [b, c, d][1..] == [c, d] && [c, d][1..] == [d] && [d][1..] == [];
    ParseF(base64, st, f);
    hide ParseOne, DecimalDigits;
    if f < TWO_7 {
      var s1 := ParseOne(base64, st, a).value;
      ParseBlobs(base64, s1, onchain);
      var s2 := ParseOne(base64, s1, b).value;
      assert ParseFrom(base64, st, [a, b, c, d]) == ParseFrom(base64, s2, [c, d]);
      ParseVersion(base64, s2, version);
      if version < TWO_63 {
        var s3 := ParseOne(base64, s2, c).value;
        ParseBlobs(base64, s3, offchain);
        var s4 := ParseOne(base64, s3, d).value;
        assert ParseFrom(base64, s2, [c, d]) == ParseFrom(base64, s4, []);
        assert s4.known == st.known + {"f", "onchain_config", "offchain_config_version", "offchain_config"};
      }
    }
  }

  lemma ParseUnknown(base64: Base64, st: ParseState, key: string, value: seq<byte>)
    requires key == "_contract_address" || key == "previous_config_block_number"
    requires key !in st.unknown
    ensures ParseOne(base64, st, Attribute(key, value)) == Success(st.(unknown := st.unknown[key := 1]))
  {
  }

  lemma ParseDigest(base64: Base64, st: ParseState, digest: Hash32)
    requires "latest_config_digest" !in st.known
    ensures ParseOne(base64, st, Attribute("latest_config_digest", HexEncode(digest)))
         == Success(st.(known := st.known + {"latest_config_digest"}, output := st.output.(configDigest := digest)))
  {
    HexRoundTrip(digest);
  }

  lemma ParseCount(base64: Base64, st: ParseState, configCount: uint32)
    requires "config_count" !in st.known
    ensures ParseOne(base64, st, Attribute("config_count", DecimalDigits(configCount)))
         == Success(st.(known := st.known + {"config_count"}, output := st.output.(configCount := configCount)))
  {
    ParsePrinted(configCount, TWO_63);
  }

  /** The single-valued attributes at the start of the event, behind one the chain adds itself. */
  lemma ParseHead(base64: Base64, address: seq<byte>, previousBlock: nat, digest: Hash32, configCount: uint32,
      rest: seq<Attribute>)
    ensures var head := [Attribute("_contract_address", address),
                         Attribute("previous_config_block_number", DecimalDigits(previousBlock)),
                         Attribute("latest_config_digest", HexEncode(digest)),
                         Attribute("config_count", DecimalDigits(configCount))];
            ParseFrom(base64, INITIAL, head + rest)
            == ParseFrom(base64, ParseState({"latest_config_digest", "config_count"},
                                            map["_contract_address" := 1, "previous_config_block_number" := 1],
                                            ZERO_CONFIG.(configDigest := digest, configCount := configCount)), rest)
  {
    var a := Attribute("_contract_address", address);
    var b := Attribute("previous_config_block_number", DecimalDigits(previousBlock));
    var c := Attribute("latest_config_digest", HexEncode(digest));
    var d := Attribute("config_count", DecimalDigits(configCount));
    var s1 := INITIAL.(unknown := map["_contract_address" := 1]);
    var s2 := s1.(unknown := map["_contract_address" := 1, "previous_config_block_number" := 1]);
    var s3 := s2.(known := {"latest_config_digest"}, output := ZERO_CONFIG.(configDigest := digest));
    var s4 := s3.(known := {"latest_config_digest", "config_count"},
                  output := ZERO_CONFIG.(configDigest := digest, configCount := configCount));
    assert [a, b, c, d] + rest == [a] + ([b] + ([c] + ([d] + rest)));
    ParseUnknown(base64, INITIAL, a.key, a.value);
    ParseCons(base64, INITIAL, a, [b] + ([c] + ([d] + rest)));
    ParseUnknown(base64, s1, b.key, b.value);
    ParseCons(base64, s1, b, [c] + ([d] + rest));
    ParseDigest(base64, s2, digest);
    assert s2.known + {"latest_config_digest"} == s3.known;
    ParseCons(base64, s2, c, [d] + rest);
    ParseCount(base64, s3, configCount);
    assert s3.known + {"config_count"} == s4.known;
    ParseCons(base64, s3, d, rest);
  }

  function AfterLists(st: ParseState, oracles: seq<Oracle>): ParseState {
    ParseState(
      if |oracles| > 0 then st.known + {"signers"} + {"transmitters"} else st.known,
      CountUnknown(st.unknown, "payees", |oracles|),
      st.output.(signers := st.output.signers + Signers(oracles),
                 transmitters := st.output.transmitters + Transmitters(oracles)))
  }

  lemma ParseLists(base64: Base64, st: ParseState, oracles: seq<Oracle>, rest: seq<Attribute>)
    requires AllSigners32(oracles)
    ensures ParseFrom(base64, st, SignerAttributes(oracles)
                      + (TransmitterAttributes(oracles) + (PayeeAttributes(oracles) + rest)))
         == ParseFrom(base64, AfterLists(st, oracles), rest)
  {
    assert SignerAttributes(oracles)[0..] == SignerAttributes(oracles) && Signers(oracles)[0..] == Signers(oracles);
    assert TransmitterAttributes(oracles)[0..] == TransmitterAttributes(oracles)
        && Transmitters(oracles)[0..] == Transmitters(oracles);
    assert PayeeAttributes(oracles)[0..] == PayeeAttributes(oracles);
    ParseSigners(base64, st, oracles, 0, TransmitterAttributes(oracles) + (PayeeAttributes(oracles) + rest));
    var s1 := st.(known := if |oracles| > 0 then st.known + {"signers"} else st.known,
                  output := st.output.(signers := st.output.signers + Signers(oracles)));
    ParseTransmitters(base64, s1, oracles, 0, PayeeAttributes(oracles) + rest);
    var s2 := s1.(known := if |oracles| > 0 then s1.known + {"transmitters"} else s1.known,
                  output := s1.output.(transmitters := s1.output.transmitters + Transmitters(oracles)));
    ParsePayees(base64, s2, oracles, 0, rest);
  }

  /**
   The node recovers the emitted configuration, with signers and transmitters in order, exactly
   when there is an oracle, f fits a signed byte and the version fits a signed 64-bit number.
   */
  lemma EventRoundTrip(
      base64: Base64, address: seq<byte>, previousBlock: nat, digest: Hash32, configCount: uint32, oracles: seq<Oracle>,
      f: byte, onchain: seq<byte>, version: uint64, offchain: seq<byte>)
    requires base64.Inverse() && AllSigners32(oracles)
    ensures var attrs := [Attribute("_contract_address", address)]
              + SetConfigAttributes(base64, previousBlock, digest, configCount, oracles, f, onchain, version, offchain);
            && (Parsed(base64, attrs).Success? <==> |oracles| > 0 && f < TWO_7 && version < TWO_63)
            && (Parsed(base64, attrs).Success? ==>
                  Parsed(base64, attrs).value.output
                  == ContractConfig(digest, configCount, Signers(oracles), Transmitters(oracles), f, onchain, version,
                                    offchain))
  {
    var tail := [Attribute("f", DecimalDigits(f)), Attribute("onchain_config", base64.encode(onchain)),
                 Attribute("offchain_config_version", DecimalDigits(version)),
                 Attribute("offchain_config", base64.encode(offchain))];
    var lists := SignerAttributes(oracles) + (TransmitterAttributes(oracles) + (PayeeAttributes(oracles) + tail));
    var head := [Attribute("_contract_address", address),
                 Attribute("previous_config_block_number", DecimalDigits(previousBlock)),
                 Attribute("latest_config_digest", HexEncode(digest)),
                 Attribute("config_count", DecimalDigits(configCount))];
    assert [Attribute("_contract_address", address)]
      + SetConfigAttributes(base64, previousBlock, digest, configCount, oracles, f, onchain, version, offchain)
        == head + lists;
    var s0 := ParseState({"latest_config_digest", "config_count"},
                         map["_contract_address" := 1, "previous_config_block_number" := 1],
                         ZERO_CONFIG.(configDigest := digest, configCount := configCount));
    ParseHead(base64, address, previousBlock, digest, configCount, lists);
    ParseLists(base64, s0, oracles, tail);
    var s3 := AfterLists(s0, oracles);
    assert [] + Signers(oracles) == Signers(oracles) && [] + Transmitters(oracles) == Transmitters(oracles);
    KeysAreDistinct(s3.known, |oracles| > 0);
    ParseTail(base64, s3, f, onchain, version, offchain);
  }

  lemma KeysAreDistinct(known: set<string>, any: bool)
    requires known == if any then {"latest_config_digest", "config_count"} + {"signers"} + {"transmitters"}
                      else {"latest_config_digest", "config_count"}
    ensures {"f", "onchain_config", "offchain_config_version", "offchain_config"} !! known
    ensures |known + {"f", "onchain_config", "offchain_config_version", "offchain_config"}| == if any then 8 else 6
  {
    SixKeys();
    EightKeys();
    var tail := {"f", "onchain_config", "offchain_config_version", "offchain_config"};
    if any {
      assert known + tail == {"latest_config_digest", "config_count", "signers", "transmitters", "f", "onchain_config",
                              "offchain_config_version", "offchain_config"};
    } else {
      assert known + tail == {"latest_config_digest", "config_count", "f", "onchain_config",
                              "offchain_config_version", "offchain_config"};
    }
  }

  lemma SixKeys()
    ensures |{"latest_config_digest", "config_count", "f", "onchain_config", "offchain_config_version",
              "offchain_config"}| == 6
  {
  }

  lemma EightKeys()
    ensures |{"latest_config_digest", "config_count", "signers", "transmitters", "f", "onchain_config",
              "offchain_config_version", "offchain_config"}| == 8
  {
    SixKeys();
    assert {"latest_config_digest", "config_count", "signers", "transmitters", "f", "onchain_config",
            "offchain_config_version", "offchain_config"}
        == {"latest_config_digest", "config_count", "f", "onchain_config", "offchain_config_version", "offchain_config"}
           + {"signers"} + {"transmitters"};
  }
}
