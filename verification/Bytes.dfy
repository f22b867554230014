/**
 Machine integers as ranges of the mathematical integers, and the text and byte encodings
 that the contract and the node share: big-endian integers, two's complement, lower-case
 hexadecimal and decimal.
 */
module Bytes {
  import opened Wrappers

  const TWO_7: int := 0x80
  const TWO_8: int := 0x100
  const TWO_16: int := 0x1_0000
  const TWO_31: int := 0x8000_0000
  const TWO_32: int := 0x1_0000_0000
  const TWO_63: int := 0x8000_0000_0000_0000
  const TWO_64: int := 0x1_0000_0000_0000_0000
  const TWO_127: int := 0x8000_0000_0000_0000_0000_0000_0000_0000
  const TWO_128: int := 0x1_0000_0000_0000_0000_0000_0000_0000_0000

  type byte = x: int | 0 <= x < TWO_8
  type uint16 = x: int | 0 <= x < TWO_16
  type uint32 = x: int | 0 <= x < TWO_32
  type uint64 = x: int | 0 <= x < TWO_64
  type uint128 = x: int | 0 <= x < TWO_128
  type int128 = x: int | -TWO_127 <= x < TWO_127

  /** A 32-byte digest. */
  type Hash32 = s: seq<byte> | |s| == 32 witness seq(32, _ => 0)

  // ---------- big-endian integers ----------

  function Pow256(w: nat): (p: nat)
    ensures p > 0
  {
    if w == 0 then 1 else 256 * Pow256(w - 1)
  }

  /** The w low-order bytes of n, most significant byte first. */
  function Be(n: nat, w: nat): (r: seq<byte>)
    ensures |r| == w
  {
    if w == 0 then [] else Be(n / 256, w - 1) + [n % 256]
  }

  function FromBe(s: seq<byte>): nat {
    if |s| == 0 then 0 else FromBe(s[..|s| - 1]) * 256 + s[|s| - 1]
  }

  lemma {:induction false} FromBeBound(s: seq<byte>)
    ensures FromBe(s) < Pow256(|s|)
  {
    if |s| > 0 {
      FromBeBound(s[..|s| - 1]);
    }
  }

  lemma {:induction false} BeRoundTrip(n: nat, w: nat)
    requires n < Pow256(w)
    ensures FromBe(Be(n, w)) == n
  {
    if w > 0 {
      BeRoundTrip(n / 256, w - 1);
      assert Be(n, w)[..w - 1] == Be(n / 256, w - 1);
    }
  }

  lemma {:induction false} FromBeRoundTrip(s: seq<byte>)
    ensures Be(FromBe(s), |s|) == s
  {
    if |s| > 0 {
      FromBeRoundTrip(s[..|s| - 1]);
      assert FromBe(s) / 256 == FromBe(s[..|s| - 1]);
      assert s == s[..|s| - 1] + [s[|s| - 1]];
    }
  }

  lemma DivDiv(n: nat, p: nat)
    requires p > 0
    ensures n / 256 / p == n / (256 * p)
  {
    var q := n / 256 / p;
    assert 256 * (q * p) <= n < 256 * (q * p) + 256 * p;
    assert 256 * (q * p) == q * (256 * p);
    QuotientIs(n, 256 * p, q);
  }

  lemma {:induction false} MultiplesApart(a: nat, b: nat, d: nat)
    requires a < b
    ensures a * d + d <= b * d
  {
    assert b * d == (b - 1) * d + d;
    if b > a + 1 {
      MultiplesApart(a, b - 1, d);
    }
  }

  lemma QuotientIs(n: nat, d: nat, q: nat)
    requires d > 0 && q * d <= n < q * d + d
    ensures n / d == q
  {
    var k := n / d;
    assert k * d <= n < k * d + d;
    if k < q {
      MultiplesApart(k, q, d);
    } else if k > q {
      MultiplesApart(q, k, d);
    }
  }

  /** The byte k places from the end is the digit of 256^k. */
  lemma {:induction false} BeDigit(n: nat, w: nat, k: nat)
    requires k < w
    ensures Be(n, w)[w - 1 - k] == n / Pow256(k) % 256
  {
    if k > 0 {
      BeDigit(n / 256, w - 1, k - 1);
      DivDiv(n, Pow256(k - 1));
    }
  }

  lemma Pow256Values()
    ensures Pow256(1) == TWO_8
    ensures Pow256(4) == TWO_32
    ensures Pow256(8) == TWO_64
    ensures Pow256(16) == TWO_128
  {
    assert Pow256(2) == TWO_16;
    assert Pow256(4) == TWO_32;
    assert Pow256(6) == 0x1_0000_0000_0000;
    assert Pow256(8) == TWO_64;
    assert Pow256(10) == 0x1_0000_0000_0000_0000_0000;
    assert Pow256(12) == 0x1_0000_0000_0000_0000_0000_0000;
    assert Pow256(14) == 0x1_0000_0000_0000_0000_0000_0000_0000;
    assert Pow256(16) == TWO_128;
  }

  function U32FromBe(raw: seq<byte>): uint32
    requires |raw| == 4
  {
    FromBeBound(raw);
    Pow256Values();
    FromBe(raw)
  }

  function U128FromBe(raw: seq<byte>): uint128
    requires |raw| == 16
  {
    FromBeBound(raw);
    Pow256Values();
    FromBe(raw)
  }

  /** Encodings of equal width are equal only for equal numbers. */
  lemma BeInjective(m: nat, n: nat, w: nat)
    requires m < Pow256(w) && n < Pow256(w)
    requires Be(m, w) == Be(n, w)
    ensures m == n
  {
    BeRoundTrip(m, w);
    BeRoundTrip(n, w);
  }

  // ---------- two's complement ----------

  function ToTwos(x: int128): (n: uint128) {
    if x < 0 then x + TWO_128 else x
  }

  function FromTwos(n: uint128): (x: int128) {
    if n >= TWO_127 then n - TWO_128 else n
  }

  // ---------- hexadecimal ----------

  function HexDigit(n: int): byte
    requires 0 <= n < 16
  {
    if n < 10 then '0' as int + n else 'a' as int + (n - 10)
  }

  function FromHexDigit(c: byte): Option<int> {
    if '0' as int <= c <= '9' as int then Some(c - '0' as int)
    else if 'a' as int <= c <= 'f' as int then Some(c - 'a' as int + 10)
    else if 'A' as int <= c <= 'F' as int then Some(c - 'A' as int + 10)
    else None
  }

  function HexEncode(s: seq<byte>): (t: seq<byte>)
    ensures |t| == 2 * |s|
  {
    if |s| == 0 then []
    else [HexDigit(s[0] / 16), HexDigit(s[0] % 16)] + HexEncode(s[1..])
  }

  /** Accepts upper and lower case, and refuses odd lengths and other characters. */
  function HexDecode(t: seq<byte>): Option<seq<byte>> {
    if |t| == 0 then Some([])
    else if |t| == 1 then None
    else
      match (FromHexDigit(t[0]), FromHexDigit(t[1]), HexDecode(t[2..]))
      case (Some(hi), Some(lo), Some(rest)) =>
        (assert 0 <= hi < 16 && 0 <= lo < 16; Some([16 * hi + lo] + rest))
      case _ => None
  }

  lemma {:induction false} HexRoundTrip(s: seq<byte>)
    ensures HexDecode(HexEncode(s)) == Some(s)
  {
    if |s| > 0 {
      HexRoundTrip(s[1..]);
      assert HexEncode(s)[2..] == HexEncode(s[1..]);
      assert [s[0]] + s[1..] == s;
    }
  }

  // ---------- decimal ----------

  function DecimalDigits(n: nat): (t: seq<byte>)
    ensures |t| > 0
  {
    if n < 10 then ['0' as int + n] else DecimalDigits(n / 10) + ['0' as int + n % 10]
  }

  function FromDecimalDigits(t: seq<byte>): Option<nat> {
    if |t| == 0 then Some(0)
    else
      var last := t[|t| - 1];
      match FromDecimalDigits(t[..|t| - 1])
      case Some(n) => if '0' as int <= last <= '9' as int then Some(10 * n + last - '0' as int) else None
      case None => None
  }

  /** Base-10 parsing with an optional sign, into a signed integer of the given bound. */
  function ParseInt(t: seq<byte>, bound: int): Option<int> {
    var negative := |t| > 0 && t[0] == '-' as int;
    var digits := if negative || (|t| > 0 && t[0] == '+' as int) then t[1..] else t;
    if |digits| == 0 then None
    else
      match FromDecimalDigits(digits)
      case Some(n) =>
        var magnitude: int := n;
        var value: int := if negative then 0 - magnitude else magnitude;
        if 0 - bound <= value < bound then Some(value) else None
      case None => None
  }

  lemma {:induction false} DecimalRoundTrip(n: nat)
    ensures FromDecimalDigits(DecimalDigits(n)) == Some(n)
    ensures forall i :: 0 <= i < |DecimalDigits(n)| ==> '0' as int <= DecimalDigits(n)[i] <= '9' as int
  {
    var t := DecimalDigits(n);
    if n >= 10 {
      DecimalRoundTrip(n / 10);
      assert t[..|t| - 1] == DecimalDigits(n / 10);
    } else {
      assert t[..|t| - 1] == [];
      assert FromDecimalDigits([]) == Some(0);
    }
  }

  /** A printed natural number parses back exactly when it is below the bound. */
  lemma ParsePrinted(n: nat, bound: nat)
    ensures ParseInt(DecimalDigits(n), bound) == if n < bound then Some(n) else None
  {
    DecimalRoundTrip(n);
  }
}
