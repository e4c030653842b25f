/**
 * Base32 encoding as section 6 of RFC 4648 defines it: the alphabet A-Z, 2-7, five
 * input bytes (40 bits) per group of eight symbols, most significant bits first, and a
 * final partial group right-padded with zero bits and completed with '='. This is what
 * the plugin's `Base2n(5, 'ABCDEFGHIJKLMNOPQRSTUVWXYZ234567', false, true, true)` encoder
 * produces (rightPadFinalBits and padFinalGroup both on).
 */
module Base32 {
  import opened Randomness

  const ALPHABET: string := "ABCDEFGHIJKLMNOPQRSTUVWXYZ234567"
  const PAD: char := '='

  /** 32^7, 32^6, ..., 32^0: the weight of each of the eight symbols of a group. */
  const WEIGHTS: seq<nat> := [34359738368, 1073741824, 33554432, 1048576, 32768, 1024, 32, 1]

  /** The 40-bit big-endian value of a group of five bytes. */
  function GroupValue(g: seq<Byte>): nat
    requires |g| == 5
  {
    var b: seq<int> := g;
    (((b[0] * 256 + b[1]) * 256 + b[2]) * 256 + b[3]) * 256 + b[4]
  }

  /** The i-th symbol (0 is the most significant) of a group whose value is v. */
  function Symbol(v: nat, i: nat): char
    requires i < 8
  {
    ALPHABET[(v / WEIGHTS[i]) % 32]
  }

  /** The eight symbols of one full group. */
  function EncodeGroup(g: seq<Byte>): (s: string)
    requires |g| == 5
    ensures |s| == 8
    ensures forall c :: c in s ==> c in ALPHABET
  {
    seq(8, i requires 0 <= i < 8 => Symbol(GroupValue(g), i))
  }

  /** How many symbols a final group of n bytes (1 to 4) yields before its padding. */
  function FinalSymbols(n: nat): (k: nat)
    requires 1 <= n <= 4
    ensures k == (8 * n + 4) / 5
  {
    [0, 2, 4, 5, 7][n]
  }

  function Zeros(n: nat): (z: seq<Byte>)
    ensures |z| == n
  {
    seq(n, _ => 0)
  }

  /** The encoding of bs, padding included. */
  function Encode(bs: seq<Byte>): (s: string)
    ensures |s| == (|bs| + 4) / 5 * 8
    ensures forall c :: c in s ==> c in ALPHABET || c == PAD
    decreases |bs|
  {
    if |bs| >= 5 then EncodeGroup(bs[..5]) + Encode(bs[5..])
    else if bs == [] then ""
    else
      var g := EncodeGroup(bs + Zeros(5 - |bs|));
      var k := FinalSymbols(|bs|);
      g[..k] + seq(8 - k, _ => PAD)
  }

  /**
   * Ten or more bytes: the first sixteen symbols are the two full groups of the first
   * ten bytes, so they hold no padding and do not depend on any later byte.
   */
  lemma {:induction false} EncodePrefix(bs: seq<Byte>)
    requires |bs| >= 10
    ensures |Encode(bs)| >= 16
    ensures Encode(bs)[..16] == EncodeGroup(bs[..5]) + EncodeGroup(bs[5..10])
  {
    var rest := bs[5..];
    assert Encode(bs) == EncodeGroup(bs[..5]) + Encode(rest);
    assert Encode(rest) == EncodeGroup(rest[..5]) + Encode(rest[5..]);
    assert rest[..5] == bs[5..10];
  }


  /** The test vectors of section 10 of RFC 4648, one per size of the final group. */
  lemma RfcTestVectors()
    ensures Encode([]) == ""
    ensures Encode([102]) == "MY======"
    ensures Encode([102, 111]) == "MZXQ===="
    ensures Encode([102, 111, 111]) == "MZXW6==="
    ensures Encode([102, 111, 111, 98]) == "MZXW6YQ="
    ensures Encode([102, 111, 111, 98, 97]) == "MZXW6YTB"
    ensures Encode([102, 111, 111, 98, 97, 114]) == "MZXW6YTBOI======"
  {
    VectorF();
    VectorFo();
    VectorFoo();
    VectorFoob();
    VectorFooba();
    VectorFoobar();
  }

  /** Example for RfcTestVectors: the encoding of "f" (a single worked example). */
  lemma VectorF()
    ensures Encode([102]) == "MY======"
  {
    var g0: seq<Byte> := [102, 0, 0, 0, 0];
    assert [102] + Zeros(4) == g0;
    var v := GroupValue(g0);
    assert v == 438086664192;
    assert v / WEIGHTS[0] == 12 && v / WEIGHTS[1] == 408;
    PrefixBySymbols(g0, "MY");
  }

  /** Example for RfcTestVectors: the encoding of "fo" (a single worked example). */
  lemma VectorFo()
    ensures Encode([102, 111]) == "MZXQ===="
  {
    var g0: seq<Byte> := [102, 111, 0, 0, 0];
    assert [102, 111] + Zeros(3) == g0;
    var v := GroupValue(g0);
    assert v == 439948935168;
    assert v / WEIGHTS[0] == 12 && v / WEIGHTS[1] == 409;
    assert v / WEIGHTS[2] == 13111 && v / WEIGHTS[3] == 419568;
    PrefixBySymbols(g0, "MZXQ");
  }

  /** Example for RfcTestVectors: the encoding of "foo" (a single worked example). */
  lemma VectorFoo()
    ensures Encode([102, 111, 111]) == "MZXW6==="
  {
    var g0: seq<Byte> := [102, 111, 111, 0, 0];
    assert [102, 111, 111] + Zeros(2) == g0;
    var v := GroupValue(g0);
    assert v == 439956209664;
    FooSymbols(v);
    PrefixBySymbols(g0, "MZXW6");
  }

  lemma FooSymbols(v: nat)
    requires v == 439956209664
    ensures Symbol(v, 0) == 'M' && Symbol(v, 1) == 'Z' && Symbol(v, 2) == 'X' && Symbol(v, 3) == 'W'
    ensures Symbol(v, 4) == '6'
  {
    assert v / WEIGHTS[0] == 12 && v / WEIGHTS[1] == 409;
    assert v / WEIGHTS[2] == 13111 && v / WEIGHTS[3] == 419574;
    assert v / WEIGHTS[4] == 13426398;
  }

  /** Example for RfcTestVectors: the encoding of "foob" (a single worked example). */
  lemma VectorFoob()
    ensures Encode([102, 111, 111, 98]) == "MZXW6YQ="
  {
    var g0: seq<Byte> := [102, 111, 111, 98, 0];
    assert [102, 111, 111, 98] + Zeros(1) == g0;
    var v := GroupValue(g0);
    assert v == 439956234752;
    FoobSymbols(v);
    PrefixBySymbols(g0, "MZXW6YQ");
  }

  lemma FoobSymbols(v: nat)
    requires v == 439956234752
    ensures Symbol(v, 0) == 'M' && Symbol(v, 1) == 'Z' && Symbol(v, 2) == 'X' && Symbol(v, 3) == 'W'
    ensures Symbol(v, 4) == '6' && Symbol(v, 5) == 'Y' && Symbol(v, 6) == 'Q'
  {
    assert v / WEIGHTS[0] == 12 && v / WEIGHTS[1] == 409;
    assert v / WEIGHTS[2] == 13111 && v / WEIGHTS[3] == 419574;
    assert v / WEIGHTS[4] == 13426398 && v / WEIGHTS[5] == 429644760;
    assert v / WEIGHTS[6] == 13748632336;
  }

  /** The first |s| symbols of a group are the ones its value spells. */
  lemma PrefixBySymbols(g: seq<Byte>, s: string)
    requires |g| == 5 && |s| <= 8
    requires forall i :: 0 <= i < |s| ==> Symbol(GroupValue(g), i) == s[i]
    ensures EncodeGroup(g)[..|s|] == s
  {
  }

  /** Example for RfcTestVectors: the encoding of "fooba" (a single worked example). */
  lemma VectorFooba()
    ensures Encode([102, 111, 111, 98, 97]) == "MZXW6YTB"
  {
    var bs: seq<Byte> := [102, 111, 111, 98, 97];
    assert bs[..5] == bs && bs[5..] == [];
    GroupFooba();
  }

  /** Example for RfcTestVectors: the encoding of "foobar" (a single worked example). */
  lemma VectorFoobar()
    ensures Encode([102, 111, 111, 98, 97, 114]) == "MZXW6YTBOI======"
  {
    var bs: seq<Byte> := [102, 111, 111, 98, 97, 114];
    assert bs[..5] == [102, 111, 111, 98, 97] && bs[5..] == [114];
    GroupFooba();
    VectorR();
  }

  /** The one full group of "fooba". */
  lemma GroupFooba()
    ensures EncodeGroup([102, 111, 111, 98, 97]) == "MZXW6YTB"
  {
    var g0: seq<Byte> := [102, 111, 111, 98, 97];
    var v := GroupValue(g0);
    assert v == 439956234849;
    FirstSymbolsFooba(v);
    LastSymbolsFooba(v);
    GroupBySymbols(g0, "MZXW6YTB");
  }

  lemma FirstSymbolsFooba(v: nat)
    requires v == 439956234849
    ensures Symbol(v, 0) == 'M' && Symbol(v, 1) == 'Z' && Symbol(v, 2) == 'X' && Symbol(v, 3) == 'W'
  {
    assert v / WEIGHTS[0] == 12;
    assert v / WEIGHTS[1] == 409;
    assert v / WEIGHTS[2] == 13111;
    assert v / WEIGHTS[3] == 419574;
  }

  lemma LastSymbolsFooba(v: nat)
    requires v == 439956234849
    ensures Symbol(v, 4) == '6' && Symbol(v, 5) == 'Y' && Symbol(v, 6) == 'T' && Symbol(v, 7) == 'B'
  {
    assert v / WEIGHTS[4] == 13426398;
    assert v / WEIGHTS[5] == 429644760;
    assert v / WEIGHTS[6] == 13748632339;
    assert v / WEIGHTS[7] == 439956234849;
  }

  /** A group encodes to the eight symbols its value spells. */
  lemma GroupBySymbols(g: seq<Byte>, s: string)
    requires |g| == 5 && |s| == 8
    requires forall i :: 0 <= i < 8 ==> Symbol(GroupValue(g), i) == s[i]
    ensures EncodeGroup(g) == s
  {
  }

  /** Example for VectorFoobar: the encoding of "r", the final group of "foobar". */
  lemma VectorR()
    ensures Encode([114]) == "OI======"
  {
    var g1: seq<Byte> := [114, 0, 0, 0, 0];
    assert [114] + Zeros(4) == g1;
    var v := GroupValue(g1);
    assert v == 489626271744;
    assert v / WEIGHTS[0] == 14 && v / WEIGHTS[1] == 456;
    PrefixBySymbols(g1, "OI");
  }
}
