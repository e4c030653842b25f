/**
 * The cryptographically secure random source, passed in rather than drawn from the
 * runtime. `PasswordUtil::generateRandomBytes(n)` (and `Util::generateRandomBytes(n)`
 * in the older revisions) is taken to return its n random bytes as 2n lower-case
 * hexadecimal characters, which is what makes a recovery code 20 characters long.
 */
module Randomness {

  type Byte = b: int | 0 <= b < 256

  const HEX_DIGITS: string := "0123456789abcdef"

  /** n consecutive bytes of the stream, starting at position `from`. */
  function Window(stream: nat -> Byte, from: nat, n: nat): (bs: seq<Byte>)
    ensures |bs| == n
    ensures forall i :: 0 <= i < n ==> bs[i] == stream(from + i)
  {
    seq(n, i requires 0 <= i < n => stream(from + i))
  }

  /** A lower-case hexadecimal digit, as `bin2hex` writes them. */
  predicate IsHexDigit(c: char) {
    '0' <= c <= '9' || 'a' <= c <= 'f'
  }

  /** A PHP string whose characters are all single bytes. */
  predicate IsByteString(s: string) {
    forall i :: 0 <= i < |s| ==> s[i] as int < 256
  }

  /** `bin2hex`: two lower-case hexadecimal digits per byte, high nibble first. */
  function Hex(bs: seq<Byte>): (s: string)
    ensures |s| == 2 * |bs|
    ensures forall i :: 0 <= i < |s| ==> IsHexDigit(s[i])
    ensures IsByteString(s)
  {
    if bs == [] then "" else [HEX_DIGITS[bs[0] / 16], HEX_DIGITS[bs[0] % 16]] + Hex(bs[1..])
  }

  /** The bytes of a byte string. */
  function Bytes(s: string): (bs: seq<Byte>)
    requires IsByteString(s)
    ensures |bs| == |s|
    ensures forall i :: 0 <= i < |s| ==> bs[i] == s[i] as int
  {
    seq(|s|, i requires 0 <= i < |s| => s[i] as int as Byte)
  }

  /** An endless stream of random bytes, read front to back. */
  class RandomSource {
    const stream: nat -> Byte
    /** How many bytes have been handed out so far. */
    var drawn: nat

    constructor (stream: nat -> Byte)
      ensures this.stream == stream && drawn == 0
    {
      this.stream := stream;
      drawn := 0;
    }

    /** `generateRandomBytes(n)`: the next n bytes of the stream, as hexadecimal text. */
    method GenerateRandomBytes(n: nat) returns (s: string)
      modifies this
      ensures s == Hex(Window(stream, old(drawn), n))
      ensures drawn == old(drawn) + n
    {
      s := Hex(Window(stream, drawn, n));
      drawn := drawn + n;
    }
  }
}
