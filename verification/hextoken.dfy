/** Verification tokens: `crypto.randomBytes(20).toString('hex')`. The random
    bytes are an input; the model is the lower-case hexadecimal encoding,
    two digits per byte, high nibble first. Distinct byte strings give
    distinct tokens, which is what makes two challenges issued to the same
    user independent. */
module HexToken {

  /** An octet of `crypto.randomBytes`. */
  type byte = x: int | 0 <= x < 256

  const Digits: string := "0123456789abcdef"

  /** The number of random bytes drawn per token. */
  const TokenBytes: nat := 20

  /** A lower-case hexadecimal digit. */
  predicate IsHexChar(c: char)
  {
    '0' <= c <= '9' || 'a' <= c <= 'f'
  }

  function HexDigit(n: int): (c: char)
    requires 0 <= n < 16
    ensures IsHexChar(c)
  {
    Digits[n]
  }

  function ByteHex(b: byte): string
  {
    [HexDigit(b / 16), HexDigit(b % 16)]
  }

  /** `Buffer.toString('hex')`. */
  function Encode(bytes: seq<byte>): (t: string)
    ensures |t| == 2 * |bytes|
    ensures forall k :: 0 <= k < |t| ==> IsHexChar(t[k])
  {
    if |bytes| == 0 then [] else ByteHex(bytes[0]) + Encode(bytes[1..])
  }

  /** Value of a lower-case hexadecimal digit. */
  function DigitValue(c: char): (v: int)
    ensures 0 <= v < 16
  {
    if '0' <= c <= '9' then c as int - '0' as int
    else if 'a' <= c <= 'f' then c as int - 'a' as int + 10
    else 0
  }

  /** Reads a token back into the bytes it encodes. */
  function Decode(t: string): (bytes: seq<byte>)
    requires |t| % 2 == 0
    ensures |bytes| == |t| / 2
  {
    if |t| == 0 then []
    else [DigitValue(t[0]) * 16 + DigitValue(t[1])] + Decode(t[2..])
  }

  lemma DigitRoundTrip(n: int)
    requires 0 <= n < 16
    ensures DigitValue(HexDigit(n)) == n
  {
  }

  lemma ByteRoundTrip(b: byte)
    ensures DigitValue(ByteHex(b)[0]) * 16 + DigitValue(ByteHex(b)[1]) == b
  {
    var hi, lo := b / 16, b % 16;
    DigitRoundTrip(hi);
    DigitRoundTrip(lo);
  }

  lemma {:induction false} RoundTrip(bytes: seq<byte>)
    ensures Decode(Encode(bytes)) == bytes
  {
    if |bytes| > 0 {
      var h, rest := ByteHex(bytes[0]), Encode(bytes[1..]);
      var t := h + rest;
      assert Encode(bytes) == t;
      assert t[0] == h[0] && t[1] == h[1] && t[2..] == rest;
      ByteRoundTrip(bytes[0]);
      RoundTrip(bytes[1..]);
      assert Decode(t) == [bytes[0]] + Decode(rest);
      assert bytes == [bytes[0]] + bytes[1..];
    }
  }

  /** Different random draws never produce the same token. */
  lemma EncodeInjective(a: seq<byte>, b: seq<byte>)
    requires a != b
    ensures Encode(a) != Encode(b)
  {
    RoundTrip(a);
    RoundTrip(b);
  }
}
