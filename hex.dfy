/** Go's `encoding/hex`: two lower-case hexadecimal digits per byte, high nibble first. */
module Hex {
  import opened Wrappers

  /** A lower-case hexadecimal digit for a nibble. */
  function HexDigit(v: int): (c: char)
    requires 0 <= v < 16
    ensures IsHexDigit(c)
  {
    if v < 10 then ('0' as int + v) as char else ('a' as int + (v - 10)) as char
  }

  predicate IsHexDigit(c: char) {
    '0' <= c <= '9' || 'a' <= c <= 'f'
  }

  /** The value of a lower-case hexadecimal digit. */
  function NibbleOf(c: char): (v: int)
    requires IsHexDigit(c)
    ensures 0 <= v < 16 && HexDigit(v) == c
  {
    if c <= '9' then c as int - '0' as int else c as int - 'a' as int + 10
  }

  /** `hex.EncodeToString`. */
  function Encode(b: seq<byte>): (s: string)
    ensures |s| == 2 * |b|
    ensures forall i :: 0 <= i < |s| ==> IsHexDigit(s[i])
  {
    if b == [] then [] else [HexDigit(b[0] / 16), HexDigit(b[0] % 16)] + Encode(b[1..])
  }

  /** `hex.DecodeString` on lower-case input of even length, the partner of `Encode`. */
  function Decode(s: string): seq<byte>
    requires |s| % 2 == 0
    requires forall i :: 0 <= i < |s| ==> IsHexDigit(s[i])
  {
    if s == [] then [] else [NibbleOf(s[0]) * 16 + NibbleOf(s[1])] + Decode(s[2..])
  }

  /** Decoding the hexadecimal text gives back the bytes. */
  lemma {:induction false} DecodeEncode(b: seq<byte>)
    ensures Decode(Encode(b)) == b
  {
    if b != [] {
      var s := Encode(b);
      assert s[2..] == Encode(b[1..]);
      assert NibbleOf(s[0]) == b[0] / 16 && NibbleOf(s[1]) == b[0] % 16;
      DecodeEncode(b[1..]);
      assert b == [b[0]] + b[1..];
    }
  }
}
