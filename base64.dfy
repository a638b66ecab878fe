/**
 * Base64 as Go's `encoding/base64` implements it for `StdEncoding` (the
 * alphabet of section 4 of RFC 4648) and `URLEncoding` (the URL- and
 * filename-safe alphabet of section 5), both padded with '='.
 *
 * Decoding follows Go's (non-strict) decoder: carriage returns and line
 * feeds are skipped, the input must then be whole groups of four, padding
 * may only close the last group, and unused low bits of the last character
 * are ignored.
 */
module Base64 {
  import opened Wrappers

  /** The six-bit value one base64 character stands for. */
  type sextet = x: int | 0 <= x < 64

  datatype Alphabet = Std | Url

  const Pad: char := '='

  /** The character for a six-bit value: A-Z, a-z, 0-9, then "+/" (Std) or "-_" (Url). */
  function CharOf(a: Alphabet, v: sextet): char {
    if v < 26 then ('A' as int + v) as char
    else if v < 52 then ('a' as int + (v - 26)) as char
    else if v < 62 then ('0' as int + (v - 52)) as char
    else if v == 62 then (if a == Std then '+' else '-')
    else (if a == Std then '/' else '_')
  }

  /** The six-bit value of a character, or None for a character outside the alphabet. */
  function ValueOf(a: Alphabet, c: char): Option<sextet> {
    if 'A' <= c <= 'Z' then Some(c as int - 'A' as int)
    else if 'a' <= c <= 'z' then Some(c as int - 'a' as int + 26)
    else if '0' <= c <= '9' then Some(c as int - '0' as int + 52)
    else if c == (if a == Std then '+' else '-') then Some(62)
    else if c == (if a == Std then '/' else '_') then Some(63)
    else None
  }

  predicate InAlphabet(a: Alphabet, c: char) {
    ValueOf(a, c).Some?
  }

  /** The alphabet is a bijection between six-bit values and its 64 characters. */
  lemma CharOfValueOf(a: Alphabet, v: sextet)
    ensures ValueOf(a, CharOf(a, v)) == Some(v)
  {
  }

  /** Neither alphabet holds the padding character, nor the '.' that joins an envelope's parts. */
  lemma AlphabetExcludes(a: Alphabet, c: char)
    requires InAlphabet(a, c)
    ensures c != Pad && c != '.' && c != '\r' && c != '\n'
  {
  }

  /** The URL-safe alphabet holds neither '+' nor '/'. */
  lemma UrlAlphabetExcludes(c: char)
    requires InAlphabet(Url, c)
    ensures c != '+' && c != '/'
  {
  }

  /** Three bytes as four characters. */
  function EncodeTriple(a: Alphabet, b0: byte, b1: byte, b2: byte): string {
    [CharOf(a, b0 / 4), CharOf(a, (b0 % 4) * 16 + b1 / 16),
     CharOf(a, (b1 % 16) * 4 + b2 / 64), CharOf(a, b2 % 64)]
  }

  /** The last one or two bytes, padded to four characters. */
  function EncodeTail(a: Alphabet, b: seq<byte>): string
    requires 1 <= |b| <= 2
  {
    if |b| == 1 then [CharOf(a, b[0] / 4), CharOf(a, (b[0] % 4) * 16), Pad, Pad]
    else [CharOf(a, b[0] / 4), CharOf(a, (b[0] % 4) * 16 + b[1] / 16), CharOf(a, (b[1] % 16) * 4), Pad]
  }

  /** `EncodeToString`: every three bytes become four characters; a short last group is padded. */
  function Encode(a: Alphabet, b: seq<byte>): (s: string)
    ensures |s| == 4 * ((|b| + 2) / 3)
    decreases |b|
  {
    if |b| == 0 then []
    else if |b| < 3 then EncodeTail(a, b)
    else EncodeTriple(a, b[0], b[1], b[2]) + Encode(a, b[3..])
  }

  /** The number of pads closing the encoding of `n` bytes. */
  function Pads(n: nat): nat {
    if n % 3 == 0 then 0 else 3 - n % 3
  }

  /** `s` is alphabet characters followed by exactly `pads` padding characters. */
  predicate Padded(a: Alphabet, s: string, pads: nat) {
    && pads <= |s|
    && (forall i :: 0 <= i < |s| - pads ==> InAlphabet(a, s[i]))
    && (forall i :: |s| - pads <= i < |s| ==> s[i] == Pad)
  }

  /** A full group is four alphabet characters. */
  lemma TripleInAlphabet(a: Alphabet, b0: byte, b1: byte, b2: byte)
    ensures forall i :: 0 <= i < 4 ==> InAlphabet(a, EncodeTriple(a, b0, b1, b2)[i])
  {
    CharOfValueOf(a, b0 / 4);
    CharOfValueOf(a, (b0 % 4) * 16 + b1 / 16);
    CharOfValueOf(a, (b1 % 16) * 4 + b2 / 64);
    CharOfValueOf(a, b2 % 64);
  }

  /** The padded last group: its characters, then its pads. */
  lemma TailShape(a: Alphabet, b: seq<byte>)
    requires 1 <= |b| <= 2
    ensures Padded(a, EncodeTail(a, b), Pads(|b|))
  {
    CharOfValueOf(a, b[0] / 4);
    if |b| == 1 {
      CharOfValueOf(a, (b[0] % 4) * 16);
    } else {
      CharOfValueOf(a, (b[0] % 4) * 16 + b[1] / 16);
      CharOfValueOf(a, (b[1] % 16) * 4);
    }
  }

  /** Four alphabet characters in front of a padded string leave it padded alike. */
  lemma PaddedCons(a: Alphabet, g: string, t: string, pads: nat)
    requires |g| == 4 && forall i :: 0 <= i < 4 ==> InAlphabet(a, g[i])
    requires Padded(a, t, pads)
    ensures Padded(a, g + t, pads)
  {
    var s := g + t;
    forall i | 0 <= i < |s| - pads ensures InAlphabet(a, s[i]) {
      if i >= 4 { assert s[i] == t[i - 4]; } else { assert s[i] == g[i]; }
    }
    forall i | |s| - pads <= i < |s| ensures s[i] == Pad {
      assert s[i] == t[i - 4];
    }
  }

  /** The encoding is alphabet characters followed by at most two pads, whose number is fixed by the input length. */
  lemma {:induction false} EncodeShape(a: Alphabet, b: seq<byte>)
    ensures Padded(a, Encode(a, b), Pads(|b|))
    decreases |b|
  {
    if |b| == 0 {
    } else if |b| < 3 {
      TailShape(a, b);
    } else {
      EncodeShape(a, b[3..]);
      TripleInAlphabet(a, b[0], b[1], b[2]);
      assert Pads(|b[3..]|) == Pads(|b|);
      if |b| == 3 {
        assert Encode(a, b) == EncodeTriple(a, b[0], b[1], b[2]) + Encode(a, b[3..]);
      } else {
        EncodeCons(a, b);
      }
      PaddedCons(a, EncodeTriple(a, b[0], b[1], b[2]), Encode(a, b[3..]), Pads(|b|));
    }
  }

  /** The encoding never holds the '.' that separates the parts of an envelope. */
  lemma NoDotInEncoding(a: Alphabet, b: seq<byte>)
    ensures '.' !in Encode(a, b)
  {
    EncodeShape(a, b);
    var s := Encode(a, b);
    forall i | 0 <= i < |s| ensures s[i] != '.' {
      if InAlphabet(a, s[i]) { AlphabetExcludes(a, s[i]); }
    }
  }

  /** Drops every carriage return and line feed, as Go's decoder does. */
  function StripLineBreaks(s: string): (r: string)
    ensures |r| <= |s|
    ensures '\r' !in r && '\n' !in r
    ensures ('\r' !in s && '\n' !in s) ==> r == s
  {
    if s == [] then []
    else if s[0] == '\r' || s[0] == '\n' then StripLineBreaks(s[1..])
    else [s[0]] + StripLineBreaks(s[1..])
  }

  /** The 24 bits of four six-bit values as three bytes. */
  function QuadBytes(c0: sextet, c1: sextet, c2: sextet, c3: sextet): seq<byte> {
    var b0: byte := c0 * 4 + c1 / 16;
    var b1: byte := (c1 % 16) * 16 + c2 / 4;
    var b2: byte := (c2 % 4) * 64 + c3;
    [b0, b1, b2]
  }

  /** Splitting three bytes into four six-bit values and joining them again is the identity. */
  lemma BitsRoundTrip(b0: byte, b1: byte, b2: byte)
    ensures QuadBytes(b0 / 4, (b0 % 4) * 16 + b1 / 16, (b1 % 16) * 4 + b2 / 64, b2 % 64) == [b0, b1, b2]
    ensures QuadBytes(b0 / 4, (b0 % 4) * 16 + b1 / 16, (b1 % 16) * 4, 0)[..2] == [b0, b1]
    ensures QuadBytes(b0 / 4, (b0 % 4) * 16, 0, 0)[..1] == [b0]
  {
    var c1 := (b0 % 4) * 16 + b1 / 16;
    var c2 := (b1 % 16) * 4 + b2 / 64;
    assert c1 / 16 == b0 % 4 && c1 % 16 == b1 / 16;
    assert c2 / 4 == b1 % 16 && c2 % 4 == b2 / 64;
    assert ((b0 % 4) * 16) / 16 == b0 % 4;
    assert ((b1 % 16) * 4) / 4 == b1 % 16;
  }

  /** Four alphabet characters back to three bytes. */
  function DecodeQuad(a: Alphabet, s: string): Option<seq<byte>>
    requires |s| == 4
  {
    match (ValueOf(a, s[0]), ValueOf(a, s[1]), ValueOf(a, s[2]), ValueOf(a, s[3]))
    case (Some(c0), Some(c1), Some(c2), Some(c3)) => Some(QuadBytes(c0, c1, c2, c3))
    case _ => None
  }

  /** The last group: four characters, "xy==" for one byte or "xyz=" for two. */
  function DecodeLast(a: Alphabet, s: string): Option<seq<byte>>
    requires |s| == 4
  {
    if s[2] == Pad && s[3] == Pad then
      match (ValueOf(a, s[0]), ValueOf(a, s[1]))
      case (Some(c0), Some(c1)) => Some(QuadBytes(c0, c1, 0, 0)[..1])
      case _ => None
    else if s[3] == Pad then
      match (ValueOf(a, s[0]), ValueOf(a, s[1]), ValueOf(a, s[2]))
      case (Some(c0), Some(c1), Some(c2)) => Some(QuadBytes(c0, c1, c2, 0)[..2])
      case _ => None
    else
      DecodeQuad(a, s)
  }

  /** Whole groups of four; padding is accepted only in the last one. */
  function DecodeGroups(a: Alphabet, s: string): (r: Option<seq<byte>>)
    ensures r.Some? ==> |s| % 4 == 0
    ensures r.Some? ==> 3 * (|s| / 4) - 2 <= |r.value| <= 3 * (|s| / 4)
    ensures r.Some? && |s| > 4 ==> |r.value| > 3 * (|s| / 4 - 1)
    decreases |s|
  {
    if |s| == 0 then Some([])
    else if |s| < 4 then None
    else if |s| == 4 then DecodeLast(a, s)
    else
      match (DecodeQuad(a, s[..4]), DecodeGroups(a, s[4..]))
      case (Some(g), Some(rest)) => Some(g + rest)
      case _ => None
  }

  /** `DecodeString`: None is the `CorruptInputError` case. */
  function Decode(a: Alphabet, s: string): (r: Option<seq<byte>>)
    ensures r.Some? ==> |StripLineBreaks(s)| % 4 == 0
    ensures r.Some? ==> 3 * (|StripLineBreaks(s)| / 4) - 2 <= |r.value| <= 3 * (|StripLineBreaks(s)| / 4)
    ensures StripLineBreaks(s) == [] ==> r == Some([])
  {
    DecodeGroups(a, StripLineBreaks(s))
  }

  /** One group decodes back to the three bytes it encodes. */
  lemma TripleRoundTrip(a: Alphabet, b0: byte, b1: byte, b2: byte)
    ensures DecodeQuad(a, EncodeTriple(a, b0, b1, b2)) == Some([b0, b1, b2])
    ensures DecodeLast(a, EncodeTriple(a, b0, b1, b2)) == Some([b0, b1, b2])
  {
    var s := EncodeTriple(a, b0, b1, b2);
    var c0, c1, c2, c3 := b0 / 4, (b0 % 4) * 16 + b1 / 16, (b1 % 16) * 4 + b2 / 64, b2 % 64;
    CharOfValueOf(a, c0);
    CharOfValueOf(a, c1);
    CharOfValueOf(a, c2);
    CharOfValueOf(a, c3);
    assert ValueOf(a, s[0]) == Some(c0) && ValueOf(a, s[1]) == Some(c1);
    assert ValueOf(a, s[2]) == Some(c2) && ValueOf(a, s[3]) == Some(c3);
    assert DecodeQuad(a, s) == Some(QuadBytes(c0, c1, c2, c3));
    AlphabetExcludes(a, s[3]);
    BitsRoundTrip(b0, b1, b2);
  }

  /** A padded last group decodes back to its one or two bytes. */
  lemma TailRoundTrip(a: Alphabet, b: seq<byte>)
    requires 1 <= |b| <= 2
    ensures DecodeLast(a, EncodeTail(a, b)) == Some(b)
  {
    var s := EncodeTail(a, b);
    var c0 := b[0] / 4;
    CharOfValueOf(a, c0);
    if |b| == 1 {
      var c1 := (b[0] % 4) * 16;
      CharOfValueOf(a, c1);
      assert ValueOf(a, s[0]) == Some(c0) && ValueOf(a, s[1]) == Some(c1);
      assert DecodeLast(a, s) == Some(QuadBytes(c0, c1, 0, 0)[..1]);
      BitsRoundTrip(b[0], 0, 0);
      assert QuadBytes(c0, c1, 0, 0)[..1] == [b[0]] == b;
    } else {
      var c1, c2 := (b[0] % 4) * 16 + b[1] / 16, (b[1] % 16) * 4;
      CharOfValueOf(a, c1);
      CharOfValueOf(a, c2);
      assert ValueOf(a, s[0]) == Some(c0) && ValueOf(a, s[1]) == Some(c1);
      assert ValueOf(a, s[2]) == Some(c2);
      AlphabetExcludes(a, s[2]);
      assert DecodeLast(a, s) == Some(QuadBytes(c0, c1, c2, 0)[..2]);
      BitsRoundTrip(b[0], b[1], 0);
      assert QuadBytes(c0, c1, c2, 0)[..2] == [b[0], b[1]] == b;
    }
  }

  /** A full group followed by more groups decodes to the concatenation. */
  lemma DecodeGroupsCons(a: Alphabet, g: string, t: string, x: seq<byte>, y: seq<byte>)
    requires |g| == 4 && |t| >= 4
    requires DecodeQuad(a, g) == Some(x) && DecodeGroups(a, t) == Some(y)
    ensures DecodeGroups(a, g + t) == Some(x + y)
  {
    assert (g + t)[..4] == g && (g + t)[4..] == t;
  }

  /** The encoding of more than three bytes starts with the full group of the first three. */
  lemma EncodeCons(a: Alphabet, b: seq<byte>)
    requires |b| > 3
    ensures Encode(a, b) == EncodeTriple(a, b[0], b[1], b[2]) + Encode(a, b[3..])
  {
  }

  /** One full group in front of an encoding that already decodes. */
  lemma GroupsStep(a: Alphabet, b: seq<byte>)
    requires |b| > 3
    requires DecodeGroups(a, Encode(a, b[3..])) == Some(b[3..])
    ensures DecodeGroups(a, Encode(a, b)) == Some(b)
  {
    var head, tail := [b[0], b[1], b[2]], b[3..];
    var g := EncodeTriple(a, b[0], b[1], b[2]);
    var t := Encode(a, tail);
    EncodeCons(a, b);
    TripleRoundTrip(a, b[0], b[1], b[2]);
    DecodeGroupsCons(a, g, t, head, tail);
    assert head + tail == b;
  }

  /** Whole-group decoding inverts encoding. */
  lemma {:induction false} GroupsRoundTrip(a: Alphabet, b: seq<byte>)
    ensures DecodeGroups(a, Encode(a, b)) == Some(b)
    decreases |b|
  {
    if |b| == 0 {
    } else if |b| < 3 {
      TailRoundTrip(a, b);
    } else if |b| == 3 {
      TripleRoundTrip(a, b[0], b[1], b[2]);
      assert Encode(a, b) == EncodeTriple(a, b[0], b[1], b[2]) + [];
      assert b == [b[0], b[1], b[2]];
    } else {
      GroupsRoundTrip(a, b[3..]);
      GroupsStep(a, b);
    }
  }

  /** `DecodeString(EncodeToString(b))` gives back `b` without error. */
  lemma DecodeEncode(a: Alphabet, b: seq<byte>)
    ensures Decode(a, Encode(a, b)) == Some(b)
  {
    var s := Encode(a, b);
    EncodeShape(a, b);
    forall i | 0 <= i < |s| ensures s[i] != '\r' && s[i] != '\n' {
      if InAlphabet(a, s[i]) { AlphabetExcludes(a, s[i]); }
    }
    assert StripLineBreaks(s) == s;
    GroupsRoundTrip(a, b);
  }
}
