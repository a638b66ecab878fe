/**
 * `wxa-cli generate-secret`: the shared secret for signing requests is
 * sixteen random bytes in URL-safe base64 (section 5 of RFC 4648) with the
 * trailing padding removed.
 */
module GenerateSecret {
  import opened Wrappers
  import opened Base64
  import Text

  /** Number of random bytes in a secret. */
  const SecretBytes: nat := 16

  /** What `rand.Read` did to the buffer: filled it, or failed with an error. */
  datatype RandomRead = Filled(bytes: seq<byte>) | ReadFailed(msg: string)

  /** `strings.TrimRight(URLEncoding.EncodeToString(b), "=")`. */
  function UnpaddedUrl(b: seq<byte>): string {
    Text.TrimRight(Encode(Url, b), Pad)
  }

  /** Trimming removes exactly the padding: what is left is the alphabet characters of the encoding. */
  lemma UnpaddedShape(b: seq<byte>)
    ensures var r := UnpaddedUrl(b);
      && |r| == 4 * ((|b| + 2) / 3) - Pads(|b|)
      && (forall i :: 0 <= i < |r| ==> InAlphabet(Url, r[i]))
  {
    var s, r := Encode(Url, b), UnpaddedUrl(b);
    EncodeShape(Url, b);
    var n := |s| - Pads(|b|);
    if |r| < n {
      assert s[n - 1] == Pad;
      AlphabetExcludes(Url, s[n - 1]);
    }
    forall i | 0 <= i < |r| ensures InAlphabet(Url, r[i]) {
      assert r[i] == s[i];
    }
  }

  /**
   * `generateToken`: fills a sixteen-byte buffer from the random source and
   * returns its unpadded URL-safe encoding, or the empty string with the
   * source's error.
   */
  method GenerateToken(random: RandomRead) returns (token: string, err: Option<string>)
    requires random.Filled? ==> |random.bytes| == SecretBytes
    ensures random.ReadFailed? ==> token == "" && err == Some(random.msg)
    ensures random.Filled? ==> err == None && token == UnpaddedUrl(random.bytes)
    ensures random.Filled? ==> |token| == 22 && token[|token| - 1] != Pad
    ensures forall i :: 0 <= i < |token| ==> InAlphabet(Url, token[i]) && token[i] != '+' && token[i] != '/'
  {
    var b := new byte[SecretBytes];
    match random
    case ReadFailed(msg) =>
      return "", Some(msg);
    case Filled(bytes) =>
      forall i | 0 <= i < b.Length {
        b[i] := bytes[i];
      }
    assert b[..] == random.bytes;
    var se := Encode(Url, b[..]);
    token := Text.TrimRight(se, Pad);
    err := None;
    UnpaddedShape(b[..]);
    forall i | 0 <= i < |token| ensures token[i] != '+' && token[i] != '/' {
      UrlAlphabetExcludes(token[i]);
    }
    if |token| > 0 { AlphabetExcludes(Url, token[|token| - 1]); }
  }
}
