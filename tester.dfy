/**
 * The sending side of the secure skill envelope, as the echo skill tester
 * plays Webex Assistant: a fresh Fernet key encrypts the message, the key is
 * wrapped with the skill's RSA public key, the two are joined by "." and the
 * result is signed with the shared secret.
 *
 * Randomness (the Fernet key, its initialisation vector, the OAEP seed and
 * the challenge bytes) and the clock Fernet stamps into its token are inputs.
 */
module Tester {
  import opened Wrappers
  import opened Base64
  import opened Crypto
  import Text
  import Hex
  import Helpers
  import Envelope
  import Wxas
  import GenerateSecret

  /** Why a token could not be built, one case per error the tester returns. */
  datatype TokenError =
    | KeyGenerate(err: string)
    | FernetEncrypt(err: string)
    | PemNotPublicKey
    | PublicKeyParse(err: string)
    | NotRsaPublicKey
    | OaepEncrypt(err: string)
  {
    /** The error's text, as the tester reports it. */
    function Message(): (m: string)
      ensures PemNotPublicKey? ==> m == "error decoding public key from pem"
      ensures NotRsaPublicKey? ==> m == "unable to parse public key"
      ensures PublicKeyParse? ==> Text.HasPrefix(m, "error parsing public key: ") && m[|"error parsing public key: "|..] == err
      ensures KeyGenerate? || FernetEncrypt? || OaepEncrypt? ==> m == err
    {
      match this
      case KeyGenerate(err) => err
      case FernetEncrypt(err) => err
      case PemNotPublicKey => "error decoding public key from pem"
      case PublicKeyParse(err) => "error parsing public key: " + err
      case NotRsaPublicKey => "unable to parse public key"
      case OaepEncrypt(err) => err
    }
  }

  /** A step of the tester: its text, its error, or the panic of a nil PEM block. */
  datatype Outcome = Done(text: string) | Failed(err: TokenError) | Crashed(reason: Helpers.Panic)

  /**
   * `encryptFernetKey`: the public key must be a PEM block of type
   * "PUBLIC KEY" holding an RSA key; the encoded Fernet key is encrypted with
   * RSA-OAEP and the ciphertext is encoded in standard base64.
   */
  function EncryptFernetKey(s: Suite, fernetKey: string, publicKey: string, seed: seq<byte>): (r: Outcome)
    ensures r.Crashed? <==> s.pemDecode(publicKey).None?
    ensures r.Crashed? ==> r.reason == Helpers.NilDereference("block.Type")
    ensures r == Failed(PemNotPublicKey) <==>
      s.pemDecode(publicKey).Some? && s.pemDecode(publicKey).value.blockType != "PUBLIC KEY"
    ensures r == Failed(NotRsaPublicKey) <==>
      && s.pemDecode(publicKey).Some? && s.pemDecode(publicKey).value.blockType == "PUBLIC KEY"
      && s.parsePkixPublicKey(s.pemDecode(publicKey).value.bytes).Success?
      && s.parsePkixPublicKey(s.pemDecode(publicKey).value.bytes).value.OtherPublic?
    ensures s.pemDecode(publicKey).Some? && s.pemDecode(publicKey).value.blockType == "PUBLIC KEY" ==>
      var parsed := s.parsePkixPublicKey(s.pemDecode(publicKey).value.bytes);
      && (r.Failed? && r.err.PublicKeyParse? <==> parsed.Failure?)
      && (parsed.Failure? ==> r == Failed(PublicKeyParse(parsed.error)))
    ensures (s.pemDecode(publicKey).Some? && s.pemDecode(publicKey).value.blockType == "PUBLIC KEY"
             && s.parsePkixPublicKey(s.pemDecode(publicKey).value.bytes).Success?
             && s.parsePkixPublicKey(s.pemDecode(publicKey).value.bytes).value.RsaPublic?) ==>
      var wrapped := s.encryptOaep(s.parsePkixPublicKey(s.pemDecode(publicKey).value.bytes).value.key, seed, fernetKey);
      && (r.Failed? && r.err.OaepEncrypt? <==> wrapped.Failure?)
      && (wrapped.Failure? ==> r == Failed(OaepEncrypt(wrapped.error)))
    ensures r.Done? <==>
      && s.pemDecode(publicKey).Some? && s.pemDecode(publicKey).value.blockType == "PUBLIC KEY"
      && s.parsePkixPublicKey(s.pemDecode(publicKey).value.bytes).Success?
      && s.parsePkixPublicKey(s.pemDecode(publicKey).value.bytes).value.RsaPublic?
      && s.encryptOaep(s.parsePkixPublicKey(s.pemDecode(publicKey).value.bytes).value.key, seed, fernetKey).Success?
    ensures r.Done? ==>
      r.text == Encode(Std, s.encryptOaep(s.parsePkixPublicKey(s.pemDecode(publicKey).value.bytes).value.key, seed, fernetKey).value)
  {
    match s.pemDecode(publicKey)
    case None => Crashed(Helpers.NilDereference("block.Type"))
    case Some(block) =>
    if block.blockType != "PUBLIC KEY" then Failed(PemNotPublicKey)
    else
    match s.parsePkixPublicKey(block.bytes)
    case Failure(e) => Failed(PublicKeyParse(e))
    case Success(OtherPublic(_)) => Failed(NotRsaPublicKey)
    case Success(RsaPublic(pubkey)) =>
    match s.encryptOaep(pubkey, seed, fernetKey)
    case Failure(e) => Failed(OaepEncrypt(e))
    case Success(ciphertext) => Done(Encode(Std, ciphertext))
  }

  /**
   * `generateToken`: generate a Fernet key, encrypt and sign the message with
   * it, wrap the encoded key with the public key, and join the wrapped key and
   * the base64 Fernet token with ".". The key and the initialisation vector
   * are what the random source gave, or its error; `now` is the time
   * `fernet.EncryptAndSign` reads.
   */
  function GenerateToken(s: Suite, message: string, publicKey: string,
                         keyGen: Result<FernetKey, string>, iv: Result<seq<byte>, string>, now: int, seed: seq<byte>): (r: Outcome)
    ensures keyGen.Failure? ==> r == Failed(KeyGenerate(keyGen.error))
    ensures keyGen.Success? && iv.Failure? ==> r == Failed(FernetEncrypt(iv.error))
    ensures keyGen.Success? && iv.Success? ==>
      var wrapped := EncryptFernetKey(s, s.fernetEncodeKey(keyGen.value), publicKey, seed);
      && (!wrapped.Done? ==> r == wrapped)
      && (wrapped.Done? ==> r == Done(wrapped.text + "." + Encode(Std, s.fernetEncryptAndSign(message, keyGen.value, iv.value, now))))
  {
    match keyGen
    case Failure(e) => Failed(KeyGenerate(e))
    case Success(fernetKey) =>
    match iv
    case Failure(e) => Failed(FernetEncrypt(e))
    case Success(vector) =>
    var encryptedMessage := s.fernetEncryptAndSign(message, fernetKey, vector, now);
    match EncryptFernetKey(s, s.fernetEncodeKey(fernetKey), publicKey, seed)
    case Done(encodedKey) => Done(encodedKey + "." + Encode(Std, encryptedMessage))
    case other => other
  }

  /** `signToken`: the HMAC-SHA256 of the token under the secret, in standard base64. What the skill verifies. */
  function SignToken(s: Suite, token: string, secret: string): (signature: string)
    ensures Decode(Std, signature) == Some(Helpers.GenerateSignature(s, secret, token))
    ensures Helpers.VerifySignature(s, secret, token, Decode(Std, signature).value)
    ensures signature == "" <==> s.hmacSha256(secret, token) == []
  {
    var mac := s.hmacSha256(secret, token);
    DecodeEncode(Std, mac);
    Encode(Std, mac)
  }

  /**
   * `preparePayload`: build the token, sign it, and fill the payload the
   * skill receives. A token error leaves no payload. The JSON text of the
   * payload is left to the value.
   */
  method PreparePayload(s: Suite, message: string, publicKey: string, secret: string,
                        keyGen: Result<FernetKey, string>, iv: Result<seq<byte>, string>, now: int, seed: seq<byte>)
    returns (payload: Option<Wxas.Request>, failure: Outcome)
    ensures var token := GenerateToken(s, message, publicKey, keyGen, iv, now, seed);
      && (token.Done? ==> payload == Some(Wxas.Request(SignToken(s, token.text, secret), token.text)))
      && (!token.Done? ==> payload.None? && failure == token)
    ensures payload.Some? ==> payload.value.signature == SignToken(s, payload.value.message, secret)
  {
    var result := Wxas.Request("", "");
    var token := GenerateToken(s, message, publicKey, keyGen, iv, now, seed);
    if !token.Done? {
      return None, token;
    }
    var signature := SignToken(s, token.text, secret);
    result := result.(signature := signature);
    result := result.(message := token.text);
    return Some(result), token;
  }

  /** The length of a challenge in bytes. */
  const ChallengeBytes: nat := 32

  /** `generateChallenge`: 32 random bytes in lower-case hexadecimal, or "" with the source's error. */
  method GenerateChallenge(random: GenerateSecret.RandomRead) returns (challenge: string, err: Option<string>)
    requires random.Filled? ==> |random.bytes| == ChallengeBytes
    ensures random.ReadFailed? ==> challenge == "" && err == Some(random.msg)
    ensures random.Filled? ==> err == None && challenge == Hex.Encode(random.bytes)
    ensures random.Filled? ==> |challenge| == 64 && Hex.Decode(challenge) == random.bytes
    ensures forall i :: 0 <= i < |challenge| ==> Hex.IsHexDigit(challenge[i])
  {
    var b := new byte[ChallengeBytes];
    match random
    case ReadFailed(msg) =>
      return "", Some(msg);
    case Filled(bytes) =>
      forall i | 0 <= i < b.Length {
        b[i] := bytes[i];
      }
    assert b[..] == random.bytes;
    challenge := Hex.Encode(b[..]);
    err := None;
    Hex.DecodeEncode(b[..]);
  }

  /** `generateJSONMessage`: a message saying "Hello World." that carries a fresh challenge ("" if none could be drawn). */
  method GenerateMessage(random: GenerateSecret.RandomRead) returns (m: Wxas.Message)
    requires random.Filled? ==> |random.bytes| == ChallengeBytes
    ensures m.text == "Hello World."
    ensures m.context == Wxas.ZeroMessage.context && m.params == Wxas.ZeroMessage.params
    ensures random.ReadFailed? ==> m.challenge == ""
    ensures random.Filled? ==> m.challenge == Hex.Encode(random.bytes)
  {
    var challenge, _ := GenerateChallenge(random);
    m := Wxas.ZeroMessage.(text := "Hello World.", challenge := challenge);
  }

  /** The wrapped key and the Fernet token of a generated envelope are exactly what the skill splits it into. */
  lemma TokenSplits(s: Suite, message: string, publicKey: string,
                    keyGen: Result<FernetKey, string>, iv: Result<seq<byte>, string>, now: int, seed: seq<byte>)
    requires GenerateToken(s, message, publicKey, keyGen, iv, now, seed).Done?
    ensures var wrapped := EncryptFernetKey(s, s.fernetEncodeKey(keyGen.value), publicKey, seed);
      var sealed := s.fernetEncryptAndSign(message, keyGen.value, iv.value, now);
      Text.Split(GenerateToken(s, message, publicKey, keyGen, iv, now, seed).text, '.') == [wrapped.text, Encode(Std, sealed)]
  {
    var wrapped := EncryptFernetKey(s, s.fernetEncodeKey(keyGen.value), publicKey, seed);
    var block := s.pemDecode(publicKey).value;
    var pubkey := s.parsePkixPublicKey(block.bytes).value.key;
    NoDotInEncoding(Std, s.encryptOaep(pubkey, seed, s.fernetEncodeKey(keyGen.value)).value);
    var sealed := s.fernetEncryptAndSign(message, keyGen.value, iv.value, now);
    NoDotInEncoding(Std, sealed);
    Text.SplitTwo(wrapped.text, Encode(Std, sealed), '.');
  }

  /**
   * Under the inverse laws of the primitives, a token built with the public
   * half of a key pair decrypts, with the private half, to the message.
   */
  lemma EnvelopeRoundTrip(s: Suite, message: string, publicPem: string, privatePem: string, priv: RsaPrivateKey,
                          keyGen: Result<FernetKey, string>, iv: Result<seq<byte>, string>, now: int, seed: seq<byte>)
    requires Inverses(s) && KeyPair(s, privatePem, publicPem, priv)
    requires GenerateToken(s, message, publicPem, keyGen, iv, now, seed).Done?
    ensures Helpers.DecryptMessage(s, privatePem, GenerateToken(s, message, publicPem, keyGen, iv, now, seed).text)
         == Helpers.Plaintext(message)
  {
    var token := GenerateToken(s, message, publicPem, keyGen, iv, now, seed).text;
    var k := keyGen.value;
    var wrappedKey := s.encryptOaep(priv.publicKey, seed, s.fernetEncodeKey(k)).value;
    var sealed := s.fernetEncryptAndSign(message, k, iv.value, now);
    TokenSplits(s, message, publicPem, keyGen, iv, now, seed);
    assert Text.Split(token, '.') == [Encode(Std, wrappedKey), Encode(Std, sealed)];
    assert '.' in token by {
      assert token == Encode(Std, wrappedKey) + "." + Encode(Std, sealed);
      assert token[|Encode(Std, wrappedKey)|] == '.';
    }
    DecodeEncode(Std, wrappedKey);
    DecodeEncode(Std, sealed);
    assert s.decryptOaep(priv, wrappedKey) == Success(s.fernetEncodeKey(k));
    assert s.fernetDecodeKey(s.fernetEncodeKey(k)) == Success(k);
    assert s.fernetVerifyAndDecrypt(sealed, k) == Some(message);
  }

  /**
   * The payload the tester sends passes every check of the skill and opens to
   * the message, when both hold the same secret and the two halves of one key
   * pair and the HMAC is not empty.
   */
  lemma PayloadOpens(s: Suite, message: string, publicPem: string, cfg: Envelope.Config, priv: RsaPrivateKey,
                     keyGen: Result<FernetKey, string>, iv: Result<seq<byte>, string>, now: int, seed: seq<byte>)
    requires Inverses(s) && KeyPair(s, cfg.privateKey, publicPem, priv)
    requires GenerateToken(s, message, publicPem, keyGen, iv, now, seed).Done?
    requires s.hmacSha256(cfg.secret, GenerateToken(s, message, publicPem, keyGen, iv, now, seed).text) != []
    ensures var token := GenerateToken(s, message, publicPem, keyGen, iv, now, seed).text;
      Envelope.CheckRequest(cfg, s, Wxas.Request(SignToken(s, token, cfg.secret), token)) == Envelope.Opened(message)
  {
    var token := GenerateToken(s, message, publicPem, keyGen, iv, now, seed).text;
    EnvelopeRoundTrip(s, message, publicPem, cfg.privateKey, priv, keyGen, iv, now, seed);
    assert token != "" by {
      TokenSplits(s, message, publicPem, keyGen, iv, now, seed);
    }
  }
}
