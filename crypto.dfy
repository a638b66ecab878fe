/**
 * The cryptographic primitives the skills use, left uninterpreted: HMAC-SHA256
 * (RFC 2104), PEM and x509 key parsing, RSA-OAEP with SHA-256 (section 7.1
 * of RFC 8017) and Fernet. A `Suite` is one choice of all of them; nothing
 * is assumed about a suite except where a lemma says so.
 *
 * Go converts between `string` and `[]byte` around these calls; the
 * conversions are folded into the primitives' signatures.
 */
module Crypto {
  import opened Wrappers

  /** A decoded PEM block: its type line and its DER bytes. */
  datatype PemBlock = PemBlock(blockType: string, bytes: seq<byte>)

  datatype RsaPublicKey = RsaPublicKey(n: nat, e: nat)
  datatype RsaPrivateKey = RsaPrivateKey(publicKey: RsaPublicKey, d: nat)

  /** What `x509.ParsePKIXPublicKey` returns: an RSA key, or a key of another algorithm. */
  datatype PublicKey = RsaPublic(key: RsaPublicKey) | OtherPublic(algorithm: string)

  /** A Fernet key (32 bytes of signing and encryption key). */
  datatype FernetKey = FernetKey(material: seq<byte>)

  datatype Suite = Suite(
    /** `hmac.New(sha256.New, secret)`, written with the payload, summed. */
    hmacSha256: (string, string) -> seq<byte>,
    /** `pem.Decode`: the first block, or nil. */
    pemDecode: string -> Option<PemBlock>,
    parsePkcs1PrivateKey: seq<byte> -> Result<RsaPrivateKey, string>,
    parsePkixPublicKey: seq<byte> -> Result<PublicKey, string>,
    /** `rsa.EncryptOAEP` with SHA-256 and no label, given the random seed it draws. */
    encryptOaep: (RsaPublicKey, seq<byte>, string) -> Result<seq<byte>, string>,
    /** `rsa.DecryptOAEP` with SHA-256 and no label. */
    decryptOaep: (RsaPrivateKey, seq<byte>) -> Result<string, string>,
    /** `Key.Encode` and `fernet.DecodeKey`. */
    fernetEncodeKey: FernetKey -> string,
    fernetDecodeKey: string -> Result<FernetKey, string>,
    /** `fernet.EncryptAndSign`, given the initialisation vector it draws and the time (Unix seconds) it stamps. */
    fernetEncryptAndSign: (string, FernetKey, seq<byte>, int) -> seq<byte>,
    /** `fernet.VerifyAndDecrypt` with no time limit and one key: nil when the token does not verify. */
    fernetVerifyAndDecrypt: (seq<byte>, FernetKey) -> Option<string>)

  /** The inverse laws of the primitives the message envelope relies on. */
  ghost predicate Inverses(s: Suite) {
    && (forall k :: s.fernetDecodeKey(s.fernetEncodeKey(k)) == Success(k))
    && (forall m, k, iv, now :: s.fernetVerifyAndDecrypt(s.fernetEncryptAndSign(m, k, iv, now), k) == Some(m))
    && (forall priv: RsaPrivateKey, seed, m ::
          s.encryptOaep(priv.publicKey, seed, m).Success? ==>
            s.decryptOaep(priv, s.encryptOaep(priv.publicKey, seed, m).value) == Success(m))
  }

  /** The two PEM files of one key pair, as the skill and the tester load them. */
  predicate KeyPair(s: Suite, privatePem: string, publicPem: string, priv: RsaPrivateKey) {
    && s.pemDecode(privatePem).Some?
    && s.pemDecode(privatePem).value.blockType == "RSA PRIVATE KEY"
    && s.parsePkcs1PrivateKey(s.pemDecode(privatePem).value.bytes) == Success(priv)
    && s.pemDecode(publicPem).Some?
    && s.pemDecode(publicPem).value.blockType == "PUBLIC KEY"
    && s.parsePkixPublicKey(s.pemDecode(publicPem).value.bytes) == Success(RsaPublic(priv.publicKey))
  }
}
