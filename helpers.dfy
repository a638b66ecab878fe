/**
 * The skill-side helpers of the basic Lex skill, which the secure echo skill
 * and the plain echo skill call too: error and JSON responses, signature
 * checking, envelope decryption and request-body decoding.
 *
 * A `ResponseWriter` records what a handler writes, in order. A Go panic is
 * recorded as a final `Panicked` write.
 */
module Helpers {
  import opened Wrappers
  import opened Base64
  import opened Crypto
  import Text
  import Wxas

  /** Why a handler panicked. */
  datatype Panic =
    | IndexOutOfRange(index: nat, length: nat)
    | NilDereference(expression: string)

  /** One thing written to the `http.ResponseWriter`. */
  datatype Write =
    | ErrorJson(status: int, message: string)  // `errorResponse`: `{"error": message}` with the status
    | ErrorText(status: int, text: string)     // `http.Error`: plain text with the status
    | RenderJson(body: Wxas.Json)              // `renderJSON`: the value as JSON
    | Panicked(reason: Panic)                  // the handler panicked here

  class ResponseWriter {
    var writes: seq<Write>

    constructor ()
      ensures writes == []
    {
      writes := [];
    }

    method Append(x: Write)
      modifies this
      ensures writes == old(writes) + [x]
    {
      writes := writes + [x];
    }
  }

  const StatusBadRequest := 400
  const StatusUnauthorized := 401
  const StatusRequestEntityTooLarge := 413
  const StatusUnsupportedMediaType := 415
  const StatusInternalServerError := 500

  /** `errorResponse`: a JSON envelope holding the message, with the status. */
  method ErrorResponse(w: ResponseWriter, status: int, message: string)
    modifies w
    ensures w.writes == old(w.writes) + [ErrorJson(status, message)]
  {
    w.Append(ErrorJson(status, message));
  }

  /** `serverError`: the status text of 500, as plain text. */
  method ServerError(w: ResponseWriter)
    modifies w
    ensures w.writes == old(w.writes) + [ErrorText(StatusInternalServerError, "Internal Server Error")]
  {
    w.Append(ErrorText(StatusInternalServerError, "Internal Server Error"));
  }

  /** `invalidRequestResponse`. */
  method InvalidRequestResponse(w: ResponseWriter)
    modifies w
    ensures w.writes == old(w.writes) + [ErrorJson(StatusBadRequest, "invalid request")]
  {
    ErrorResponse(w, StatusBadRequest, "invalid request");
  }

  /** `invalidSignatureResponse`. */
  method InvalidSignatureResponse(w: ResponseWriter)
    modifies w
    ensures w.writes == old(w.writes) + [ErrorJson(StatusUnauthorized, "invalid signature")]
  {
    ErrorResponse(w, StatusUnauthorized, "invalid signature");
  }

  /** `renderJSON`: marshalling the skill's records cannot fail, so the value is always written. */
  method RenderJSON(w: ResponseWriter, body: Wxas.Json)
    modifies w
    ensures w.writes == old(w.writes) + [RenderJson(body)]
  {
    w.Append(RenderJson(body));
  }

  // Signatures

  /** How many positions two equally long byte strings differ in; every position is examined, as `subtle.ConstantTimeCompare` does. */
  function Mismatches(x: seq<byte>, y: seq<byte>): nat
    requires |x| == |y|
  {
    if x == [] then 0 else (if x[0] != y[0] then 1 else 0) + Mismatches(x[1..], y[1..])
  }

  /** No mismatch exactly when the strings are equal. */
  lemma {:induction false} MismatchesZero(x: seq<byte>, y: seq<byte>)
    requires |x| == |y|
    ensures Mismatches(x, y) == 0 <==> x == y
  {
    if x != [] {
      MismatchesZero(x[1..], y[1..]);
      assert x == [x[0]] + x[1..] && y == [y[0]] + y[1..];
    }
  }

  /** `subtle.ConstantTimeCompare`: 1 for equal byte strings, 0 otherwise (and at once for unequal lengths). */
  function ConstantTimeCompare(x: seq<byte>, y: seq<byte>): (r: int)
    ensures r == 1 <==> x == y
    ensures r == 0 || r == 1
  {
    if |x| != |y| then 0
    else
      MismatchesZero(x, y);
      if Mismatches(x, y) == 0 then 1 else 0
  }

  /** `generateSignature`: the HMAC-SHA256 of the payload under the shared secret. */
  function GenerateSignature(s: Suite, secret: string, payload: string): seq<byte> {
    s.hmacSha256(secret, payload)
  }

  /** `verifySignature`: the inbound bytes are exactly the signature of the payload. */
  function VerifySignature(s: Suite, secret: string, payload: string, inbound: seq<byte>): (ok: bool)
    ensures ok <==> inbound == GenerateSignature(s, secret, payload)
    ensures |inbound| != |GenerateSignature(s, secret, payload)| ==> !ok
  {
    ConstantTimeCompare(GenerateSignature(s, secret, payload), inbound) == 1
  }

  /** A signature made with the shared secret is accepted, and no other byte string is. */
  lemma SignatureAccepted(s: Suite, secret: string, payload: string, inbound: seq<byte>)
    ensures VerifySignature(s, secret, payload, GenerateSignature(s, secret, payload))
    ensures inbound != s.hmacSha256(secret, payload) ==> !VerifySignature(s, secret, payload, inbound)
  {
  }

  // Decryption

  /** The step of `decryptMessage` that failed. */
  datatype DecryptFailure =
    | KeyNotBase64      // "error decoding key"
    | TokenNotBase64    // "error decoding token"
    | NotRsaPrivateKey  // "error decoding private key from pem"
    | PrivateKeyParse(err: string)
    | OaepDecrypt(err: string)
    | FernetKeyDecode(err: string)

  /** The outcome of `decryptMessage`: the plaintext, an error, or a panic. */
  datatype Decrypted =
    | Plaintext(text: string)
    | DecryptError(failure: DecryptFailure)
    | DecryptPanic(reason: Panic)

  /**
   * `decryptMessage`: split the message on "." and decrypt the first two
   * parts; a message without "." has no second part and panics.
   */
  function DecryptMessage(s: Suite, privateKey: string, message: string): (r: Decrypted)
    ensures r.DecryptPanic? && r.reason.IndexOutOfRange? <==> '.' !in message
    ensures '.' in message ==> r == DecryptParts(s, privateKey, Text.Split(message, '.')[0], Text.Split(message, '.')[1])
  {
    var parts := Text.Split(message, '.');
    if |parts| < 2 then DecryptPanic(IndexOutOfRange(1, |parts|))
    else DecryptParts(s, privateKey, parts[0], parts[1])
  }

  /**
   * The checks of `decryptMessage` after the split, in order: decode the
   * wrapped Fernet key and the Fernet token from standard base64, read the
   * PKCS #1 private key from the PEM text, decrypt the Fernet key with it and
   * open the token.
   */
  function DecryptParts(s: Suite, privateKey: string, encodedKey: string, encodedToken: string): (r: Decrypted)
    ensures r == DecryptError(KeyNotBase64) <==> Decode(Std, encodedKey).None?
    ensures r == DecryptError(TokenNotBase64) <==> Decode(Std, encodedKey).Some? && Decode(Std, encodedToken).None?
    ensures !r.DecryptPanic? || r.reason == NilDereference("block.Type")
    ensures r.DecryptPanic? <==>
      Decode(Std, encodedKey).Some? && Decode(Std, encodedToken).Some? && s.pemDecode(privateKey).None?
    ensures r == DecryptError(NotRsaPrivateKey) <==>
      Decode(Std, encodedKey).Some? && Decode(Std, encodedToken).Some?
      && s.pemDecode(privateKey).Some? && s.pemDecode(privateKey).value.blockType != "RSA PRIVATE KEY"
    ensures r.Plaintext? ==>
      (Decode(Std, encodedKey).Some? && Decode(Std, encodedToken).Some?
       && s.pemDecode(privateKey).Some? && s.pemDecode(privateKey).value.blockType == "RSA PRIVATE KEY")
    ensures (Decode(Std, encodedKey).Some? && Decode(Std, encodedToken).Some?
             && s.pemDecode(privateKey).Some? && s.pemDecode(privateKey).value.blockType == "RSA PRIVATE KEY") ==>
      var parsed := s.parsePkcs1PrivateKey(s.pemDecode(privateKey).value.bytes);
      && (r.DecryptError? && r.failure.PrivateKeyParse? <==> parsed.Failure?)
      && (parsed.Failure? ==> r == DecryptError(PrivateKeyParse(parsed.error)))
    ensures (Decode(Std, encodedKey).Some? && Decode(Std, encodedToken).Some?
             && s.pemDecode(privateKey).Some? && s.pemDecode(privateKey).value.blockType == "RSA PRIVATE KEY"
             && s.parsePkcs1PrivateKey(s.pemDecode(privateKey).value.bytes).Success?) ==>
      var unwrapped := s.decryptOaep(s.parsePkcs1PrivateKey(s.pemDecode(privateKey).value.bytes).value,
                                     Decode(Std, encodedKey).value);
      && (r.DecryptError? && r.failure.OaepDecrypt? <==> unwrapped.Failure?)
      && (unwrapped.Failure? ==> r == DecryptError(OaepDecrypt(unwrapped.error)))
      && (unwrapped.Success? ==>
            var fernetKey := s.fernetDecodeKey(unwrapped.value);
            && (r.DecryptError? && r.failure.FernetKeyDecode? <==> fernetKey.Failure?)
            && (fernetKey.Failure? ==> r == DecryptError(FernetKeyDecode(fernetKey.error)))
            && (fernetKey.Success? ==>
                  r == Plaintext(s.fernetVerifyAndDecrypt(Decode(Std, encodedToken).value, fernetKey.value).GetOr(""))))
  {
    match Decode(Std, encodedKey)
    case None => DecryptError(KeyNotBase64)
    case Some(wrappedKey) =>
    match Decode(Std, encodedToken)
    case None => DecryptError(TokenNotBase64)
    case Some(token) =>
    match s.pemDecode(privateKey)
    case None => DecryptPanic(NilDereference("block.Type"))
    case Some(block) =>
    if block.blockType != "RSA PRIVATE KEY" then DecryptError(NotRsaPrivateKey)
    else
    match s.parsePkcs1PrivateKey(block.bytes)
    case Failure(e) => DecryptError(PrivateKeyParse(e))
    case Success(key) =>
    match s.decryptOaep(key, wrappedKey)
    case Failure(e) => DecryptError(OaepDecrypt(e))
    case Success(fernetKeyText) =>
    match s.fernetDecodeKey(fernetKeyText)
    case Failure(e) => DecryptError(FernetKeyDecode(e))
    case Success(fernetKey) =>
      // a token that does not verify opens to nil, which is the empty string and no error
      Plaintext(s.fernetVerifyAndDecrypt(token, fernetKey).GetOr(""))
  }

  /** Only the first two "."-separated parts are read: anything after a second "." is ignored. */
  lemma DecryptIgnoresExtraParts(s: Suite, privateKey: string, key: string, token: string, rest: string)
    requires '.' !in key && '.' !in token
    ensures DecryptMessage(s, privateKey, key + "." + token + "." + rest)
         == DecryptMessage(s, privateKey, key + "." + token)
  {
    var long, short := key + "." + token + "." + rest, key + "." + token;
    Text.SplitCons(token, rest, '.');
    assert long == key + ['.'] + (token + ['.'] + rest);
    Text.SplitCons(key, token + ['.'] + rest, '.');
    assert Text.Split(long, '.')[..2] == [key, token];
    Text.SplitTwo(key, token, '.');
    assert short == key + ['.'] + token;
    assert long[|key|] == '.' && short[|key|] == '.';
  }

  /** A token that does not verify is not reported: decryption "succeeds" with the empty plaintext. */
  lemma FernetFailureIsSilent(s: Suite, privateKey: string, key: string, token: string)
    requires '.' !in key && '.' !in token
    requires Decode(Std, key).Some? && Decode(Std, token).Some?
    requires s.pemDecode(privateKey).Some? && s.pemDecode(privateKey).value.blockType == "RSA PRIVATE KEY"
    requires s.parsePkcs1PrivateKey(s.pemDecode(privateKey).value.bytes).Success?
    requires var priv := s.parsePkcs1PrivateKey(s.pemDecode(privateKey).value.bytes).value;
      && s.decryptOaep(priv, Decode(Std, key).value).Success?
      && s.fernetDecodeKey(s.decryptOaep(priv, Decode(Std, key).value).value).Success?
      && s.fernetVerifyAndDecrypt(Decode(Std, token).value,
           s.fernetDecodeKey(s.decryptOaep(priv, Decode(Std, key).value).value).value).None?
    ensures DecryptMessage(s, privateKey, key + "." + token) == Plaintext("")
  {
    Text.SplitTwo(key, token, '.');
    assert key + "." + token == key + ['.'] + token;
  }

  // Request bodies

  /** Largest body `decodeJSONBody` reads. */
  const MaxBodyBytes: nat := 1048576

  /** What a `json.Decoder` reports; errors it does not type are `OtherError` with their text. */
  datatype DecodeError =
    | SyntaxError(offset: nat)
    | UnexpectedEOF
    | TypeError(field: string, offset: nat)
    | EOF
    | OtherError(msg: string)

  /** One call of `Decode` on the body: a value, or an error. */
  datatype Step<T> = Value(value: T) | Failed(error: DecodeError)

  /** `malformedRequest`: a status and the message to answer with. */
  datatype MalformedRequest = MalformedRequest(status: int, msg: string)

  /** What `decodeJSONBody` returns when it fails: a classified problem, or the decoder's own error. */
  datatype BodyError = Malformed(request: MalformedRequest) | Unclassified(error: DecodeError)

  const UnknownFieldPrefix := "json: unknown field "
  const BodyTooLarge := "http: request body too large"

  /** `%q` of a field name, without Go's escaping of special characters. */
  function Quote(s: string): string {
    "\"" + s + "\""
  }

  /** The `switch` over a decode error in `decodeJSONBody`: a problem to report, or None to pass the error on. */
  function ClassifyDecodeError(e: DecodeError): (r: Option<MalformedRequest>)
    ensures r.None? <==> e.OtherError? && !Text.HasPrefix(e.msg, UnknownFieldPrefix) && e.msg != BodyTooLarge
    ensures r.Some? ==> (r.value.status == StatusRequestEntityTooLarge <==> e == OtherError(BodyTooLarge))
    ensures r.Some? ==> r.value.status in {StatusBadRequest, StatusRequestEntityTooLarge}
    ensures e.SyntaxError? ==> r == Some(MalformedRequest(StatusBadRequest,
      "Request body contains badly-formed JSON (at position " + Text.Decimal(e.offset) + ")"))
    ensures e.UnexpectedEOF? ==> r == Some(MalformedRequest(StatusBadRequest, "Request body contains badly-formed JSON"))
    ensures e.TypeError? ==> r == Some(MalformedRequest(StatusBadRequest,
      "Request body contains an invalid value for the " + Quote(e.field) + " field (at position " + Text.Decimal(e.offset) + ")"))
    ensures e.EOF? ==> r == Some(MalformedRequest(StatusBadRequest, "Request body must not be empty"))
    ensures e.OtherError? && Text.HasPrefix(e.msg, UnknownFieldPrefix) ==>
      r == Some(MalformedRequest(StatusBadRequest, "Request body contains unknown field " + e.msg[|UnknownFieldPrefix|..]))
    ensures e == OtherError(BodyTooLarge) ==>
      r == Some(MalformedRequest(StatusRequestEntityTooLarge, "Request body must not be larger than 1MB"))
  {
    match e
    case SyntaxError(offset) =>
      Some(MalformedRequest(StatusBadRequest, "Request body contains badly-formed JSON (at position " + Text.Decimal(offset) + ")"))
    case UnexpectedEOF =>
      Some(MalformedRequest(StatusBadRequest, "Request body contains badly-formed JSON"))
    case TypeError(field, offset) =>
      Some(MalformedRequest(StatusBadRequest,
        "Request body contains an invalid value for the " + Quote(field) + " field (at position " + Text.Decimal(offset) + ")"))
    case EOF =>
      Some(MalformedRequest(StatusBadRequest, "Request body must not be empty"))
    case OtherError(msg) =>
      if Text.HasPrefix(msg, UnknownFieldPrefix) then
        assert msg[0] == 'j' != BodyTooLarge[0];
        Some(MalformedRequest(StatusBadRequest, "Request body contains unknown field " + Text.TrimPrefix(msg, UnknownFieldPrefix)))
      else if msg == BodyTooLarge then
        Some(MalformedRequest(StatusRequestEntityTooLarge, "Request body must not be larger than 1MB"))
      else
        None
  }

  /** The unknown-field message names the field the decoder named. */
  lemma UnknownFieldNamed(field: string)
    ensures ClassifyDecodeError(OtherError(UnknownFieldPrefix + field))
         == Some(MalformedRequest(StatusBadRequest, "Request body contains unknown field " + field))
  {
    assert Text.HasPrefix(UnknownFieldPrefix + field, UnknownFieldPrefix);
    assert (UnknownFieldPrefix + field)[|UnknownFieldPrefix|..] == field;
  }

  /** The position in a syntax-error message is the decoder's offset, and can be read back from it. */
  lemma SyntaxErrorPosition(offset: nat)
    ensures var m := ClassifyDecodeError(SyntaxError(offset)).value.msg;
      var digits := m[|"Request body contains badly-formed JSON (at position "|..|m| - 1];
      && (forall i :: 0 <= i < |digits| ==> '0' <= digits[i] <= '9')
      && Text.DecimalValue(digits) == offset
  {
    var prefix := "Request body contains badly-formed JSON (at position ";
    var m := ClassifyDecodeError(SyntaxError(offset)).value.msg;
    assert m == prefix + Text.Decimal(offset) + ")";
    assert m[|prefix|..|m| - 1] == Text.Decimal(offset);
    Text.DecimalRoundTrip(offset);
  }

  /** A request whose body `decodeJSONBody` reads: its Content-Type and the decoder's successive results. */
  class HttpRequest<T> {
    /** The Content-Type header, "" when absent. */
    var contentType: string
    /** The media type `header.ParseValueAndParams` reads from the header. */
    var mediaType: string
    /** The byte limit of the body reader, once one is installed. */
    var bodyLimit: Option<nat>
    /** What successive `Decode` calls on the body yield. */
    var body: seq<Step<T>>

    constructor (contentType: string, mediaType: string, body: seq<Step<T>>)
      ensures this.contentType == contentType && this.mediaType == mediaType
      ensures this.body == body && bodyLimit == None
    {
      this.contentType := contentType;
      this.mediaType := mediaType;
      this.body := body;
      bodyLimit := None;
    }
  }

  /** A streaming JSON decoder over a body: each `Decode` takes the next result; at the end it reports EOF. */
  class JsonDecoder<T> {
    var pending: seq<Step<T>>

    constructor (body: seq<Step<T>>)
      ensures pending == body
    {
      pending := body;
    }

    method Decode() returns (s: Step<T>)
      modifies this
      ensures old(pending) == [] ==> s == Failed(EOF) && pending == []
      ensures old(pending) != [] ==> s == old(pending)[0] && pending == old(pending)[1..]
    {
      if pending == [] {
        s := Failed(EOF);
      } else {
        s := pending[0];
        pending := pending[1..];
      }
    }
  }

  /** The `n`-th result of decoding `body` (EOF past its end). */
  function StepAt<T>(body: seq<Step<T>>, n: nat): Step<T> {
    if n < |body| then body[n] else Failed(EOF)
  }

  /** A Content-Type header that is present and names another media type. */
  predicate WrongMediaType(contentType: string, mediaType: string) {
    contentType != "" && mediaType != "application/json"
  }

  /** A body is accepted when its first value decodes and nothing follows it. */
  predicate SingleValue<T>(body: seq<Step<T>>) {
    StepAt(body, 0).Value? && StepAt(body, 1) == Failed(EOF)
  }

  /** The outcome `decodeJSONBody` reaches for a request: the decoded value, or why there is none. */
  function BodyResult<T>(contentType: string, mediaType: string, body: seq<Step<T>>): (r: Result<T, BodyError>)
    ensures r.Success? <==> !WrongMediaType(contentType, mediaType) && SingleValue(body)
    ensures r.Success? ==> r.value == StepAt(body, 0).value
    ensures WrongMediaType(contentType, mediaType) ==>
      r == Failure(Malformed(MalformedRequest(StatusUnsupportedMediaType, "Content-Type header is not application/json")))
    ensures r.Failure? && r.error.Unclassified? <==>
      !WrongMediaType(contentType, mediaType) && StepAt(body, 0).Failed? && ClassifyDecodeError(StepAt(body, 0).error).None?
    ensures !WrongMediaType(contentType, mediaType) && StepAt(body, 0).Value? && !SingleValue(body) ==>
      r == Failure(Malformed(MalformedRequest(StatusBadRequest, "Request body must only contain a single JSON object")))
    ensures !WrongMediaType(contentType, mediaType) && StepAt(body, 0).Failed? ==>
      r == match ClassifyDecodeError(StepAt(body, 0).error)
           case Some(m) => Failure(Malformed(m))
           case None => Failure(Unclassified(StepAt(body, 0).error))
    ensures !WrongMediaType(contentType, mediaType) && r.Failure? && r.error.Malformed? ==>
      r.error.request.status != StatusUnsupportedMediaType
    ensures r.Failure? && r.error.Malformed? ==>
      && r.error.request.status in {StatusBadRequest, StatusRequestEntityTooLarge, StatusUnsupportedMediaType}
      && (r.error.request.status == StatusRequestEntityTooLarge <==>
            !WrongMediaType(contentType, mediaType) && StepAt(body, 0) == Failed(OtherError(BodyTooLarge)))
  {
    if WrongMediaType(contentType, mediaType) then
      Failure(Malformed(MalformedRequest(StatusUnsupportedMediaType, "Content-Type header is not application/json")))
    else
      match StepAt(body, 0)
      case Failed(e) =>
        (match ClassifyDecodeError(e)
         case Some(m) => Failure(Malformed(m))
         case None => Failure(Unclassified(e)))
      case Value(v) =>
        if StepAt(body, 1) != Failed(EOF) then
          Failure(Malformed(MalformedRequest(StatusBadRequest, "Request body must only contain a single JSON object")))
        else
          Success(v)
  }

  /**
   * `decodeJSONBody`: refuses a Content-Type that is present and not
   * application/json, limits the body to 1MB, decodes one value (disallowing
   * unknown fields) and insists that nothing follows it.
   */
  method DecodeJSONBody<T>(r: HttpRequest<T>) returns (dst: Option<T>, err: Option<BodyError>)
    modifies r
    ensures r.contentType == old(r.contentType) && r.mediaType == old(r.mediaType) && r.body == old(r.body)
    ensures r.bodyLimit == if WrongMediaType(r.contentType, r.mediaType) then old(r.bodyLimit) else Some(MaxBodyBytes)
    ensures match BodyResult(r.contentType, r.mediaType, r.body)
      case Success(v) => dst == Some(v) && err == None
      case Failure(e) => dst == None && err == Some(e)
  {
    if r.contentType != "" {
      if r.mediaType != "application/json" {
        var msg := "Content-Type header is not application/json";
        return None, Some(Malformed(MalformedRequest(StatusUnsupportedMediaType, msg)));
      }
    }

    r.bodyLimit := Some(MaxBodyBytes);

    var dec := new JsonDecoder(r.body);

    var first := dec.Decode();
    if first.Failed? {
      match ClassifyDecodeError(first.error)
      case Some(m) => return None, Some(Malformed(m));
      case None => return None, Some(Unclassified(first.error));
    }

    var second := dec.Decode();
    if second != Failed(EOF) {
      var msg := "Request body must only contain a single JSON object";
      return None, Some(Malformed(MalformedRequest(StatusBadRequest, msg)));
    }

    return Some(first.value), None;
  }

  /** How the handlers answer a failed `decodeJSONBody`: the problem's own status and message, or "invalid request". */
  function BodyErrorWrite(e: BodyError): (w: Write)
    ensures w.ErrorJson?
    ensures e.Unclassified? ==> w == ErrorJson(StatusBadRequest, "invalid request")
    ensures e.Malformed? ==> w == ErrorJson(e.request.status, e.request.msg)
  {
    match e
    case Malformed(m) => ErrorJson(m.status, m.msg)
    case Unclassified(_) => ErrorJson(StatusBadRequest, "invalid request")
  }

  /** The answer to a failed decode: the problem when the decoder's error was classified, 400 "invalid request" otherwise. */
  method RespondToBodyError(w: ResponseWriter, e: BodyError)
    modifies w
    ensures w.writes == old(w.writes) + [BodyErrorWrite(e)]
  {
    match e
    case Malformed(m) => ErrorResponse(w, m.status, m.msg);
    case Unclassified(_) => InvalidRequestResponse(w);
  }
}
