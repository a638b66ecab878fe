/**
 * The checks the secure skills run on an inbound envelope before they act
 * on it, and the health check built from them. `handleHealthCheck` and the
 * first half of `handleSkills` are the same code in the secure echo skill
 * and the basic Lex skill.
 */
module Envelope {
  import opened Wrappers
  import opened Base64
  import opened Crypto
  import opened Helpers
  import Wxas

  /** The skill's configuration: the shared secret and the private key in PEM. */
  datatype Config = Config(secret: string, privateKey: string)

  /** What `json.Unmarshal` of the decrypted text left in the message, and whether it failed. */
  datatype Unmarshalled = Unmarshalled(message: Wxas.Message, failed: bool)

  /** Where the checks leave a request: answered with an error, crashed, or decrypted. */
  datatype Checked = Rejected(answer: Write) | Crashed(reason: Panic) | Opened(plaintext: string)

  /**
   * Decode the base64 signature, verify it over the still-encrypted payload,
   * then decrypt the payload.
   */
  function CheckSigned(cfg: Config, s: Suite, signature: string, payload: string): (r: Checked)
    ensures r == Rejected(ErrorJson(StatusBadRequest, "error decoding signature")) <==> Decode(Std, signature).None?
    ensures r == Rejected(ErrorJson(StatusUnauthorized, "invalid signature")) <==>
      Decode(Std, signature).Some? && !VerifySignature(s, cfg.secret, payload, Decode(Std, signature).value)
    ensures r.Opened? || r.Crashed? || r == Rejected(ErrorJson(StatusBadRequest, "unable to decrypt message")) ==>
      Decode(Std, signature).Some? && VerifySignature(s, cfg.secret, payload, Decode(Std, signature).value)
    ensures r == Rejected(ErrorJson(StatusBadRequest, "unable to decrypt message")) <==>
      Decode(Std, signature).Some? && VerifySignature(s, cfg.secret, payload, Decode(Std, signature).value)
      && DecryptMessage(s, cfg.privateKey, payload).DecryptError?
    ensures r.Crashed? ==> DecryptMessage(s, cfg.privateKey, payload) == DecryptPanic(r.reason)
    ensures r.Opened? ==> DecryptMessage(s, cfg.privateKey, payload) == Plaintext(r.plaintext)
  {
    match Decode(Std, signature)
    case None => Rejected(ErrorJson(StatusBadRequest, "error decoding signature"))
    case Some(decoded) =>
      if !VerifySignature(s, cfg.secret, payload, decoded) then Rejected(ErrorJson(StatusUnauthorized, "invalid signature"))
      else
        match DecryptMessage(s, cfg.privateKey, payload)
        case DecryptError(_) => Rejected(ErrorJson(StatusBadRequest, "unable to decrypt message"))
        case DecryptPanic(p) => Crashed(p)
        case Plaintext(t) => Opened(t)
  }

  /** The checks of `handleSkills` on a decoded request: both fields present, then the signed payload. */
  function CheckRequest(cfg: Config, s: Suite, req: Wxas.Request): (r: Checked)
    ensures req.signature == "" || req.message == "" <==> r == Rejected(ErrorJson(StatusBadRequest, "invalid request"))
    ensures req.signature != "" && req.message != "" ==> r == CheckSigned(cfg, s, req.signature, req.message)
  {
    if req.signature == "" || req.message == "" then Rejected(ErrorJson(StatusBadRequest, "invalid request"))
    else CheckSigned(cfg, s, req.signature, req.message)
  }

  /** The checks of `handleHealthCheck` on its query: the signature's absence is reported before the challenge's. */
  function CheckHealth(cfg: Config, s: Suite, signature: string, challenge: string): (r: Checked)
    ensures signature == "" <==> r == Rejected(ErrorJson(StatusBadRequest, "missing signature"))
    ensures signature != "" && challenge == "" <==> r == Rejected(ErrorJson(StatusBadRequest, "missing message"))
    ensures signature != "" && challenge != "" ==> r == CheckSigned(cfg, s, signature, challenge)
  {
    if signature == "" then Rejected(ErrorJson(StatusBadRequest, "missing signature"))
    else if challenge == "" then Rejected(ErrorJson(StatusBadRequest, "missing message"))
    else CheckSigned(cfg, s, signature, challenge)
  }

  /** What the health check writes: the error, the panic, or the decrypted challenge with status "OK". */
  function HealthWrites(cfg: Config, s: Suite, signature: string, challenge: string): (ws: seq<Write>)
    ensures |ws| == 1
    ensures ws[0].RenderJson? <==> CheckHealth(cfg, s, signature, challenge).Opened?
    ensures CheckHealth(cfg, s, signature, challenge).Opened? ==>
      ws == [RenderJson(Wxas.MarshalHealthResponse(Wxas.HealthResponse(CheckHealth(cfg, s, signature, challenge).plaintext, "OK")))]
    ensures CheckHealth(cfg, s, signature, challenge).Rejected? ==> ws == [CheckHealth(cfg, s, signature, challenge).answer]
    ensures CheckHealth(cfg, s, signature, challenge).Crashed? ==> ws == [Panicked(CheckHealth(cfg, s, signature, challenge).reason)]
  {
    match CheckHealth(cfg, s, signature, challenge)
    case Rejected(answer) => [answer]
    case Crashed(p) => [Panicked(p)]
    case Opened(t) => [RenderJson(Wxas.MarshalHealthResponse(Wxas.HealthResponse(t, "OK")))]
  }

  /**
   * A health check that opens its challenge answers with a body that reads
   * back as the decrypted challenge and status "OK"; the body is written only
   * after the signature was verified over the still-encrypted challenge.
   */
  lemma HealthAnswerReadsBack(cfg: Config, s: Suite, signature: string, challenge: string)
    requires CheckHealth(cfg, s, signature, challenge).Opened?
    ensures var ws := HealthWrites(cfg, s, signature, challenge);
      && ws[0].RenderJson?
      && Wxas.UnmarshalHealthResponse(ws[0].body)
         == Some(Wxas.HealthResponse(CheckHealth(cfg, s, signature, challenge).plaintext, "OK"))
    ensures Decode(Std, signature).Some? && VerifySignature(s, cfg.secret, challenge, Decode(Std, signature).value)
    ensures DecryptMessage(s, cfg.privateKey, challenge) == Plaintext(CheckHealth(cfg, s, signature, challenge).plaintext)
  {
    Wxas.HealthRoundTrip(Wxas.HealthResponse(CheckHealth(cfg, s, signature, challenge).plaintext, "OK"));
  }

  /**
   * `handleHealthCheck`: the `signature` and `challenge` query parameters
   * ("" when absent) are checked and the challenge is decrypted and echoed.
   */
  method HandleHealthCheck(cfg: Config, s: Suite, w: ResponseWriter, signature: string, challenge: string)
    modifies w
    ensures w.writes == old(w.writes) + HealthWrites(cfg, s, signature, challenge)
  {
    if signature == "" {
      ErrorResponse(w, StatusBadRequest, "missing signature");
      return;
    }
    if challenge == "" {
      ErrorResponse(w, StatusBadRequest, "missing message");
      return;
    }
    var decodedSignature := Decode(Std, signature);
    if decodedSignature.None? {
      ErrorResponse(w, StatusBadRequest, "error decoding signature");
      return;
    }
    if !VerifySignature(s, cfg.secret, challenge, decodedSignature.value) {
      InvalidSignatureResponse(w);
      return;
    }
    var decrypted := DecryptMessage(s, cfg.privateKey, challenge);
    match decrypted
    case DecryptPanic(p) =>
      w.Append(Panicked(p));
    case DecryptError(_) =>
      ErrorResponse(w, StatusBadRequest, "unable to decrypt message");
    case Plaintext(t) =>
      var whr := Wxas.HealthResponse(t, "OK");
      RenderJSON(w, Wxas.MarshalHealthResponse(whr));
  }

  /**
   * The part of `handleSkills` both secure skills share: decode the body,
   * check the request, and return the decrypted text when every check passed.
   * Everything before that is written to `w`.
   */
  method ReceiveEnvelope(cfg: Config, s: Suite, w: ResponseWriter, r: HttpRequest<Wxas.Request>)
    returns (plaintext: Option<string>)
    modifies w, r
    ensures r.contentType == old(r.contentType) && r.mediaType == old(r.mediaType) && r.body == old(r.body)
    ensures var b := BodyResult(r.contentType, r.mediaType, r.body);
      && (b.Failure? ==> w.writes == old(w.writes) + [BodyErrorWrite(b.error)] && plaintext.None?)
      && (b.Success? ==>
            match CheckRequest(cfg, s, b.value)
            case Rejected(answer) => w.writes == old(w.writes) + [answer] && plaintext.None?
            case Crashed(p) => w.writes == old(w.writes) + [Panicked(p)] && plaintext.None?
            case Opened(t) => w.writes == old(w.writes) && plaintext == Some(t))
  {
    var wr, err := DecodeJSONBody(r);
    if err.Some? {
      RespondToBodyError(w, err.value);
      return None;
    }
    var req := wr.value;

    if req.signature == "" || req.message == "" {
      InvalidRequestResponse(w);
      return None;
    }

    var decodedSignature := Decode(Std, req.signature);
    if decodedSignature.None? {
      ErrorResponse(w, StatusBadRequest, "error decoding signature");
      return None;
    }
    if !VerifySignature(s, cfg.secret, req.message, decodedSignature.value) {
      InvalidSignatureResponse(w);
      return None;
    }

    var decrypted := DecryptMessage(s, cfg.privateKey, req.message);
    match decrypted
    case DecryptPanic(p) =>
      w.Append(Panicked(p));
      return None;
    case DecryptError(_) =>
      ErrorResponse(w, StatusBadRequest, "unable to decrypt message");
      return None;
    case Plaintext(t) =>
      return Some(t);
  }
}
