/**
 * The secure echo skill: it checks and decrypts the envelope, then echoes
 * the message's text back, or introduces itself on the "skill_intro"
 * dialogue state.
 */
module EchoSecure {
  import opened Wrappers
  import opened Crypto
  import opened Helpers
  import opened Envelope
  import opened Wxas
  import opened Echo

  /**
   * `buildResponse` of the secure skill: reply and speak carrying the text,
   * then listen or sleep, with the challenge copied; its error is always nil.
   */
  function BuildResponse(text: string, challenge: string, shouldListen: bool): (r: (Response, Option<string>))
    ensures r.1 == None
    ensures ReadTurn(r.0) == Some((text, shouldListen))
    ensures r.0.challenge == challenge
    ensures r.0.directives.Some? && |r.0.directives.value| == 3
    ensures r.0.directives.value[2].name == (if shouldListen then NameListen else NameSleep)
  {
    (Response(Some(TurnDirectives(text, shouldListen)), challenge), None)
  }

  /** What `handleSkills` writes once the envelope opened: the unmarshal error, if any, and then the reply anyway. */
  function AnswerWrites(u: Unmarshalled): (ws: seq<Write>)
    ensures |ws| >= 1 && ws[|ws| - 1].RenderJson?
    ensures u.failed <==> |ws| == 2
    ensures u.failed ==> ws[0] == ErrorJson(StatusBadRequest, "unable to unmarshal message")
    ensures ws[|ws| - 1] == RenderJson(MarshalResponse(
      Response(Some(TurnDirectives(Reply(u.message).0, Reply(u.message).1)), u.message.challenge)))
  {
    var (text, shouldListen) := Reply(u.message);
    (if u.failed then [ErrorJson(StatusBadRequest, "unable to unmarshal message")] else [])
    + [RenderJson(MarshalResponse(BuildResponse(text, u.message.challenge, shouldListen).0))]
  }

  /**
   * `handleSkills`: the envelope checks, then the unmarshalled message is
   * answered. A failed unmarshal is reported and processing carries on with
   * whatever the message holds, so a second response follows.
   */
  method HandleSkills(cfg: Config, s: Suite, unmarshal: string -> Unmarshalled, w: ResponseWriter, r: HttpRequest<Request>)
    modifies w, r
    ensures var b := BodyResult(r.contentType, r.mediaType, r.body);
      && (b.Failure? ==> w.writes == old(w.writes) + [BodyErrorWrite(b.error)])
      && (b.Success? ==>
            match CheckRequest(cfg, s, b.value)
            case Rejected(answer) => w.writes == old(w.writes) + [answer]
            case Crashed(p) => w.writes == old(w.writes) + [Panicked(p)]
            case Opened(t) => w.writes == old(w.writes) + AnswerWrites(unmarshal(t)))
  {
    var decrypted := ReceiveEnvelope(cfg, s, w, r);
    if decrypted.None? {
      return;
    }
    Answer(unmarshal(decrypted.value), w);
  }

  /** The rest of `handleSkills`, once the envelope opened. */
  method Answer(u: Unmarshalled, w: ResponseWriter)
    modifies w
    ensures w.writes == old(w.writes) + AnswerWrites(u)
  {
    var wam := u.message;
    if u.failed {
      ErrorResponse(w, StatusBadRequest, "unable to unmarshal message");
    }
    var text, shouldListen := ChooseReply(wam);
    var (resp, err) := BuildResponse(text, wam.challenge, shouldListen);
    // the error is always nil, so the `serverError` branch is never taken
    assert err.None?;
    RenderJSON(w, MarshalResponse(resp));
  }
}
