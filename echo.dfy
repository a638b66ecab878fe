/**
 * The plain echo skill: the request body is the message itself, unsigned
 * and unencrypted; the skill echoes its text back, or introduces itself on
 * the "skill_intro" dialogue state. The secure echo skill routes messages
 * with the same code.
 */
module Echo {
  import opened Wrappers
  import opened Helpers
  import opened Wxas

  const IntroText := "This is the echo skill.  Say something and I will echo it back."
  const NothingToEcho := "Hmm... I didn't get anything to echo"

  /** What the skill says to a message, and whether it keeps listening. */
  function Reply(wam: Message): (r: (string, bool))
    ensures wam.params.targetDialogueState == SkillIntro ==> r == (IntroText, true)
    ensures wam.params.targetDialogueState != SkillIntro ==> !r.1
    ensures wam.params.targetDialogueState != SkillIntro && wam.text != "" ==> r.0 == wam.text
    ensures wam.params.targetDialogueState != SkillIntro && wam.text == "" ==> r.0 == NothingToEcho
    ensures r.0 != ""
  {
    if wam.params.targetDialogueState == SkillIntro then (IntroText, true)
    else if |wam.text| > 0 then (wam.text, false)
    else (NothingToEcho, false)
  }

  /** The routing in `handleSkills`: `shouldListen` starts false and `text` is chosen step by step. */
  method ChooseReply(wam: Message) returns (text: string, shouldListen: bool)
    ensures (text, shouldListen) == Reply(wam)
  {
    shouldListen := false;
    if wam.params.targetDialogueState == SkillIntro {
      text := IntroText;
      shouldListen := true;
    } else {
      if |wam.text| > 0 {
        text := wam.text;
      } else {
        text := NothingToEcho;
      }
    }
  }

  /**
   * `buildResponse` of the plain skill: reply and speak carrying the text,
   * then listen or sleep; the challenge is never set, and the error is
   * always nil.
   */
  function BuildResponse(text: string, shouldListen: bool): (r: (Response, Option<string>))
    ensures r.1 == None
    ensures ReadTurn(r.0) == Some((text, shouldListen))
    ensures r.0.challenge == ""
    ensures r.0.directives.Some? && |r.0.directives.value| == 3
    ensures r.0.directives.value[2].name == (if shouldListen then NameListen else NameSleep)
  {
    (Response(Some(TurnDirectives(text, shouldListen)), ""), None)
  }

  /**
   * `handleSkills`: a body that does not decode is answered with its
   * problem; otherwise the reply to the message is rendered.
   */
  method HandleSkills(w: ResponseWriter, r: HttpRequest<Message>)
    modifies w, r
    ensures var b := BodyResult(r.contentType, r.mediaType, r.body);
      && (b.Failure? ==> w.writes == old(w.writes) + [BodyErrorWrite(b.error)])
      && (b.Success? ==>
            w.writes == old(w.writes) + [RenderJson(MarshalResponse(BuildResponse(Reply(b.value).0, Reply(b.value).1).0))])
  {
    var wr, err := DecodeJSONBody(r);
    if err.Some? {
      RespondToBodyError(w, err.value);
      return;
    }
    var text, shouldListen := ChooseReply(wr.value);
    var (resp, buildErr) := BuildResponse(text, shouldListen);
    // the error is always nil, so the `serverError` branch is never taken
    assert buildErr.None?;
    RenderJSON(w, MarshalResponse(resp));
  }
}
