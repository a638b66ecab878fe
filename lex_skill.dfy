/**
 * The basic Lex skill: after the envelope checks, the message's text is sent
 * to an Amazon Lex bot, and the bot's answer decides what the skill says. A
 * "CityWeather" intent that is ready for fulfilment is answered with the
 * current weather from OpenWeatherMap.
 *
 * The Lex and OpenWeatherMap calls are inputs: what each returns is given.
 */
module LexSkill {
  import opened Wrappers
  import opened Crypto
  import opened Helpers
  import opened Envelope
  import opened Wxas

  const IntroText := "Sorry, I didn't catch what you said."
  const NothingToSay := "Sorry, I have nothing to say to that."
  const NotASkill := "That isn't a skill I have just yet."
  const WeatherError := "Sorry, there was an error retrieving weather information."
  const CityWeatherIntent := "CityWeather"
  const ElicitSlot := "ElicitSlot"
  const ReadyForFulfillment := "ReadyForFulfillment"

  /** The fields of Lex's `PostTextOutput` the skill reads; each is a pointer that may be nil. */
  datatype LexResult = LexResult(
    dialogState: Option<string>,
    intentName: Option<string>,
    message: Option<string>,
    slots: map<string, Option<string>>)

  /** What `PostText` returned: an answer, or an error. */
  datatype LexOutcome = Answered(result: LexResult) | LexFailed(err: string)

  /**
   * What `owm.NewCurrent` and `CurrentByName` gave: an error creating the
   * client, or the current weather: the place name, its weather conditions,
   * and the low and high temperatures as `%2.0f` prints them.
   */
  datatype Weather = ClientFailed(err: string) | Current(name: string, conditions: seq<string>, low: string, high: string)

  /** The sentence the skill speaks about the current weather, from the first condition. */
  function WeatherSentence(name: string, condition: string, low: string, high: string): (s: string)
    ensures s != ""
  {
    "The current weather in " + name + " shows " + condition + ", with a low of " + low + " and a high of " + high + "."
  }

  /** What the skill decides to say, or the panic it runs into on the way. */
  datatype Decision = Say(text: string, listen: bool) | Crash(reason: Panic)

  /**
   * The decision table of `buildResponse` over Lex's answer: only an
   * "ElicitSlot" of the "CityWeather" intent keeps listening, and any turn
   * that leaves the text empty says the fallback text.
   */
  function Decide(lr: LexResult, weather: string -> Weather): (d: Decision)
    ensures lr.dialogState.None? || lr.intentName.None? ==> d == Say(NothingToSay, false)
    ensures lr.dialogState.Some? && lr.intentName.Some? && lr.intentName.value != CityWeatherIntent ==>
      d == Say(NotASkill, false)
    ensures d.Say? && d.listen <==>
      lr.dialogState == Some(ElicitSlot) && lr.intentName == Some(CityWeatherIntent) && lr.message.Some?
    ensures lr.dialogState == Some(ElicitSlot) && lr.intentName == Some(CityWeatherIntent) ==>
      d == (match lr.message
            case None => Crash(NilDereference("*lr.Message"))
            case Some(m) => Say(if m == "" then NothingToSay else m, true))
    ensures lr.dialogState == Some(ReadyForFulfillment) && lr.intentName == Some(CityWeatherIntent) ==>
      (d.Say? <==> "city" in lr.slots && lr.slots["city"].Some?
                   && (weather(lr.slots["city"].value).ClientFailed? || |weather(lr.slots["city"].value).conditions| > 0))
    ensures (lr.dialogState == Some(ReadyForFulfillment) && lr.intentName == Some(CityWeatherIntent)
             && "city" in lr.slots && lr.slots["city"].Some? && weather(lr.slots["city"].value).ClientFailed?) ==>
      d == Say(WeatherError, false)
    ensures (lr.dialogState == Some(ReadyForFulfillment) && lr.intentName == Some(CityWeatherIntent)
             && ("city" !in lr.slots || lr.slots["city"].None?)) ==>
      d == Crash(NilDereference("*lr.Slots[\"city\"]"))
    ensures (lr.dialogState == Some(ReadyForFulfillment) && lr.intentName == Some(CityWeatherIntent)
             && "city" in lr.slots && lr.slots["city"].Some? && weather(lr.slots["city"].value).Current?) ==>
      var w := weather(lr.slots["city"].value);
      d == (if |w.conditions| == 0 then Crash(IndexOutOfRange(0, 0))
            else Say(WeatherSentence(w.name, w.conditions[0], w.low, w.high), false))
    ensures lr.dialogState.Some? && lr.dialogState.value !in {ElicitSlot, ReadyForFulfillment}
      && lr.intentName == Some(CityWeatherIntent)
      ==> d == Say(NothingToSay, false)
    ensures d.Say? ==> d.text != ""
  {
    if lr.dialogState.None? || lr.intentName.None? then Say(NothingToSay, false)
    else if lr.intentName.value != CityWeatherIntent then Say(NotASkill, false)
    else if lr.dialogState.value == ElicitSlot then
      match lr.message
      case None => Crash(NilDereference("*lr.Message"))
      case Some(m) => Say(if m == "" then NothingToSay else m, true)
    else if lr.dialogState.value == ReadyForFulfillment then
      if "city" !in lr.slots || lr.slots["city"].None? then Crash(NilDereference("*lr.Slots[\"city\"]"))
      else
        match weather(lr.slots["city"].value)
        case ClientFailed(_) => Say(WeatherError, false)
        case Current(name, conditions, low, high) =>
          if |conditions| == 0 then Crash(IndexOutOfRange(0, 0))
          else Say(WeatherSentence(name, conditions[0], low, high), false)
    else Say(NothingToSay, false)
  }

  /** `buildSkillIntroResponse`: the intro text, listening, with the message's challenge. */
  function BuildSkillIntroResponse(wam: Message): (r: Response)
    ensures ReadTurn(r) == Some((IntroText, true))
    ensures r.challenge == wam.challenge
  {
    Response(Some(TurnDirectives(IntroText, true)), wam.challenge)
  }

  /** What `buildResponse` comes to: a response, the Lex error (returned beside the zero response), or a panic. */
  datatype Built = Built(response: Response) | BuildFailed(err: string) | BuildPanicked(reason: Panic)

  /** The outcome `buildResponse` reaches for a message, given what Lex and OpenWeatherMap return. */
  function BuildOutcome(wam: Message, lex: (string, Option<string>) -> LexOutcome, weather: string -> Weather): (b: Built)
    ensures wam.params.targetDialogueState == SkillIntro ==> b == Built(BuildSkillIntroResponse(wam))
    ensures b.BuildFailed? ==> lex(wam.text, wam.context.userId) == LexFailed(b.err)
    ensures b.Built? ==> ReadTurn(b.response).Some? && b.response.challenge == wam.challenge
    ensures wam.params.targetDialogueState != SkillIntro && lex(wam.text, wam.context.userId).LexFailed? ==>
      b == BuildFailed(lex(wam.text, wam.context.userId).err)
    ensures wam.params.targetDialogueState != SkillIntro && lex(wam.text, wam.context.userId).Answered? ==>
      var d := Decide(lex(wam.text, wam.context.userId).result, weather);
      b == (match d
            case Say(t, l) => Built(Response(Some(TurnDirectives(t, l)), wam.challenge))
            case Crash(p) => BuildPanicked(p))
  {
    if wam.params.targetDialogueState == SkillIntro then Built(BuildSkillIntroResponse(wam))
    else
      match lex(wam.text, wam.context.userId)
      case LexFailed(e) => BuildFailed(e)
      case Answered(lr) =>
        match Decide(lr, weather)
        case Say(text, listen) => Built(Response(Some(TurnDirectives(text, listen)), wam.challenge))
        case Crash(p) => BuildPanicked(p)
  }

  /**
   * `buildResponse`: the intro turn is answered without asking Lex;
   * otherwise Lex is asked about the message's text for the message's user,
   * and `text`, `city` and `listenOrSleep` are set from its answer.
   */
  method BuildResponse(wam: Message, lex: (string, Option<string>) -> LexOutcome, weather: string -> Weather)
    returns (built: Built)
    ensures built == BuildOutcome(wam, lex, weather)
  {
    if wam.params.targetDialogueState == SkillIntro {
      return Built(BuildSkillIntroResponse(wam));
    }
    var outcome := lex(wam.text, wam.context.userId);
    if outcome.LexFailed? {
      return BuildFailed(outcome.err);
    }
    var lr := outcome.result;
    var city, text := "", "";
    var listenOrSleep := NameSleep;
    if lr.dialogState.Some? && lr.intentName.Some? {
      if lr.intentName.value != CityWeatherIntent {
        text := NotASkill;
      } else if lr.dialogState.value == ElicitSlot {
        if lr.message.None? {
          return BuildPanicked(NilDereference("*lr.Message"));
        }
        text := lr.message.value;
        listenOrSleep := NameListen;
      } else if lr.dialogState.value == ReadyForFulfillment {
        if "city" !in lr.slots || lr.slots["city"].None? {
          return BuildPanicked(NilDereference("*lr.Slots[\"city\"]"));
        }
        city := lr.slots["city"].value;
        match weather(city)
        case ClientFailed(_) =>
          text := WeatherError;
        case Current(name, conditions, low, high) =>
          if |conditions| == 0 {
            return BuildPanicked(IndexOutOfRange(0, 0));
          }
          text := WeatherSentence(name, conditions[0], low, high);
          listenOrSleep := NameSleep;
      }
    }
    if text == "" {
      text := NothingToSay;
    }
    var wr := ZeroResponse;
    wr := wr.(directives := Some([
      Directive(NameReply, TypeView, TextPayload(text)),
      Directive(NameSpeak, TypeAction, TextPayload(text)),
      Directive(listenOrSleep, TypeAction, EmptyPayload)]));
    wr := wr.(challenge := wam.challenge);
    return Built(wr);
  }

  /** What is written for the outcome of `buildResponse`. */
  function BuiltWrites(built: Built): (ws: seq<Write>)
    ensures |ws| >= 1 && (built.BuildFailed? ==> |ws| == 2)
    ensures built.Built? ==> ws == [RenderJson(MarshalResponse(built.response))]
    ensures built.BuildFailed? ==> ws == [ErrorText(StatusInternalServerError, "Internal Server Error"), RenderJson(MarshalResponse(ZeroResponse))]
    ensures built.BuildPanicked? ==> ws == [Panicked(built.reason)]
  {
    match built
    case Built(resp) => [RenderJson(MarshalResponse(resp))]
    case BuildFailed(_) => [ErrorText(StatusInternalServerError, "Internal Server Error"), RenderJson(MarshalResponse(ZeroResponse))]
    case BuildPanicked(p) => [Panicked(p)]
  }

  /** What `handleSkills` writes once the envelope opened: the unmarshal error if any, then the outcome of `buildResponse`. */
  function AnswerWrites(u: Unmarshalled, built: Built): (ws: seq<Write>)
    ensures |ws| >= 1 && (built.BuildFailed? ==> |ws| >= 2)
    ensures built.Built? ==> ws[|ws| - 1] == RenderJson(MarshalResponse(built.response))
    ensures built.BuildFailed? ==> ws[|ws| - 2..] == [ErrorText(StatusInternalServerError, "Internal Server Error"), RenderJson(MarshalResponse(ZeroResponse))]
    ensures built.BuildPanicked? ==> ws[|ws| - 1] == Panicked(built.reason)
    ensures u.failed <==> |ws| >= 1 && ws[0] == ErrorJson(StatusBadRequest, "unable to unmarshal message")
  {
    (if u.failed then [ErrorJson(StatusBadRequest, "unable to unmarshal message")] else []) + BuiltWrites(built)
  }

  /**
   * `handleSkills`: the envelope checks, then the unmarshalled message is
   * answered. After a failed unmarshal, and after a failed `buildResponse`,
   * processing carries on, so a second response follows the first.
   */
  method HandleSkills(cfg: Config, s: Suite, unmarshal: string -> Unmarshalled,
                      lex: (string, Option<string>) -> LexOutcome, weather: string -> Weather,
                      w: ResponseWriter, r: HttpRequest<Request>)
    modifies w, r
    ensures var b := BodyResult(r.contentType, r.mediaType, r.body);
      && (b.Failure? ==> w.writes == old(w.writes) + [BodyErrorWrite(b.error)])
      && (b.Success? ==>
            match CheckRequest(cfg, s, b.value)
            case Rejected(answer) => w.writes == old(w.writes) + [answer]
            case Crashed(p) => w.writes == old(w.writes) + [Panicked(p)]
            case Opened(t) =>
              w.writes == old(w.writes) + AnswerWrites(unmarshal(t), BuildOutcome(unmarshal(t).message, lex, weather)))
  {
    var decrypted := ReceiveEnvelope(cfg, s, w, r);
    if decrypted.None? {
      return;
    }
    Answer(unmarshal(decrypted.value), lex, weather, w);
  }

  /** The rest of `handleSkills`, once the envelope opened. */
  method Answer(u: Unmarshalled, lex: (string, Option<string>) -> LexOutcome, weather: string -> Weather, w: ResponseWriter)
    modifies w
    ensures w.writes == old(w.writes) + AnswerWrites(u, BuildOutcome(u.message, lex, weather))
  {
    if u.failed {
      ErrorResponse(w, StatusBadRequest, "unable to unmarshal message");
    }
    var resp := BuildResponse(u.message, lex, weather);
    WriteBuilt(w, resp);
  }

  /** The writes for the outcome of `buildResponse`. */
  method WriteBuilt(w: ResponseWriter, built: Built)
    modifies w
    ensures w.writes == old(w.writes) + BuiltWrites(built)
  {
    match built
    case BuildPanicked(p) =>
      w.Append(Panicked(p));
    case BuildFailed(_) =>
      ServerError(w);
      // the response returned beside the error is the zero response
      RenderJSON(w, MarshalResponse(ZeroResponse));
    case Built(wr) =>
      RenderJSON(w, MarshalResponse(wr));
  }
}
