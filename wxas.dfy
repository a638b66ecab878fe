/**
 * The Webex Assistant wire types of the `wxas` package: the open
 * string-backed enumerations `DirectiveName` and `DirectiveType`, the
 * directive, payload, response, health-response, request and message
 * records, and how `encoding/json` writes them.
 *
 * JSON is modelled as a value (`Json`), not as text: marshalling gives the
 * value `encoding/json` would print, with the fields in declaration order.
 */
module Wxas {
  import opened Wrappers

  /** A JSON value. Go structs become `JObject` with ordered fields, Go maps `JStringMap`. */
  datatype Json =
    | JNull
    | JBool(b: bool)
    | JNumber(n: int)
    | JString(s: string)
    | JArray(items: seq<Json>)
    | JObject(fields: seq<(string, Json)>)
    | JStringMap(entries: map<string, string>)
  {
    /** The word `encoding/json` uses for the kind of a value in a type error. */
    function Kind(): string {
      match this
      case JNull => "null"
      case JBool(_) => "bool"
      case JNumber(_) => "number"
      case JString(_) => "string"
      case JArray(_) => "array"
      case JObject(_) => "object"
      case JStringMap(_) => "object"
    }

    /** The value of an object's field `key`, if the object has one (the first, were there several). */
    function Get(key: string): Option<Json>
      requires JObject?
    {
      Lookup(fields, key)
    }
  }

  function Lookup(fields: seq<(string, Json)>, key: string): Option<Json> {
    if fields == [] then None
    else if fields[0].0 == key then Some(fields[0].1)
    else Lookup(fields[1..], key)
  }

  /** Looking a key up in two runs of fields written one after the other. */
  lemma {:induction false} LookupAppend(f: seq<(string, Json)>, g: seq<(string, Json)>, key: string)
    ensures Lookup(f + g, key) == if Lookup(f, key).Some? then Lookup(f, key) else Lookup(g, key)
  {
    if f != [] {
      assert (f + g)[0] == f[0];
      assert (f + g)[1..] == f[1..] + g;
      LookupAppend(f[1..], g, key);
    } else {
      assert f + g == g;
    }
  }

  /** An `*json.UnmarshalTypeError`: a JSON value of the wrong kind for the Go type. */
  datatype UnmarshalTypeError = UnmarshalTypeError(value: string, goType: string)

  /**
   * `json.Unmarshal(data, &s)` into a fresh string variable: a JSON string
   * gives its contents, `null` leaves the variable at "" without error, any
   * other value is a type error.
   */
  function UnmarshalString(data: Json): (r: Result<string, UnmarshalTypeError>)
    ensures r.Success? <==> data.JString? || data.JNull?
    ensures data.JString? ==> r == Success(data.s)
    ensures data.JNull? ==> r == Success("")
    ensures r.Failure? ==> r.error == UnmarshalTypeError(data.Kind(), "string")
  {
    match data
    case JString(s) => Success(s)
    case JNull => Success("")
    case _ => Failure(UnmarshalTypeError(data.Kind(), "string"))
  }

  /** `DirectiveName`: a wrapper around any slug, so names the package does not know are kept. */
  datatype DirectiveName = DirectiveName(slug: string) {
    /** `String()`: the slug, from which the name can be rebuilt. */
    function String(): (s: string)
      ensures DirectiveName(s) == this
    {
      slug
    }

    /** `MarshalJSON()`: the slug as a JSON string. */
    function MarshalJSON(): (j: Json)
      ensures j.JString? && UnmarshalString(j) == Success(String())
    {
      JString(slug)
    }
  }

  /** `DirectiveType`: the same open wrapper for directive types. */
  datatype DirectiveType = DirectiveType(slug: string) {
    function String(): (s: string)
      ensures DirectiveType(s) == this
    {
      slug
    }

    function MarshalJSON(): (j: Json)
      ensures j.JString? && UnmarshalString(j) == Success(String())
    {
      JString(slug)
    }
  }

  /**
   * A variable of type `DirectiveName` that `encoding/json` decodes into:
   * `UnmarshalJSON` has a pointer receiver and overwrites the slug.
   */
  class DirectiveNameVar {
    var value: DirectiveName

    constructor (initial: DirectiveName)
      ensures value == initial
    {
      value := initial;
    }

    /** `UnmarshalJSON`: any JSON string is accepted as the new slug; a type error leaves the slug alone. */
    method UnmarshalJSON(data: Json) returns (err: Option<UnmarshalTypeError>)
      modifies this
      ensures err.None? <==> UnmarshalString(data).Success?
      ensures err.None? ==> value == DirectiveName(UnmarshalString(data).value)
      ensures err.Some? ==> value == old(value) && err.value == UnmarshalString(data).error
    {
      var s: string;
      match UnmarshalString(data)
      case Failure(e) =>
        return Some(e);
      case Success(decoded) =>
        s := decoded;
      value := DirectiveName(s);
      err := None;
    }
  }

  /** The same decoding target for `DirectiveType`. */
  class DirectiveTypeVar {
    var value: DirectiveType

    constructor (initial: DirectiveType)
      ensures value == initial
    {
      value := initial;
    }

    method UnmarshalJSON(data: Json) returns (err: Option<UnmarshalTypeError>)
      modifies this
      ensures err.None? <==> UnmarshalString(data).Success?
      ensures err.None? ==> value == DirectiveType(UnmarshalString(data).value)
      ensures err.Some? ==> value == old(value) && err.value == UnmarshalString(data).error
    {
      var s: string;
      match UnmarshalString(data)
      case Failure(e) =>
        return Some(e);
      case Success(decoded) =>
        s := decoded;
      value := DirectiveType(s);
      err := None;
    }
  }

  const NameReply := DirectiveName("reply")
  const NameSpeak := DirectiveName("speak")
  const NameListen := DirectiveName("listen")
  const NameSleep := DirectiveName("sleep")
  const NameUIHint := DirectiveName("ui-hint")
  const NameDisplayWebView := DirectiveName("display-web-view")
  const NameClearWebView := DirectiveName("clear-web-view")
  const NameAssistantEvent := DirectiveName("assistant-event")
  const TypeView := DirectiveType("view")
  const TypeAction := DirectiveType("action")

  /** The eight named directives, in declaration order. */
  const KnownNames: seq<DirectiveName> :=
    [NameReply, NameSpeak, NameListen, NameSleep, NameUIHint, NameDisplayWebView, NameClearWebView, NameAssistantEvent]

  /** The named directive slugs are pairwise distinct, and so are the two type slugs. */
  lemma NamedSlugsDistinct()
    ensures forall i, j :: 0 <= i < j < |KnownNames| ==> KnownNames[i].slug != KnownNames[j].slug
    ensures TypeView.slug == "view" && TypeAction.slug == "action" && TypeView != TypeAction
  {
  }

  /** A slug round-trips through JSON, whether or not it is one of the named constants. */
  lemma SlugRoundTrip(slug: string)
    ensures UnmarshalString(DirectiveName(slug).MarshalJSON()) == Success(slug)
    ensures UnmarshalString(DirectiveType(slug).MarshalJSON()) == Success(slug)
    ensures DirectiveName(slug) !in KnownNames ==> UnmarshalString(JString(slug)).Success?
  {
  }

  /** `Payload`: every field is optional (a nil pointer or an empty map when absent). */
  datatype Payload = Payload(
    text: Option<string>,
    delay: Option<int>,
    prompt: Option<string>,
    displayImmediately: Option<bool>,
    title: Option<string>,
    url: Option<string>,
    payload: map<string, string>)

  /** The zero `Payload{}`: nothing set. */
  const EmptyPayload := Payload(None, None, None, None, None, None, map[])

  /** `Payload{Text: &text}`. */
  function TextPayload(text: string): Payload {
    EmptyPayload.(text := Some(text))
  }

  /** The field named `key` with the JSON of `v`, or nothing when `v` is absent (`omitempty` on a pointer). */
  function OptField<T>(key: string, v: Option<T>, json: T -> Json): (f: seq<(string, Json)>)
    ensures |f| <= 1
  {
    match v
    case Some(x) => [(key, json(x))]
    case None => []
  }

  /** An optional field followed by more fields: the key finds the field's value when it is present. */
  lemma LookupOptField<T>(key: string, v: Option<T>, json: T -> Json, rest: seq<(string, Json)>, k: string)
    ensures Lookup(OptField(key, v, json) + rest, k)
      == if k == key && v.Some? then Some(json(v.value)) else Lookup(rest, k)
  {
    LookupAppend(OptField(key, v, json), rest, k);
  }

  function StringJson(s: string): Json { JString(s) }
  function IntJson(n: int): Json { JNumber(n) }
  function BoolJson(b: bool): Json { JBool(b) }

  /** The trailing `payload` map field, left out when the map is empty. */
  function MapField(m: map<string, string>): seq<(string, Json)> {
    if |m| == 0 then [] else [("payload", JStringMap(m))]
  }

  /** The JSON of a payload: only the fields that are set, in declaration order. */
  function MarshalPayload(p: Payload): (j: Json)
    ensures j.JObject? && |j.fields| <= 7
    ensures p == EmptyPayload ==> j == JObject([])
  {
    JObject(
      OptField("text", p.text, StringJson)
      + (OptField("delay", p.delay, IntJson)
      + (OptField("prompt", p.prompt, StringJson)
      + (OptField("displayImmediately", p.displayImmediately, BoolJson)
      + (OptField("title", p.title, StringJson)
      + (OptField("url", p.url, StringJson)
      + MapField(p.payload)))))))
  }

  /** Decoding a pointer field: absent or null leaves it nil, a value of the wrong kind is an error. */
  function DecodeOptional<T>(v: Option<Json>, decode: Json -> Option<T>): Option<Option<T>> {
    match v
    case None => Some(None)
    case Some(JNull) => Some(None)
    case Some(x) =>
      match decode(x)
      case Some(t) => Some(Some(t))
      case None => None
  }

  function AsString(j: Json): Option<string> { if j.JString? then Some(j.s) else None }
  function AsInt(j: Json): Option<int> { if j.JNumber? then Some(j.n) else None }
  function AsBool(j: Json): Option<bool> { if j.JBool? then Some(j.b) else None }

  /** How a reader of the JSON decodes a payload object; None on a field of the wrong kind. */
  function UnmarshalPayload(j: Json): Option<Payload> {
    if !j.JObject? then None
    else
      var text := DecodeOptional(j.Get("text"), AsString);
      var delay := DecodeOptional(j.Get("delay"), AsInt);
      var prompt := DecodeOptional(j.Get("prompt"), AsString);
      var displayImmediately := DecodeOptional(j.Get("displayImmediately"), AsBool);
      var title := DecodeOptional(j.Get("title"), AsString);
      var url := DecodeOptional(j.Get("url"), AsString);
      var m := match j.Get("payload")
        case None => Some(map[])
        case Some(JNull) => Some(map[])
        case Some(JStringMap(m)) => Some(m)
        case Some(_) => None;
      if text.None? || delay.None? || prompt.None? || displayImmediately.None? || title.None? || url.None? || m.None?
      then None
      else Some(Payload(text.value, delay.value, prompt.value, displayImmediately.value, title.value, url.value, m.value))
  }

  /** What the marshalled payload holds under `key`: the field's value when it is set, nothing otherwise. */
  function PayloadField(p: Payload, key: string): Option<Json> {
    match key
    case "text" => if p.text.Some? then Some(JString(p.text.value)) else None
    case "delay" => if p.delay.Some? then Some(JNumber(p.delay.value)) else None
    case "prompt" => if p.prompt.Some? then Some(JString(p.prompt.value)) else None
    case "displayImmediately" => if p.displayImmediately.Some? then Some(JBool(p.displayImmediately.value)) else None
    case "title" => if p.title.Some? then Some(JString(p.title.value)) else None
    case "url" => if p.url.Some? then Some(JString(p.url.value)) else None
    case "payload" => if |p.payload| == 0 then None else Some(JStringMap(p.payload))
    case _ => None
  }

  /** Each field of the marshalled payload holds exactly what the payload holds, and absent fields are not written. */
  lemma MarshalPayloadField(p: Payload, key: string)
    ensures MarshalPayload(p).Get(key) == PayloadField(p, key)
  {
    var m := MapField(p.payload);
    var f6 := OptField("url", p.url, StringJson) + m;
    var f5 := OptField("title", p.title, StringJson) + f6;
    var f4 := OptField("displayImmediately", p.displayImmediately, BoolJson) + f5;
    var f3 := OptField("prompt", p.prompt, StringJson) + f4;
    var f2 := OptField("delay", p.delay, IntJson) + f3;
    var f1 := OptField("text", p.text, StringJson) + f2;
    assert MarshalPayload(p).fields == f1;
    LookupOptField("text", p.text, StringJson, f2, key);
    LookupOptField("delay", p.delay, IntJson, f3, key);
    LookupOptField("prompt", p.prompt, StringJson, f4, key);
    LookupOptField("displayImmediately", p.displayImmediately, BoolJson, f5, key);
    LookupOptField("title", p.title, StringJson, f6, key);
    LookupOptField("url", p.url, StringJson, m, key);
    LookupMapField(p.payload, key);
  }

  /** The `payload` field, when written, is the one field under its key. */
  lemma LookupMapField(m: map<string, string>, key: string)
    ensures Lookup(MapField(m), key) == if key == "payload" && |m| != 0 then Some(JStringMap(m)) else None
  {
    if |m| != 0 {
      assert MapField(m)[1..] == [];
    }
  }

  /** A set field decodes back to its value, and an absent one to nil. */
  lemma DecodeField<T>(p: Payload, key: string, v: Option<T>, json: T -> Json, decode: Json -> Option<T>)
    requires PayloadField(p, key) == (if v.Some? then Some(json(v.value)) else None)
    requires v.Some? ==> json(v.value) != JNull && decode(json(v.value)) == Some(v.value)
    ensures DecodeOptional(MarshalPayload(p).Get(key), decode) == Some(v)
  {
    MarshalPayloadField(p, key);
  }

  /** An object whose fields decode to those of `p` decodes to `p`. */
  lemma UnmarshalFields(j: Json, p: Payload)
    requires j.JObject?
    requires DecodeOptional(j.Get("text"), AsString) == Some(p.text)
    requires DecodeOptional(j.Get("delay"), AsInt) == Some(p.delay)
    requires DecodeOptional(j.Get("prompt"), AsString) == Some(p.prompt)
    requires DecodeOptional(j.Get("displayImmediately"), AsBool) == Some(p.displayImmediately)
    requires DecodeOptional(j.Get("title"), AsString) == Some(p.title)
    requires DecodeOptional(j.Get("url"), AsString) == Some(p.url)
    requires j.Get("payload") == (if |p.payload| == 0 then None else Some(JStringMap(p.payload)))
    ensures UnmarshalPayload(j) == Some(p)
  {
  }

  /** A payload survives the trip through JSON: `omitempty` drops only what decodes back to nothing. */
  lemma PayloadRoundTrip(p: Payload)
    ensures UnmarshalPayload(MarshalPayload(p)) == Some(p)
  {
    DecodeField(p, "text", p.text, StringJson, AsString);
    DecodeField(p, "delay", p.delay, IntJson, AsInt);
    DecodeField(p, "prompt", p.prompt, StringJson, AsString);
    DecodeField(p, "displayImmediately", p.displayImmediately, BoolJson, AsBool);
    DecodeField(p, "title", p.title, StringJson, AsString);
    DecodeField(p, "url", p.url, StringJson, AsString);
    MarshalPayloadField(p, "payload");
    UnmarshalFields(MarshalPayload(p), p);
  }

  /** `WebexAssistantDirective`. */
  datatype Directive = Directive(name: DirectiveName, dtype: DirectiveType, payload: Payload)

  /** A directive is an object with exactly the fields `name`, `type` and `payload`, none of them omitted. */
  function MarshalDirective(d: Directive): (j: Json)
    ensures j.JObject? && |j.fields| == 3
    ensures j.Get("name") == Some(JString(d.name.slug))
    ensures j.Get("type") == Some(JString(d.dtype.slug))
    ensures j.Get("payload") == Some(MarshalPayload(d.payload))
  {
    var fields := [("name", d.name.MarshalJSON()), ("type", d.dtype.MarshalJSON()), ("payload", MarshalPayload(d.payload))];
    assert fields[1..][1..] == [("payload", MarshalPayload(d.payload))];
    assert "name"[0] != "type"[0] && "name"[0] != "payload"[0] && "type"[0] != "payload"[0];
    assert Lookup(fields[1..][1..], "payload") == Some(MarshalPayload(d.payload));
    assert Lookup(fields[1..], "payload") == Some(MarshalPayload(d.payload));
    assert Lookup(fields[1..], "type") == Some(JString(d.dtype.slug));
    JObject(fields)
  }

  /** How a reader of the JSON decodes a directive; None when a field is missing or of the wrong kind. */
  function UnmarshalDirective(j: Json): Option<Directive> {
    if !j.JObject? || j.Get("name").None? || j.Get("type").None? || j.Get("payload").None? then None
    else
      match (AsString(j.Get("name").value), AsString(j.Get("type").value), UnmarshalPayload(j.Get("payload").value))
      case (Some(name), Some(dtype), Some(payload)) => Some(Directive(DirectiveName(name), DirectiveType(dtype), payload))
      case _ => None
  }

  /** Every directive, named or not, survives the trip through JSON. */
  lemma DirectiveRoundTrip(d: Directive)
    ensures UnmarshalDirective(MarshalDirective(d)) == Some(d)
  {
    PayloadRoundTrip(d.payload);
  }

  /**
   * `WebexAssistantResponse`. `directives` is a Go slice: None stands for a
   * nil slice, which `encoding/json` writes as null.
   */
  datatype Response = Response(directives: Option<seq<Directive>>, challenge: string)

  /** The zero `WebexAssistantResponse{}`. */
  const ZeroResponse := Response(None, "")

  function MarshalResponse(r: Response): (j: Json)
    ensures j.JObject? && |j.fields| == 2
    ensures j.Get("challenge") == Some(JString(r.challenge))
    ensures j.Get("directives") == Some(JNull) <==> r.directives.None?
    ensures r.directives.Some? ==>
      (j.Get("directives").Some? && j.Get("directives").value.JArray?
       && |j.Get("directives").value.items| == |r.directives.value|)
    ensures r.directives.Some? ==>
      forall i :: 0 <= i < |r.directives.value| ==>
        j.Get("directives").value.items[i] == MarshalDirective(r.directives.value[i])
  {
    var ds := match r.directives
      case None => JNull
      case Some(ds) => JArray(seq(|ds|, i requires 0 <= i < |ds| => MarshalDirective(ds[i])));
    var fields := [("directives", ds), ("challenge", JString(r.challenge))];
    assert fields[1..] == [("challenge", JString(r.challenge))] && "challenge"[0] != "directives"[0];
    assert Lookup(fields[1..], "challenge") == Some(JString(r.challenge));
    JObject(fields)
  }

  /** `WebexAssistantHealthResponse`: both fields are left out when empty. */
  datatype HealthResponse = HealthResponse(challenge: string, status: string)

  /** A string field with `omitempty`: left out when empty. */
  function NonEmptyField(key: string, v: string): seq<(string, Json)> {
    if v == "" then [] else [(key, JString(v))]
  }

  function MarshalHealthResponse(h: HealthResponse): (j: Json)
    ensures j.JObject?
    ensures h.challenge == "" && h.status == "" ==> j == JObject([])
    ensures j.Get("challenge") == if h.challenge == "" then None else Some(JString(h.challenge))
    ensures j.Get("status") == if h.status == "" then None else Some(JString(h.status))
  {
    var c, st := NonEmptyField("challenge", h.challenge), NonEmptyField("status", h.status);
    LookupAppend(c, st, "challenge");
    LookupAppend(c, st, "status");
    JObject(c + st)
  }

  /** How a reader decodes a health response: an absent field reads as "". */
  function UnmarshalHealthResponse(j: Json): Option<HealthResponse> {
    if !j.JObject? then None
    else
      var challenge := DecodeOptional(j.Get("challenge"), AsString);
      var status := DecodeOptional(j.Get("status"), AsString);
      if challenge.None? || status.None? then None
      else Some(HealthResponse(challenge.value.GetOr(""), status.value.GetOr("")))
  }

  /** A health response survives the trip through JSON, although empty fields are not written. */
  lemma HealthRoundTrip(h: HealthResponse)
    ensures UnmarshalHealthResponse(MarshalHealthResponse(h)) == Some(h)
  {
    var c, st := NonEmptyField("challenge", h.challenge), NonEmptyField("status", h.status);
    LookupAppend(c, st, "challenge");
    LookupAppend(c, st, "status");
  }

  /** `WebexAssistantRequest`: the transport body, a signature over an encrypted message. */
  datatype Request = Request(signature: string, message: string)

  /** `Context`: who is asking. */
  datatype Context = Context(
    orgId: Option<string>,
    userId: Option<string>,
    userType: Option<string>,
    supportedDirectives: seq<string>,
    developerDeviceId: Option<string>)

  /** `Params`: `targetDialogueState` is the routing field. */
  datatype Params = Params(
    targetDialogueState: string,
    timeZone: string,
    timestamp: int,
    language: string,
    locale: string)

  /** `WebexAssistantMessage`, the decrypted payload. */
  datatype Message = Message(text: string, context: Context, params: Params, challenge: string)

  /** The zero `WebexAssistantMessage{}`. */
  const ZeroMessage := Message("", Context(None, None, None, [], None), Params("", "", 0, "", ""), "")

  /** The dialogue state that asks a skill to introduce itself. */
  const SkillIntro := "skill_intro"

  /**
   * How the assistant reads a response as one turn: a reply (view) and a
   * speak (action) carrying the same text, then listen or sleep as an action
   * with an empty payload. Gives the text and whether the assistant keeps
   * listening, or None when the response is not of that shape.
   */
  function ReadTurn(r: Response): Option<(string, bool)> {
    match r.directives
    case Some(ds) =>
      if |ds| == 3
        && ds[0].name.slug == "reply" && ds[0].dtype.slug == "view"
        && ds[1].name.slug == "speak" && ds[1].dtype.slug == "action"
        && ds[0].payload.text.Some? && ds[0].payload == ds[1].payload == TextPayload(ds[0].payload.text.value)
        && ds[2].name.slug in {"listen", "sleep"} && ds[2].dtype.slug == "action" && ds[2].payload == EmptyPayload
      then Some((ds[0].payload.text.value, ds[2].name.slug == "listen"))
      else None
    case None => None
  }

  /** The three directives every builder in the example skills emits. */
  function TurnDirectives(text: string, listen: bool): (ds: seq<Directive>)
    ensures ReadTurn(Response(Some(ds), "")) == Some((text, listen))
  {
    [Directive(NameReply, TypeView, TextPayload(text)),
     Directive(NameSpeak, TypeAction, TextPayload(text)),
     Directive(if listen then NameListen else NameSleep, TypeAction, EmptyPayload)]
  }

  /** A response the assistant reads as a turn is exactly the turn directives for what it reads. */
  lemma ReadTurnInverse(r: Response)
    requires ReadTurn(r).Some?
    ensures r == Response(Some(TurnDirectives(ReadTurn(r).value.0, ReadTurn(r).value.1)), r.challenge)
  {
    var ds := r.directives.value;
    assert ds == TurnDirectives(ReadTurn(r).value.0, ReadTurn(r).value.1);
  }

  /** On the wire, a turn is the names reply, speak, listen or sleep, in that order, with the text in the first two payloads. */
  lemma TurnOnTheWire(text: string, listen: bool, challenge: string)
    ensures MarshalResponse(Response(Some(TurnDirectives(text, listen)), challenge))
      == JObject([
        ("directives", JArray([
          JObject([("name", JString("reply")), ("type", JString("view")), ("payload", JObject([("text", JString(text))]))]),
          JObject([("name", JString("speak")), ("type", JString("action")), ("payload", JObject([("text", JString(text))]))]),
          JObject([("name", JString(if listen then "listen" else "sleep")), ("type", JString("action")), ("payload", JObject([]))])])),
        ("challenge", JString(challenge))])
  {
    var ds := TurnDirectives(text, listen);
    assert MarshalPayload(TextPayload(text)) == JObject([("text", JString(text))]);
    var items := seq(|ds|, i requires 0 <= i < |ds| => MarshalDirective(ds[i]));
    assert items == [MarshalDirective(ds[0]), MarshalDirective(ds[1]), MarshalDirective(ds[2])];
  }
}
