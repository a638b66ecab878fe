/**
 * The client of the Webex Assistant skills service REST API: client
 * construction, the request URLs, the common request headers and the
 * mapping of HTTP status codes to the package's constant errors.
 *
 * The exchange with the server is an input: what `HTTPClient.Do` and the
 * body decoder report is given, not performed.
 */
module SkillsService {
  import opened Wrappers
  import Text

  /** `Err`: a string that is an error; `Error()` gives the string back. */
  datatype Err = Err(text: string) {
    function Error(): (s: string)
      ensures Err(s) == this
    {
      text
    }
  }

  const ErrBadRequest := Err("api: bad request")
  const ErrUnauthorized := Err("api: unauthorized request")
  const ErrForbidden := Err("api: forbidden")
  const ErrNotFound := Err("api: resource not found")
  const ErrInternalError := Err("api: internal error")
  const ErrUnknown := Err("api: unexpected error occurred")

  const StatusOK := 200
  const StatusNoContent := 204
  const StatusBadRequest := 400

  /** The status codes with an error of their own. */
  const NamedStatuses: set<int> := {400, 401, 403, 404, 500}

  /** The error `makeRequest` returns for a status: none for 200 to 399, else the status's own error or `ErrUnknown`. */
  function StatusError(status: int): (e: Option<Err>)
    ensures e.None? <==> StatusOK <= status < StatusBadRequest
    ensures status == 400 ==> e == Some(ErrBadRequest)
    ensures status == 401 ==> e == Some(ErrUnauthorized)
    ensures status == 403 ==> e == Some(ErrForbidden)
    ensures status == 404 ==> e == Some(ErrNotFound)
    ensures status == 500 ==> e == Some(ErrInternalError)
    ensures e == Some(ErrUnknown) <==> (status < StatusOK || status >= StatusBadRequest) && status !in NamedStatuses
  {
    if status < StatusOK || status >= StatusBadRequest then
      Some(match status
        case 400 => ErrBadRequest
        case 401 => ErrUnauthorized
        case 403 => ErrForbidden
        case 404 => ErrNotFound
        case 500 => ErrInternalError
        case _ => ErrUnknown)
    else
      None
  }

  /** The error tells the named status apart: two statuses with the same named error are the same status. */
  lemma StatusErrorInjective(a: int, b: int)
    requires StatusError(a) == StatusError(b) && StatusError(a).Some? && StatusError(a) != Some(ErrUnknown)
    ensures a == b
  {
    assert a in NamedStatuses && b in NamedStatuses;
  }

  /** Go's `http.Client`, reduced to its timeout. */
  class HttpClient {
    var timeoutSeconds: nat

    constructor (timeoutSeconds: nat)
      ensures this.timeoutSeconds == timeoutSeconds
    {
      this.timeoutSeconds := timeoutSeconds;
    }
  }

  const BaseURLPrefix := "https://assistant.us-east-2.intelligence.webex.com/skills/api/developers/"

  /** `Client`. */
  class Client {
    var baseURL: string
    var developerID: string
    var token: string
    var httpClient: HttpClient?

    constructor (baseURL: string, token: string, httpClient: HttpClient?)
      ensures this.baseURL == baseURL && this.token == token && this.httpClient == httpClient
      ensures developerID == ""
    {
      this.baseURL := baseURL;
      this.token := token;
      this.httpClient := httpClient;
      developerID := "";
    }
  }

  /**
   * `NewClient`: both an empty token (checked first) and an empty developer
   * ID are refused with "token required". A nil HTTP client is replaced by
   * one with a ten-second timeout. The developer ID goes into the base URL;
   * the `DeveloperID` field is left empty.
   */
  method NewClient(developerID: string, token: string, client: HttpClient?) returns (c: Client?, err: Option<string>)
    ensures token == "" || developerID == "" ==> c == null && err == Some("token required")
    ensures token != "" && developerID != "" ==>
      && err == None && c != null && fresh(c)
      && c.baseURL == BaseURLPrefix + developerID && c.developerID == "" && c.token == token
      && (client != null ==> c.httpClient == client)
      && (client == null ==> c.httpClient != null && fresh(c.httpClient) && c.httpClient.timeoutSeconds == 10)
  {
    if token == "" {
      return null, Some("token required");
    }
    if developerID == "" {
      return null, Some("token required");
    }
    var httpClient := client;
    if httpClient == null {
      httpClient := new HttpClient(10);
    }
    c := new Client(BaseURLPrefix + developerID, token, httpClient);
    err := None;
  }

  /** The URL of the skills collection, for listing and creating. */
  function SkillsURL(baseURL: string): (u: string)
    ensures Text.HasPrefix(u, baseURL) && u[|baseURL|..] == "/skills"
  {
    baseURL + "/skills"
  }

  /** `%t`: the two words, told apart by their first letter. */
  function BoolText(b: bool): (t: string)
    ensures t == "true" || t == "false"
    ensures |t| >= 1 && (t[0] == 't' <==> b)
  {
    if b then "true" else "false"
  }

  /** The URL that deletes a skill: the skill's ID under the collection, and `%t` of the hard-delete flag. */
  function DeleteURL(baseURL: string, id: string, hardDelete: bool): (u: string)
    ensures Text.HasPrefix(u, SkillsURL(baseURL) + "/" + id)
    ensures u[|SkillsURL(baseURL) + "/" + id|..] == "?HARD_DELETE=" + BoolText(hardDelete)
  {
    SkillsURL(baseURL) + "/" + id + "?HARD_DELETE=" + BoolText(hardDelete)
  }

  /** The middle of `s` between a given prefix and suffix, when it has both. */
  function Between(s: string, prefix: string, suffix: string): (m: Option<string>)
    ensures m.Some? <==> |s| >= |prefix| + |suffix| && prefix <= s && s[|s| - |suffix|..] == suffix
    ensures m.Some? ==> s == prefix + m.value + suffix
  {
    if |s| >= |prefix| + |suffix| && prefix <= s && s[|s| - |suffix|..] == suffix then
      assert s == s[..|prefix|] + s[|prefix|..|s| - |suffix|] + s[|s| - |suffix|..];
      Some(s[|prefix|..|s| - |suffix|])
    else
      None
  }

  lemma BetweenConcat(prefix: string, m: string, suffix: string)
    ensures Between(prefix + m + suffix, prefix, suffix) == Some(m)
  {
    var s := prefix + m + suffix;
    assert s[..|prefix|] == prefix;
    assert s[|s| - |suffix|..] == suffix;
    assert s[|prefix|..|s| - |suffix|] == m;
  }

  /** A string whose next-to-last character differs from the suffix's does not end with the suffix. */
  lemma NotBetween(s: string, prefix: string, suffix: string)
    requires |s| >= 2 && |suffix| >= 2 && s[|s| - 2] != suffix[|suffix| - 2]
    ensures Between(s, prefix, suffix) == None
  {
  }

  /** Reads the skill ID and the hard-delete flag back out of a delete URL under the base URL. */
  function ParseDeleteURL(baseURL: string, url: string): Option<(string, bool)> {
    match Between(url, SkillsURL(baseURL) + "/", "?HARD_DELETE=true")
    case Some(id) => Some((id, true))
    case None =>
      match Between(url, SkillsURL(baseURL) + "/", "?HARD_DELETE=false")
      case Some(id) => Some((id, false))
      case None => None
  }

  /** A delete URL names exactly the skill and the flag it was built from, whatever the ID holds. */
  lemma DeleteURLRoundTrip(baseURL: string, id: string, hardDelete: bool)
    ensures ParseDeleteURL(baseURL, DeleteURL(baseURL, id, hardDelete)) == Some((id, hardDelete))
  {
    var prefix := SkillsURL(baseURL) + "/";
    var onTrue, onFalse := "?HARD_DELETE=true", "?HARD_DELETE=false";
    var url := DeleteURL(baseURL, id, hardDelete);
    if hardDelete {
      assert url == prefix + id + onTrue;
      BetweenConcat(prefix, id, onTrue);
    } else {
      assert url == prefix + id + onFalse;
      BetweenConcat(prefix, id, onFalse);
      assert url[|url| - 2] == onFalse[|onFalse| - 2];
      NotBetween(url, prefix, onTrue);
    }
  }

  /** Go's `http.Request` as `makeRequest` sees it: method, URL, headers and body. */
  class OutgoingRequest {
    var httpMethod: string
    var url: string
    var header: map<string, string>
    var body: string

    constructor (httpMethod: string, url: string, body: string)
      ensures this.httpMethod == httpMethod && this.url == url && this.body == body && header == map[]
    {
      this.httpMethod := httpMethod;
      this.url := url;
      this.body := body;
      header := map[];
    }
  }

  /** What sending the request gave: a transport error, or a status with what decoding its body reported. */
  datatype Exchange = TransportFailed(err: string) | Responded(status: int, decodeError: Option<string>)

  /** The errors `makeRequest` returns. */
  datatype RequestError = Transport(err: string) | Api(apiErr: Err) | Decoding(err: string)

  /** The headers every request to the service carries. */
  function CommonHeaders(token: string): (h: map<string, string>)
    ensures h.Keys == {"Authorization", "Accept", "Content-Type"}
    ensures Text.HasPrefix(h["Authorization"], "Bearer ") && h["Authorization"][|"Bearer "|..] == token
    ensures h["Accept"] == "application/json" && h["Content-Type"] == "application/json"
  {
    map["Authorization" := "Bearer " + token, "Accept" := "application/json", "Content-Type" := "application/json"]
  }

  /** The error `makeRequest` returns for an exchange: 204 and the 2xx/3xx statuses succeed, 204 without decoding. */
  function ExchangeError(ex: Exchange): (e: Option<RequestError>)
    ensures ex.TransportFailed? ==> e == Some(Transport(ex.err))
    ensures ex.Responded? && StatusError(ex.status).Some? ==> e == Some(Api(StatusError(ex.status).value))
    ensures ex.Responded? && ex.status == StatusNoContent ==> e == None
    ensures ex.Responded? && StatusError(ex.status).None? && ex.status != StatusNoContent && ex.decodeError.Some? ==>
      e == Some(Decoding(ex.decodeError.value))
    ensures e.None? <==> ex.Responded? && StatusOK <= ex.status < StatusBadRequest
                         && (ex.status == StatusNoContent || ex.decodeError.None?)
  {
    match ex
    case TransportFailed(err) => Some(Transport(err))
    case Responded(status, decodeError) =>
      match StatusError(status)
      case Some(apiErr) => Some(Api(apiErr))
      case None =>
        if status == StatusNoContent then None
        else if decodeError.Some? then Some(Decoding(decodeError.value))
        else None
  }

  /**
   * `makeRequest`: sets the bearer token, Accept and Content-Type headers on
   * the request, then classifies what the exchange gave.
   */
  method MakeRequest(c: Client, req: OutgoingRequest, ex: Exchange) returns (err: Option<RequestError>)
    modifies req
    ensures req.header == old(req.header) + CommonHeaders(c.token)
    ensures req.httpMethod == old(req.httpMethod) && req.url == old(req.url) && req.body == old(req.body)
    ensures err == ExchangeError(ex)
  {
    req.header := req.header["Authorization" := "Bearer " + c.token];
    req.header := req.header["Accept" := "application/json"];
    req.header := req.header["Content-Type" := "application/json"];
    assert req.header == old(req.header) + CommonHeaders(c.token);
    match ex
    case TransportFailed(e) =>
      return Some(Transport(e));
    case Responded(status, decodeError) =>
      if status < StatusOK || status >= StatusBadRequest {
        var apiError := ErrUnknown;
        if status == 400 {
          apiError := ErrBadRequest;
        } else if status == 401 {
          apiError := ErrUnauthorized;
        } else if status == 403 {
          apiError := ErrForbidden;
        } else if status == 404 {
          apiError := ErrNotFound;
        } else if status == 500 {
          apiError := ErrInternalError;
        }
        return Some(Api(apiError));
      }
      if status == StatusNoContent {
        return None;
      }
      if decodeError.Some? {
        return Some(Decoding(decodeError.value));
      }
      return None;
  }

  /** `ListSkills`: a GET of the skills collection. */
  method ListSkills(c: Client, ex: Exchange) returns (req: OutgoingRequest, err: Option<RequestError>)
    ensures fresh(req)
    ensures req.httpMethod == "GET" && req.url == SkillsURL(c.baseURL) && req.body == ""
    ensures req.header == CommonHeaders(c.token)
    ensures err == ExchangeError(ex)
  {
    req := new OutgoingRequest("GET", SkillsURL(c.baseURL), "");
    err := MakeRequest(c, req, ex);
  }

  /** `CreateSkill`: a POST of the skill's JSON to the skills collection. */
  method CreateSkill(c: Client, skillJson: string, ex: Exchange) returns (req: OutgoingRequest, err: Option<RequestError>)
    ensures fresh(req)
    ensures req.httpMethod == "POST" && req.url == SkillsURL(c.baseURL) && req.body == skillJson
    ensures req.header == CommonHeaders(c.token)
    ensures err == ExchangeError(ex)
  {
    req := new OutgoingRequest("POST", SkillsURL(c.baseURL), skillJson);
    err := MakeRequest(c, req, ex);
  }

  /** `DeleteSkill`: a DELETE of the skill's URL, soft or hard. */
  method DeleteSkill(c: Client, id: string, hardDelete: bool, ex: Exchange) returns (req: OutgoingRequest, err: Option<RequestError>)
    ensures fresh(req)
    ensures req.httpMethod == "DELETE" && req.url == DeleteURL(c.baseURL, id, hardDelete) && req.body == ""
    ensures req.header == CommonHeaders(c.token)
    ensures err == ExchangeError(ex)
  {
    req := new OutgoingRequest("DELETE", DeleteURL(c.baseURL, id, hardDelete), "");
    err := MakeRequest(c, req, ex);
  }
}
