# wxa-skills-go in Dafny

A model of the core of `wxa-skills-go`, the Go toolkit for writing Webex
Assistant skills, with proofs about it. The core covers these parts:

- **The wire types** (`wxas-go.go`). These are the open directive-name and
  directive-type wrappers with their JSON methods, the `Payload` with its
  `omitempty` fields, and the response and health-response records. JSON is
  modelled as a value (`Wxas.Json`), not as text.
- **The secure message envelope.** The signature is an HMAC-SHA256 over the
  encrypted message. It travels in standard base64. The message is a Fernet
  token whose key is wrapped with RSA-OAEP. Both halves are modelled:
  - the receiving side: `verifySignature`, `decryptMessage` and
    `decodeJSONBody` in the Lex skill's `helpers.go`;
  - the sending side: the echo skill tester.
- **The handlers of the three example skills**, with their fixed checks in
  order:
  - the plain echo skill;
  - the secure echo skill;
  - the basic Lex skill.
- **The skills-service REST client**: client construction, the request URLs
  and headers, and how a status code maps to an error.
- **Two pieces of the CLI**: the version-flag rewrite in `main` and
  `generate-secret`.

Base64 follows sections 4 and 5 of RFC 4648, as Go's `encoding/base64`
implements them. The model has its own encoder and decoder, and proves that
decoding inverts encoding. Hexadecimal follows Go's `encoding/hex`.

### How the model is built

- **Cryptographic primitives.** These are a `Crypto.Suite`: a record of
  functions for HMAC, PEM decoding, PKCS #1 and PKIX parsing, RSA-OAEP and
  Fernet. Nothing is assumed about a suite, except in lemmas that require
  `Crypto.Inverses` (the decrypt-after-encrypt laws) and `Crypto.KeyPair`
  (two PEM files holding one key pair).
- **Randomness, Lex, OpenWeatherMap, and the HTTP exchange of the REST
  client.** These become parameters holding what the call returned.
- **HTTP handlers.** They are methods over a `ResponseWriter` that records
  every write in order, so a second response after the first is visible.
  Go panics are explicit values that the handler records:
  - a nil PEM block;
  - `s[1]` on a message without ".";
  - a nil Lex message or city slot;
  - `Weather[0]` on an empty list.
- **`decodeJSONBody`.** It is a method over a request object. The object
  holds the Content-Type, the parsed media type and the successive results
  of the streaming decoder. The method installs the body limit, and the
  decoder object is read twice, as in the source.

### Where the code differs from the protocol's description

The model follows the code in each of these cases:

- **A message with more than two "."-separated parts is accepted.** The
  third and later parts are ignored (`Helpers.DecryptIgnoresExtraParts`).
  A message with no "." panics on `s[1]` instead of returning a format
  error.
- **A Fernet token that fails verification is not an error.**
  `decryptMessage` returns the empty plaintext with a nil error
  (`Helpers.FernetFailureIsSilent`). So tampering with the token half is not
  reported as a decryption failure.
- **The handlers carry on after a failed unmarshal of the decrypted
  message.** They also carry on after a Lex error. The second response is
  written after the first.
- **The plain echo skill never copies the challenge.** Its responses carry
  the empty challenge.
- **The third directive of a turn has the zero `Payload`.** It is written
  as `"payload": {}`, not left out.
- **An empty decrypted challenge is left out of the health response**,
  because of `omitempty`.

## Model

| member | source | states |
|---|---|---|
| Wxas.DirectiveName.String | wxas-go.go:27-29 | the name is rebuilt exactly from the string returned, so `String` returns the slug unchanged |
| Wxas.DirectiveName.MarshalJSON | wxas-go.go:32-34 | the JSON written is a string, and it decodes back to the slug |
| Wxas.DirectiveType.String | wxas-go.go:52-54 | the type is rebuilt exactly from the string returned |
| Wxas.DirectiveType.MarshalJSON | wxas-go.go:57-59 | the JSON written is a string, and it decodes back to the slug |
| Wxas.UnmarshalString | wxas-go.go:38-41 | decoding into a string succeeds exactly for a JSON string, giving its contents, or for null, which gives ""; anything else is a type error naming the value's kind |
| Wxas.DirectiveNameVar.UnmarshalJSON | wxas-go.go:37-44 | any JSON string becomes the new slug, named constant or not; on error the slug is unchanged and the decoder's error is returned |
| Wxas.DirectiveTypeVar.UnmarshalJSON | wxas-go.go:62-69 | the same for directive types |
| Wxas.NamedSlugsDistinct | wxas-go.go:71-92 | the eight directive-name slugs are pairwise distinct; the type slugs are exactly "view" and "action", which differ |
| Wxas.SlugRoundTrip | wxas-go.go:32-44 | every slug, including those that are not named constants, survives marshal then unmarshal |
| Wxas.MarshalPayload | wxas-go.go:164-172 | a payload is an object with at most seven fields, and the empty payload is `{}` |
| Wxas.MarshalPayloadField | wxas-go.go:164-172 | under every key the object holds exactly the payload's field when it is set; unset fields and an empty map are not written |
| Wxas.PayloadRoundTrip | wxas-go.go:164-172 | reading the marshalled payload gives back the payload |
| Wxas.MarshalDirective | wxas-go.go:157-161 | a directive is an object of exactly `name`, `type` and `payload`, none omitted: the two slugs as strings and the payload's object |
| Wxas.DirectiveRoundTrip | wxas-go.go:157-161 | every directive, named or not, is read back from its JSON unchanged |
| Wxas.MarshalResponse | wxas-go.go:151-154 | a response has exactly the fields `directives` and `challenge`; the challenge is written as given; `directives` is null exactly for a nil slice, else an array holding each directive's JSON in order |
| Wxas.MarshalHealthResponse | wxas-go.go:95-98 | a health response is an object; each field is present, as a string, exactly when it is not empty, so both empty gives `{}` |
| Wxas.HealthRoundTrip | wxas-go.go:95-98 | reading a marshalled health response gives it back; an absent field reads as "" |
| Wxas.TurnDirectives | examples/echo-skill-secure/handlers.go:127-131 | the three directives are read as one turn carrying the text and the listen flag |
| Wxas.ReadTurnInverse | examples/echo-skill-secure/handlers.go:127-131 | every response read as a turn is exactly the three turn directives for what was read |
| Wxas.TurnOnTheWire | wxas-go.go:151-161 | the JSON of a turn: reply/view and speak/action with the text, then listen or sleep as an action with `{}`, then the challenge |
| Helpers.ServerError | examples/basic-lex-skill/helpers.go:26-30 | one plain-text 500 "Internal Server Error" is written |
| Helpers.InvalidRequestResponse | examples/basic-lex-skill/helpers.go:32-35 | one 400 "invalid request" error is written |
| Helpers.InvalidSignatureResponse | examples/basic-lex-skill/helpers.go:37-40 | one 401 "invalid signature" error is written |
| Helpers.ErrorResponse | examples/basic-lex-skill/helpers.go:86-93 | one JSON error with the given status and message is written, and nothing else |
| Helpers.RenderJSON | examples/basic-lex-skill/helpers.go:111-119 | one JSON body is written |
| Helpers.ConstantTimeCompare | examples/basic-lex-skill/helpers.go:44 | 1 exactly when the byte strings are equal, 0 otherwise |
| Helpers.VerifySignature | examples/basic-lex-skill/helpers.go:42-51 | true exactly when the inbound bytes equal the HMAC of the payload under the secret; a length mismatch is false |
| Helpers.SignatureAccepted | examples/basic-lex-skill/helpers.go:42-51 | the HMAC-SHA256 of the payload keyed by the shared secret is accepted, and every other byte string is refused |
| Helpers.DecryptMessage | examples/basic-lex-skill/helpers.go:55-57 | a message without "." panics with index 1 out of range, and only such a message does; otherwise the first two parts are decrypted |
| Helpers.DecryptParts | examples/basic-lex-skill/helpers.go:58-83 | the failures come in order: key not base64, then token not base64, then the nil-PEM panic, then a PEM block not of type "RSA PRIVATE KEY", then the PKCS #1 parse error, then the OAEP error, then the Fernet key error, each carrying the library's error and each exactly when the earlier checks passed; once all pass, the plaintext is what the token opens to under the unwrapped key, or "" when it does not verify |
| Helpers.DecryptIgnoresExtraParts | examples/basic-lex-skill/helpers.go:56-57 | anything after a second "." does not change the result |
| Helpers.FernetFailureIsSilent | examples/basic-lex-skill/helpers.go:82-83 | a token that fails Fernet verification decrypts to "" without error |
| Helpers.ClassifyDecodeError | examples/basic-lex-skill/helpers.go:148-180 | only an unrecognised error other than an unknown field or an oversized body stays unclassified; 413 exactly for "http: request body too large"; every other problem is 400; the message for each kind: badly-formed JSON with the offset in decimal, badly-formed JSON for an unexpected EOF, an invalid value naming the quoted field and the offset, an empty body, the unknown field's name, and "must not be larger than 1MB" |
| Helpers.UnknownFieldNamed | examples/basic-lex-skill/helpers.go:165-168 | the unknown-field message names the field the decoder named |
| Helpers.SyntaxErrorPosition | examples/basic-lex-skill/helpers.go:153-155 | the position in a syntax-error message is digits whose value is the decoder's offset |
| Helpers.JsonDecoder.Decode | examples/basic-lex-skill/helpers.go:144-147 | each call yields the next result of the body, and EOF at its end |
| Helpers.BodyResult | examples/basic-lex-skill/helpers.go:133-190 | a body decodes exactly when the media type is acceptable, the first value decodes and EOF follows; a present non-JSON media type is 415; a second value is the single-object error; a failed first decode is answered with the problem `ClassifyDecodeError` makes of it, or passes the decoder's own error through when unclassified; 415 only for a refused media type; every status is 400, 413 or 415, and 413 only for an oversized body |
| Helpers.DecodeJSONBody | examples/basic-lex-skill/helpers.go:133-190 | the result is `BodyResult` of the request; the 1MB limit is installed unless the media type was refused; nothing else in the request changes |
| Helpers.BodyErrorWrite | examples/echo-skill-secure/handlers.go:56-65 | a classified problem is answered with its own status and message, anything else with 400 "invalid request" |
| Helpers.RespondToBodyError | examples/echo-skill-secure/handlers.go:56-65 | exactly that answer is written |
| Envelope.CheckSigned | examples/echo-skill-secure/handlers.go:73-90 | 400 "error decoding signature" exactly for a signature that is not base64; 401 exactly for one that does not verify over the still-encrypted message; 400 "unable to decrypt message" exactly for a decryption error after a good signature; the decrypted text only after a good signature |
| Envelope.CheckRequest | examples/echo-skill-secure/handlers.go:68-90 | an empty signature or message is 400 "invalid request", and only that; otherwise the signed checks decide |
| Envelope.CheckHealth | examples/echo-skill-secure/handlers.go:17-44 | a missing signature is reported before a missing challenge; then the signed checks decide |
| Envelope.HealthWrites | examples/echo-skill-secure/handlers.go:17-50 | one write: the check's error, its panic, or, exactly when the challenge opened, the health response of the decrypted challenge and status "OK" |
| Envelope.HealthAnswerReadsBack | examples/echo-skill-secure/handlers.go:17-50 | a successful health check's body reads back as the decrypted challenge with status "OK", and it is written only after the signature verified over the encrypted challenge and the challenge decrypted |
| Envelope.HandleHealthCheck | examples/echo-skill-secure/handlers.go:17-50 | the writes are those of `HealthWrites`, with the decrypted challenge and status "OK" on success |
| Envelope.ReceiveEnvelope | examples/echo-skill-secure/handlers.go:52-90 | a body error, a rejected request or a panic is written once and yields nothing; an opened envelope writes nothing and yields the plaintext |
| Echo.Reply | examples/echo-skill/handlers.go:29-42 | an intro turn gives the intro text and listens; otherwise the text is echoed when non-empty, else the fallback is said, and the skill sleeps; the reply is never empty |
| Echo.ChooseReply | examples/echo-skill/handlers.go:29-42 | the step-by-step choice of `text` and `shouldListen` equals `Reply` |
| Echo.BuildResponse | examples/echo-skill/handlers.go:51-65 | three directives, read as the turn (text, shouldListen), the third listen exactly when asked; the challenge stays ""; the error is nil |
| Echo.HandleSkills | examples/echo-skill/handlers.go:14-49 | a body error is answered as `BodyErrorWrite`; otherwise exactly one response, the reply to the decoded message |
| EchoSecure.BuildResponse | examples/echo-skill-secure/handlers.go:119-134 | three directives, read as the turn (text, shouldListen), the third listen exactly when asked; the challenge is the one given; the error is nil |
| EchoSecure.AnswerWrites | examples/echo-skill-secure/handlers.go:91-116 | a failed unmarshal adds a 400 before the reply, so there are two writes exactly then; the last write is always the rendered turn `Reply` chooses for the message, with the message's challenge |
| EchoSecure.Answer | examples/echo-skill-secure/handlers.go:91-116 | the writes are `AnswerWrites` of the unmarshalled message |
| EchoSecure.HandleSkills | examples/echo-skill-secure/handlers.go:52-117 | body errors, rejections and panics are written once; an opened envelope is answered with `AnswerWrites` of what unmarshalling gave |
| LexSkill.WeatherSentence | examples/basic-lex-skill/handlers.go:145 | the weather sentence is never empty |
| LexSkill.Decide | examples/basic-lex-skill/handlers.go:126-153 | the decision table over Lex's answer: missing state or intent gives the fallback text; another intent gives "That isn't a skill I have just yet."; the skill listens exactly on an "ElicitSlot" of "CityWeather" with a message (an empty one says the fallback); a nil message panics; on "ReadyForFulfillment" a missing or nil city panics, a weather-client error gives its apology, an empty weather list panics on index 0, and otherwise the weather sentence for the city's first condition is said without listening; every other state gives the fallback; what is said is never empty |
| LexSkill.BuildSkillIntroResponse | examples/basic-lex-skill/handlers.go:164-174 | the turn ("Sorry, I didn't catch what you said.", listen) with the message's challenge |
| LexSkill.BuildOutcome | examples/basic-lex-skill/handlers.go:111-162 | an intro turn is answered without asking Lex; otherwise Lex's error is returned as is, and Lex's answer is turned into the turn `Decide` chooses, with the message's challenge, or into the panic `Decide` runs into |
| LexSkill.BuildResponse | examples/basic-lex-skill/handlers.go:111-162 | the step-by-step updates of `text`, `city` and `listenOrSleep` reach `BuildOutcome` |
| LexSkill.BuiltWrites | examples/basic-lex-skill/handlers.go:103-108 | a response is rendered; a Lex error gives the 500 and then the zero response; a panic is recorded |
| LexSkill.AnswerWrites | examples/basic-lex-skill/handlers.go:94-108 | the unmarshal error comes first exactly when unmarshalling failed; then the writes for the build outcome |
| LexSkill.WriteBuilt | examples/basic-lex-skill/handlers.go:103-108 | the writes are `BuiltWrites` |
| LexSkill.Answer | examples/basic-lex-skill/handlers.go:94-108 | the writes are `AnswerWrites` of the message and its build outcome |
| LexSkill.HandleSkills | examples/basic-lex-skill/handlers.go:55-109 | body errors, rejections and panics are written once; an opened envelope is answered with `AnswerWrites` |
| SkillsService.Err.Error | pkg/wxaskillsservice/wxaskillsservice.go:30-32 | the error is rebuilt exactly from its text |
| SkillsService.StatusError | pkg/wxaskillsservice/wxaskillsservice.go:160-177 | no error exactly for 200 to 399; 400, 401, 403, 404 and 500 have their own errors; `ErrUnknown` exactly for every other failing status |
| SkillsService.StatusErrorInjective | pkg/wxaskillsservice/wxaskillsservice.go:160-177 | a named error identifies its status |
| SkillsService.NewClient | pkg/wxaskillsservice/wxaskillsservice.go:84-102 | an empty token or developer ID gives "token required" and no client; otherwise the base URL is the fixed prefix plus the developer ID, the token is kept, `DeveloperID` stays empty, and a nil HTTP client is replaced by a fresh one with a 10-second timeout |
| SkillsService.SkillsURL | pkg/wxaskillsservice/wxaskillsservice.go:107 | the collection URL is the base URL followed by "/skills" |
| SkillsService.BoolText | pkg/wxaskillsservice/wxaskillsservice.go:138 | `%t` of a flag is "true" or "false", and the first letter tells which |
| SkillsService.DeleteURL | pkg/wxaskillsservice/wxaskillsservice.go:138 | the URL is the collection URL, "/", the ID, then the query `HARD_DELETE` set to `%t` of the flag |
| SkillsService.DeleteURLRoundTrip | pkg/wxaskillsservice/wxaskillsservice.go:138 | the delete URL gives back the skill ID and the hard-delete flag it was built from, whatever the ID holds |
| SkillsService.CommonHeaders | pkg/wxaskillsservice/wxaskillsservice.go:151-153 | exactly three headers: "Bearer " followed by the token, and JSON for Accept and Content-Type |
| SkillsService.ExchangeError | pkg/wxaskillsservice/wxaskillsservice.go:154-184 | a transport error is returned as is; a failing status gives its status error; 204 succeeds without decoding; on another 2xx or 3xx status a body that fails to decode gives the decoder's error; success exactly for 200 to 399 when 204 or the body decoded |
| SkillsService.MakeRequest | pkg/wxaskillsservice/wxaskillsservice.go:150-185 | the common headers are added over the request's own, and the rest of the request is unchanged; the error is `ExchangeError` of the exchange |
| SkillsService.ListSkills | pkg/wxaskillsservice/wxaskillsservice.go:105-116 | a GET of `<base>/skills` with no body and the common headers |
| SkillsService.CreateSkill | pkg/wxaskillsservice/wxaskillsservice.go:119-134 | a POST of the skill's JSON to `<base>/skills` with the common headers |
| SkillsService.DeleteSkill | pkg/wxaskillsservice/wxaskillsservice.go:137-147 | a DELETE of the skill's URL, `?HARD_DELETE=true` or `false`, with the common headers |
| Tester.TokenError.Message | examples/echo-skill-secure/cmd/echo-skill-secure-tester/main.go:104-124 | the texts of the wrong-PEM, parse and not-RSA errors; library errors pass through unchanged |
| Tester.EncryptFernetKey | examples/echo-skill-secure/cmd/echo-skill-secure-tester/main.go:104-124 | a nil PEM block panics, and only it does; a block not of type "PUBLIC KEY" is refused; a PKIX parse failure and an OAEP failure each carry the library's error, exactly when the earlier steps passed; a non-RSA key is refused; success exactly when the key is RSA and OAEP succeeds, giving the ciphertext in standard base64 |
| Tester.GenerateToken | examples/echo-skill-secure/cmd/echo-skill-secure-tester/main.go:86-102 | key-generation and encryption errors come first, then the key-wrapping outcome; a token is the wrapped key, ".", and the Fernet token, stamped with the given time, in standard base64 |
| Tester.SignToken | examples/echo-skill-secure/cmd/echo-skill-secure-tester/main.go:126-131 | the signature decodes to the HMAC of the token and passes the skill's `verifySignature` under the same secret |
| Tester.PreparePayload | examples/echo-skill-secure/cmd/echo-skill-secure-tester/main.go:63-80 | a token error gives no payload; otherwise the payload's message is the token and its signature is that of the token |
| Tester.GenerateChallenge | examples/echo-skill-secure/cmd/echo-skill-secure-tester/main.go:163-170 | 64 lower-case hexadecimal digits that decode to the 32 random bytes, or "" with the source's error |
| Tester.GenerateMessage | examples/echo-skill-secure/cmd/echo-skill-secure-tester/main.go:152-161 | the message says "Hello World." and carries the challenge, "" when none could be drawn |
| Tester.TokenSplits | examples/echo-skill-secure/cmd/echo-skill-secure-tester/main.go:100-101 | splitting a generated token on "." gives exactly the two encoded parts |
| Tester.EnvelopeRoundTrip | examples/echo-skill-secure/cmd/echo-skill-secure-tester/main.go:86-124 | with a key pair and the inverse laws of the primitives, the skill's `decryptMessage` opens the token to the message |
| Tester.PayloadOpens | examples/echo-skill-secure/cmd/echo-skill-secure-tester/main.go:63-80 | the payload passes all of the skill's request checks and opens to the message |
| Base64.Encode | cmd/wxa-cli/command/generate-secret.go:66 | `EncodeToString` writes four characters for every three bytes or part of three |
| Base64.Decode | examples/basic-lex-skill/helpers.go:58-65 | `DecodeString` accepts, after line breaks are dropped, only whole groups of four, and gives three bytes per group less at most two for padding; an empty input gives no bytes |
| Base64.DecodeEncode | examples/echo-skill-secure/cmd/echo-skill-secure-tester/main.go:100 | `DecodeString` of `EncodeToString(b)` is `b` |
| Base64.NoDotInEncoding | examples/echo-skill-secure/cmd/echo-skill-secure-tester/main.go:100-101 | no encoding contains "." |
| Base64.EncodeShape | cmd/wxa-cli/command/generate-secret.go:66 | an encoding is alphabet characters followed by exactly the padding fixed by the input length |
| Hex.Encode | examples/echo-skill-secure/cmd/echo-skill-secure-tester/main.go:169 | `hex.EncodeToString` writes two hexadecimal digits per byte |
| Hex.DecodeEncode | examples/echo-skill-secure/cmd/echo-skill-secure-tester/main.go:169 | hexadecimal text decodes back to its bytes |
| Text.Split | examples/basic-lex-skill/helpers.go:56 | at least one piece, no piece holds the separator, and two or more exactly when the separator occurs |
| Text.JoinSplit | examples/basic-lex-skill/helpers.go:56 | joining the pieces with the separator gives back the input |
| Text.SplitTwo | examples/basic-lex-skill/helpers.go:56-57 | two pieces without the separator, joined by it, split back into exactly those pieces |
| Text.TrimRight | cmd/wxa-cli/command/generate-secret.go:67 | a prefix of the input that does not end with the cut character, and everything removed is that character |
| Text.Decimal | examples/basic-lex-skill/helpers.go:154 | `%d` of a natural number is decimal digits with no leading zero |
| Text.DecimalRoundTrip | examples/basic-lex-skill/helpers.go:154 | `%d` of an offset reads back to the offset |
| GenerateSecret.UnpaddedShape | cmd/wxa-cli/command/generate-secret.go:66-67 | trimming leaves exactly the alphabet characters of the encoding |
| GenerateSecret.GenerateToken | cmd/wxa-cli/command/generate-secret.go:60-68 | 16 random bytes give 22 characters of the URL-safe alphabet, with no "+", "/" or trailing "="; a read error gives "" and the error |
| Cli.RewriteVersionFlag | cmd/wxa-cli/main.go:33-41 | with a version flag anywhere, "version" is put in front of the arguments once, and they follow unchanged; otherwise the arguments are unchanged |

## Left out

- Cryptographic primitives (HMAC-SHA256, PEM, PKCS #1 and PKIX parsing, RSA-OAEP, Fernet, RSA key generation) are not modelled. They are the uninterpreted functions of `Crypto.Suite`.
- Go's conversions between `string` and `[]byte` around the crypto calls are folded into the primitives' signatures.
- Helpers.ConstantTimeCompare: only its result is modelled. That its time does not depend on where the inputs differ is a timing property, which the model cannot state.
- Randomness (`crypto/rand`, the Fernet key and its initialisation vector, the OAEP seed) is an input, and so is the time `fernet.EncryptAndSign` stamps into a token.
- Go strings are bytes; the model's strings are sequences of characters. `encoding/json` replaces invalid UTF-8 with U+FFFD, so `Wxas.SlugRoundTrip`, `Wxas.PayloadRoundTrip`, `Wxas.DirectiveRoundTrip` and `Wxas.HealthRoundTrip` hold in Go for valid UTF-8 text only.
- Helpers.GenerateSignature: has no contract of its own. It is the HMAC primitive keyed by the secret over the payload, and what it promises is stated through `Helpers.VerifySignature` and `Tester.SignToken`.
- The calls to Lex, OpenWeatherMap and the skills service are inputs. Lex's `PostText` is a function of the text and user ID. The weather is a function of the city. The exchange is a transport error or a status with the body decoder's error.
- The weather sentence formats temperatures with `%2.0f`. Floating point is out of scope, so the two temperatures arrive as already-formatted strings.
- JSON text is not modelled; JSON is a value. This covers `json.Marshal`, `MarshalIndent`, the `%q` escaping of field names (`Helpers.Quote` adds the quotes only) and the error text of the decoder.
- Decoding the decrypted message into `WebexAssistantMessage` is an input: the message it fills in and whether it failed.
- The decoder's own typed errors arrive as results of the body: `SyntaxError`, `UnmarshalTypeError`, `EOF`, `ErrUnexpectedEOF` and other errors with their text. So does whether a value decodes at all, since `DisallowUnknownFields` is part of the decoder.
- `MaxBytesReader` counting bytes is not modelled; only the limit it installs is. Its "request body too large" error arrives as a decoder result.
- The media type is given alongside the Content-Type header. Parsing the header with `header.ParseValueAndParams` is not modelled.
- HTTP plumbing is not modelled: query parsing, headers and status lines, logging, and `writeJSON` failing. A `ResponseWriter` records what was written, not the bytes.
- `ping`, the routes, the middleware (including its panic recovery), `main.go` of each example, and configuration loading are not modelled; they are I/O and wiring.
- The `Skill` record, the `Bool` and `String` pointer helpers, and `ctx` are not modelled. `CreateSkill` is given the skill's JSON text.
- `http.NewRequest` failing on a malformed URL is not modelled. The decoded body of `ListSkills` and `CreateSkill` is not modelled either; only whether decoding failed is.
- The `Frame` and `History` fields of the message are empty structs and are not modelled. Nor are `DynamicResource` and `AllowedIntents`, which are untyped.
- `loadEnv` and `main` of the tester are not modelled; they are file reads, an HTTP post and printing. `preparePayload` yields the payload record rather than its indented JSON text.
- The CLI command wrappers, `generate-keys` and `testing-encryption` are not modelled; they are flag parsing and UI output around the client and the crypto library.
- The `helpers.go` files of the plain and secure echo skills are not part of this model. Their handlers are modelled with the Lex skill's helpers, which the secure echo skill's handlers match call for call.
