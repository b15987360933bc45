# Nutrik.IA chat relay: a Dafny model of the `/api/chat` handler

Nutrik.IA is a nutrition assistant. Its backend forwards a user's chat turn
(a text message, an image given as a data URI, or both) to Google's Gemini
generative-language API and sends the reply back. The repository holds three
revisions of the `/api/chat` handler: `server.js`, `api/app.js` and
`api/index.js`. Each revision does the same four steps, but the rules differ:

1. It validates the request. With no message and no image the answer is 400.
2. It normalises the loosely typed `history` array into provider turns.
3. It builds the current `user` turn from the text part and an inline image part.
   The image comes from a data URI that must match
   `^data:([a-zA-Z0-9]+\/[a-zA-Z0-9-.+]+);base64,(.+)$`.
4. It classifies the provider's answer as a reply, a 429 (only in `api/app.js`)
   or a 500 with details.

The model is split into these modules:

- `Js`: JavaScript truthiness of optional string fields (present and non-empty) and the `||` fallback.
- `DataUri`: the pattern as a hand-written parser (`Parse`) over strings, with
  character-class predicates. It is proved equivalent to a declarative
  "has the form" predicate, in both directions.
- `Gemini` and `ChatApi`: the provider's turns and response envelope, the request body and the HTTP outcomes.
- `History`: two rule sets. The drop-empty rule (server.js, api/app.js) is a
  loop method proved against a recursive function. The window-and-collapse rule
  (api/index.js) is the `lastRole` loop, proved against a recursive function and
  against an independent "run heads" definition.
- `Server`, `ApiApp`, `ApiIndex`: one handler per revision. Each is a method
  that builds `contents` step by step, proved equal to pure specification
  functions (`Sent`, `Respond`). Lemmas state what those functions promise.
- `Revisions`: lemmas showing where the revisions agree and where they differ.

Two lemmas are illustrations that no other proof uses. `History.DropEmptyConcat` shows that the drop-empty rule handles entries one at a time. `DataUri.PayloadKeepsLaterMarkers` is the case of `DataUri.ParseRender` where the payload repeats `;base64,`.

The provider call is an input to the model, not something it performs.
`Upstream` is either an HTTP status with a parsed body, or a rejection with its
message. A rejection covers a network failure and a body that is not JSON. For
server.js the SDK call is `SdkResult`: `response.text`, or a thrown message.
The base64 re-encoding `Buffer.from(raw, 'base64').toString('base64')` is the
function parameter `reencode`.

Where the code and the design description of the system disagree, the model
follows the code:

- server.js answers 400 for a malformed image. The design says such an image is tolerated.
- In api/app.js and api/index.js, an image alone that does not match leaves the
  current turn with no parts at all. The design says the turn is never empty.
- In api/index.js, turns alternate in role only inside the history segment.
  A trailing `user` entry is not removed before the new `user` turn
  (`ApiIndex.NoAlternationAcrossSegment`).
- api/app.js (line 181) and api/index.js (line 87) read only `parts[0]` of the first candidate and never join several parts. server.js (line 214) forwards the SDK's `response.text`, which the model takes as an opaque input (`SdkResult.Generated`).
- Only api/app.js gives a rate-limited upstream its own 429.
- No revision has a model-fallback loop or a streaming decoder.

## Model

| member | source | states |
|---|---|---|
| DataUri.Span | server.js:169 | the end of the longest run of one character class: every character before it is in the class, and the character after it (if any) is not |
| Js.Truthy | server.js:145 | a string field is truthy exactly when it is present and non-empty, as in `if (!message && !imageBase64)` |
| Js.Or | api/index.js:48 | `x || fallback` on a string field: the field when truthy, else the fallback |
| ChatApi.HasInput | server.js:145 | the request has a truthy message or a truthy image (the same test as api/app.js:106 and api/index.js:30) |
| DataUri.Parse | server.js:169-173 | every successful match has the declared form, and its groups are that form's components |
| DataUri.HasForm | server.js:169 | a string has the data-URI form with given components: they are well formed and the string is their rendering |
| DataUri.MatchImage | server.js:167-169 | `if (imageBase64)` then `imageBase64.match(...)`: no match for a falsy image, otherwise the parser's result |
| DataUri.SpanStopsAt | server.js:169 | a class run that is followed by a non-member is exactly where the scan stops, so neither group can end early or late |
| DataUri.ParseRender | server.js:169-173 | every well-formed `data:type/subtype;base64,payload` string matches, and group 1 / group 2 give back `type/subtype` and the payload |
| DataUri.ParseIffForm | api/app.js:133-134 | a match with given components happens if and only if the string is the rendering of those well-formed components |
| DataUri.ParseRejectsIffNoForm | api/index.js:57-58 | a string fails to match if and only if no choice of components gives it the form |
| DataUri.MimeTypeHasOneSlash | server.js:172 | the MIME type of a match contains exactly one `/`, at the end of the top-level type |
| DataUri.PayloadKeepsLaterMarkers | server.js:173 | the payload is everything after the first `;base64,`, even when it contains the marker again |
| Gemini.FirstText | api/index.js:87 | the optional chain `candidates?.[0]?.content?.parts?.[0]?.text`: the first part's text when every link is present and each array is non-empty, and absent otherwise |
| Gemini.IsOk | api/app.js:172 | `response.ok`: the status is in 200..299 |
| Gemini.ErrorMessage | api/app.js:177 | `data.error?.message`: the provider's message when the error object is present |
| History.TextIndices | server.js:155 | the positions of the entries with truthy text, strictly increasing, each in range, and none missing |
| History.CanonicalRole | server.js:157 | `'model'` is the model role and everything else is `user`; under the api/app.js:119 and api/index.js:46 rule, `'assistant'` is also the model role |
| History.DropEmpty | server.js:153-162 | the `contents` prefix of the drop-empty rule: one text turn per entry with truthy text, in order, entries with falsy text skipped |
| History.MapHistory | server.js:153-162 | the `forEach` loop that pushes a turn per entry with truthy text builds exactly `DropEmpty` |
| History.DropEmptyConcat | api/app.js:116-123 | entries are handled one at a time: the result for `a + b` is the result for `a` followed by the result for `b` |
| History.DropEmptyKeepsTextEntries | server.js:154-161 | the kept turns are exactly the entries with truthy text, in their original order, each a single text part with that text and the mapped role |
| History.Window | api/index.js:45 | `slice(-4)` keeps `min(n, 4)` entries, and they are the tail of the history in original order |
| History.FilledText | api/index.js:48 | `h.text || "..."`: the entry's text when truthy, else the filler, so an entry is never dropped for its text |
| History.IndexRole | api/index.js:46 | the role api/index.js gives an entry: `model` for `'model'` or `'assistant'`, else `user` |
| History.RunHeads | api/index.js:47-50 | reference definition: an entry becomes a turn exactly when it is the first or its role differs from the entry before it |
| History.Collapse | api/index.js:44-51 | the collapsed segment is no longer than the window, and it ends with the role of the last window entry |
| History.CollapseRuns | api/index.js:43-51 | the `forEach` with `lastRole` (initially `null`) over the window builds exactly `Collapse` of that window |
| History.CollapseKeepsRunHeads | api/index.js:47-50 | an entry is pushed exactly when it is the first of a run: it is the first entry, or its role differs from the entry before it |
| History.CollapseAlternates | api/index.js:47 | no two adjacent turns of the collapsed segment share a role |
| History.CollapseTextParts | api/index.js:48 | every history turn is one non-empty text part, and it is the turn of some window entry: that entry's role, and its text or `"..."` when the text is falsy |
| Server.Chat | server.js:138-224 | the handler sends exactly `Sent` and answers exactly `Respond`, including both early 400 returns and the 500 for a thrown error |
| Server.Prepare | server.js:145-193 | the two refusals (no input; an image without the data-URI form) or the `contents` the handler sends: kept history, then the current `user` turn |
| Server.HistoryTurns | server.js:153-162 | the drop-empty rule with only `'model'` as the model role, and no turns when `history` is absent |
| Server.CurrentParts | server.js:164-191 | the inline part (group 1, re-encoded group 2) first when the image matched, then the message or the default prompt |
| Server.Sent | server.js:145-193 | the `contents` sent when the request is not refused, and nothing otherwise |
| Server.Respond | server.js:145-223 | a refusal's 400, the call's `response.text` as the reply, or the 500 with the thrown message |
| Server.RespondAsWritten | server.js:205-223 | the answer as written: `ai` is undeclared, so every request not refused gets the 500 with `ai is not defined` |
| Server.RefusedRequests | server.js:145-148 | nothing is sent exactly when there is no message and no image, or the image is present without the data-URI form; the answers are the two fixed 400s |
| Server.SentPayload | server.js:164-193 | the payload is the kept history plus one `user` turn of 1 or 2 parts; a valid image's inline part is first, and the last part is the message or the default prompt |
| Server.SentLength | server.js:193 | the payload length is the number of entries with truthy text, plus one |
| Server.ThrownBecomes500 | server.js:216-223 | any error thrown by the call becomes a 500 whose details are the error's message |
| Server.AsWrittenNeverReplies | server.js:205 | as written, every request ends in a 400 or in the 500 with details `ai is not defined`; no reply is ever sent |
| Server.GreetingRoundTrip | server.js:205-214 | `{message: "oi", history: []}` sends one `user` turn and, once a client exists, answers with the generated text |
| ApiApp.BuildCurrentParts | api/app.js:127-147 | the conditional pushes build exactly the reference `CurrentParts`: message and image, default text then image, nothing, or the greeting |
| ApiApp.Chat | api/app.js:102-195 | the handler sends exactly `Sent` and answers exactly `Respond` |
| ApiApp.HistoryTurns | api/app.js:115-124 | the drop-empty rule with `'model'` and `'assistant'` as the model role, and no turns when `history` is absent |
| ApiApp.InlineOf | api/app.js:138-143 | the inline part of a match: group 1 as MIME type, raw group 2 as data |
| ApiApp.CurrentParts | api/app.js:127-147 | reference outcome table: message then image; analysis text then image; nothing for a malformed image alone; the greeting for neither |
| ApiApp.Contents | api/app.js:112-149 | the kept history followed by the current `user` turn |
| ApiApp.Sent | api/app.js:106-165 | `contents` when the request has a message or an image, nothing otherwise |
| ApiApp.Respond | api/app.js:102-195 | the 400 for a request without input, otherwise the classification of the provider's answer |
| ApiApp.ReplyFrom | api/app.js:180-186 | the success branch: with a first candidate whose content is present, the reply is `parts[0].text` (the engine's TypeError when `parts` is missing or empty); otherwise the "no valid response" 500 |
| ApiApp.Classify | api/app.js:172-193 | a thrown rejection and a non-ok status other than 429 are 500s with details; a 429 is the fixed rate-limit answer; an ok status goes to `ReplyFrom` |
| ApiApp.Validation | api/app.js:106 | nothing is sent if and only if message and image are both falsy, and then the answer is the fixed 400; otherwise the current turn is the last element |
| ApiApp.MessageComesFirst | api/app.js:128-130 | a truthy message is the first part, verbatim |
| ApiApp.ImageOnlyGetsDefaultFirst | api/app.js:134-143 | for a valid image without a message, the parts are the analysis text and then the inline part with group 1 and raw group 2 |
| ApiApp.MalformedImageDropped | api/app.js:132-144 | a present image without the form is dropped, not an error; without a message it leaves the parts empty |
| ApiApp.InlineMeansWellFormed | api/app.js:138-143 | every inline part comes from a well-formed image string and carries its groups unchanged |
| ApiApp.RateLimitKeptApart | api/app.js:172-178 | the answer is 429 if and only if the upstream status is 429; every other failure is a 500 carrying a detail |
| ApiApp.UpstreamFailureDetails | api/app.js:177 | a non-ok status other than 429 gives a 500 whose details are `data.error.message` when truthy, else the fixed fallback |
| ApiApp.ReplyExtraction | api/app.js:180-186 | a reply only follows an ok status and is the first part's text; a missing first candidate or content gives the "no valid response" 500 |
| ApiIndex.BuildCurrentParts | api/index.js:54-66 | the pushes and the `unshift` build exactly the reference `CurrentParts` |
| ApiIndex.Chat | api/index.js:27-94 | the handler sends exactly `Sent` and answers exactly `Respond` |
| ApiIndex.Priming | api/index.js:40-41 | the system instruction as a `user` turn, then the fixed acknowledgement as a `model` turn |
| ApiIndex.Segment | api/index.js:43-52 | the collapsed window of the history, or no turns when `history` is absent |
| ApiIndex.SomeText | api/index.js:64 | `currentParts.some(p => p.text)`: some part is a text part with non-empty text |
| ApiIndex.CurrentParts | api/index.js:54-66 | reference outcome table: message then image; image prompt then image; the message alone; nothing |
| ApiIndex.Contents | api/index.js:36-68 | the priming pair, the collapsed history segment, then the current `user` turn |
| ApiIndex.ReplyText | api/index.js:87 | the first part's text when truthy, else the apology |
| ApiIndex.Sent | api/index.js:30-80 | `contents` when the request has a message or an image, nothing otherwise |
| ApiIndex.Respond | api/index.js:27-94 | the 400 for a request without input, otherwise the classification of the provider's answer |
| ApiIndex.Classify | api/index.js:82-92 | a thrown rejection or a non-ok status is the 500 `Erro na IA` with details; an ok status replies with the first part's text or the apology |
| ApiIndex.Validation | api/index.js:30 | nothing is sent if and only if message and image are both falsy, and then the answer is the fixed 400 |
| ApiIndex.PayloadShape | api/index.js:40-68 | the payload is the priming pair, then at most 4 history turns that alternate and are the run heads of the window, then the current `user` turn; length is 2 + segment + 1 |
| ApiIndex.NoAlternationAcrossSegment | api/index.js:44 | alternation is not global: a trailing `user` entry precedes the new `user` turn, and a `model` entry can follow the acknowledgement |
| ApiIndex.TextPartFirst | api/index.js:55-66 | whenever the current parts are non-empty, the first is a text part: the verbatim message, or the image prompt for an image alone |
| ApiIndex.MalformedImageDropped | api/index.js:56-61 | a present image without the form is dropped silently; without a message the current parts are empty |
| ApiIndex.WellFormedImageLast | api/index.js:58-59 | a valid image gives two parts, and the inline part with group 1 and raw group 2 is the last |
| ApiIndex.Classification | api/index.js:82-92 | a non-ok status is the 500 with `data.error.message` or `Erro Google API`; an ok status always replies, with the truthy first-part text or else the apology |
| Revisions.AssistantSpelling | api/app.js:119 | an `assistant` entry becomes a `user` turn in server.js (line 157) and a `model` turn in api/app.js and api/index.js |
| Revisions.MalformedImagePolicies | server.js:182-184 | with a message, a malformed image is a 400 in server.js, and is silently dropped in api/app.js and api/index.js |
| Revisions.RateLimitPolicies | api/app.js:174-176 | an upstream 429 is a 429 in api/app.js and a 500 in api/index.js |
| Revisions.SameReplyForTextPresent | api/index.js:87 | on an ok answer with a truthy first text, api/app.js and api/index.js give the same reply |
| Revisions.MissingCandidatePolicies | api/index.js:87 | on an ok answer whose `candidates` is absent or empty, api/app.js answers 500 and api/index.js replies with the apology |

## Findings

| source | as written | input that shows it | evidently intended | confidence | as-written member | corrected member |
|---|---|---|---|---|---|---|
| server.js:205 | the handler calls `ai.models.generateContent`, but `ai` is never declared (line 10 declares only `openai`), so the call throws a ReferenceError and every valid request ends in the 500 branch | `{ message: "oi", history: [] }` gets a 500 with details `ai is not defined` | a declared Gemini SDK client whose `response.text` becomes the reply (`Server.GreetingRoundTrip` proves the reply for this input) | high (not executed) | Server.AsWrittenNeverReplies | Server.Chat |

## Left out

- Stripe checkout and webhook handlers, the Supabase clients, Express middleware, CORS, static serving, the health check, `app.listen` and logging: vendor plumbing, not part of this model.
- The network calls themselves (`fetch` in api/app.js and api/index.js, the SDK call in server.js). They are inputs (`Upstream`, `SdkResult`). The URL, API key and model name are not modelled.
- `Buffer.from(raw, 'base64').toString('base64')` (server.js:174): Node's lenient base64 decoder is a foreign call, so it is the uninterpreted parameter `reencode`.
- `generationConfig`, the temperature constants, the `systemInstruction` field of api/app.js and the system prompt of server.js: they are constants passed through to the provider and never read. The priming texts of api/index.js are kept, because they are turns of `contents`.
- The `stack` field of the server.js 500 answer: it is runtime information, not program logic.
- Request fields of types other than strings are not modelled (a number as `message`, a `null` history element). In JavaScript, reading `h.text` of a `null` element throws, and the handler then answers 500. Because `imageBase64` is always a string here, the try/catch around the match (server.js:185-186) can never fire.
- ApiApp.ReplyExtraction: when `content.parts` is missing or empty, the engine's TypeError text becomes the details. The model records this only as the tag `EngineTypeError`, because the text belongs to the engine, not the program.
- DataUri.Parse: JavaScript strings are UTF-16 code units and Dafny characters are Unicode scalar values. Lone surrogates in a payload are not modelled.
- Response bodies are taken to be JSON objects whose array elements are objects (`Envelope`). A `null` body, or `candidates: [null]`, is not modelled. In api/index.js:87 a `null` body with an ok status throws a TypeError and ends in the 500; `ApiIndex.Classification` does not cover that case.
- A JSON `reply` of `undefined`, which `res.json` leaves out of the body, is `Reply(None)`.
- The model-fallback dispatcher and the streaming chunk decoder appear in the system's design description, but none of the three handlers has them, so they are not modelled.
