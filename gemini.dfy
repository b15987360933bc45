/** The generative-language provider's request turns and response envelope, as the handlers use them. */
module Gemini {
  import opened Js

  datatype Role = User | Model

  /** `{ text }` or `{ inlineData: { mimeType, data } }` (`inline_data` / `mime_type` in api/index.js). */
  datatype Part = Text(text: string) | Inline(mimeType: string, data: string)

  /** One element of `contents`: `{ role, parts }`. */
  datatype Turn = Turn(role: Role, parts: seq<Part>)

  function TextTurn(role: Role, text: string): Turn {
    Turn(role, [Text(text)])
  }

  /** The parsed JSON body of a provider response, keeping only the fields the handlers read. */
  datatype Envelope = Envelope(error: Option<ApiError>, candidates: Option<seq<Candidate>>)
  datatype ApiError = ApiError(message: Option<string>)
  datatype Candidate = Candidate(content: Option<Content>)
  datatype Content = Content(parts: Option<seq<ReplyPart>>)
  datatype ReplyPart = ReplyPart(text: Option<string>)

  /**
    What `fetch` followed by `response.json()` gives the handler: an HTTP status and a
    parsed body, or a rejection (network failure, body that is not JSON) with its message.
   */
  datatype Upstream = Responded(status: int, body: Envelope) | Threw(message: string)

  /** `Response.ok`. */
  predicate IsOk(status: int) {
    200 <= status <= 299
  }

  /** `data.error?.message`. */
  function ErrorMessage(data: Envelope): Option<string> {
    match data.error
    case None => None
    case Some(e) => e.message
  }

  /** `data.candidates?.[0]?.content?.parts?.[0]?.text`. */
  function FirstText(data: Envelope): Option<string> {
    match data.candidates
    case Some(cs) =>
      if |cs| == 0 then None
      else (match cs[0].content
            case Some(Content(Some(ps))) => if |ps| == 0 then None else ps[0].text
            case _ => None)
    case None => None
  }
}
