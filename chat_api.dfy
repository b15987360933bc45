/** The `/api/chat` request body and the HTTP answers the handlers send. */
module ChatApi {
  import opened Js

  /** One loosely typed `history` element `{ role, text }`; a missing role is any other string. */
  datatype HistEntry = HistEntry(role: string, text: Option<string>)

  /** `req.body`; `history` is None when it is absent or not an array. */
  datatype ChatRequest = ChatRequest(
    message: Option<string>,
    imageBase64: Option<string>,
    history: Option<seq<HistEntry>>)

  /** The `details` field of an error answer. */
  datatype Detail =
    | NoDetail
    | Details(message: string)
      // the TypeError the JavaScript engine raises when a property of `undefined` is read;
      // its message text is the engine's, not the program's
    | EngineTypeError

  /** `res.json({ reply })` or `res.status(status).json({ error, details })`. */
  datatype Outcome =
    | Reply(reply: Option<string>)
    | HttpError(status: int, error: string, detail: Detail)

  /** The guard `!message && !imageBase64` fails. */
  predicate HasInput(req: ChatRequest) {
    Truthy(req.message) || Truthy(req.imageBase64)
  }
}
