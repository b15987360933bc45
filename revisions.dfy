/** Where the three revisions of the handler agree and where their rules differ. */
module Revisions {
  import opened Js
  import opened DataUri
  import opened Gemini
  import opened ChatApi
  import opened History
  import Server
  import ApiApp
  import ApiIndex

  /** An entry spelled `'assistant'` is a `user` turn in server.js and a `model` turn in the later revisions. */
  lemma AssistantSpelling(text: string, reencode: string -> string)
    requires text != ""
    ensures var req := ChatRequest(Some("oi"), None, Some([HistEntry("assistant", Some(text))]));
      && Server.Sent(req, reencode).value[0] == TextTurn(User, text)
      && ApiApp.Sent(req).value[0] == TextTurn(Model, text)
      && ApiIndex.Sent(req).value[2] == TextTurn(Model, text)
  {
    var h := [HistEntry("assistant", Some(text))];
    assert h[..0] == [];
    assert DropEmpty(ModelOnly, h) == [TextTurn(User, text)];
    assert DropEmpty(ModelOrAssistant, h) == [TextTurn(Model, text)];
    assert Window(h) == h;
    assert Collapse(h) == [TextTurn(Model, text)];
  }

  /** With a message, an image without the data-URI form is a 400 in server.js and silently dropped in the others. */
  lemma MalformedImagePolicies(message: string, s: string, reencode: string -> string, call: Server.SdkResult)
    requires message != "" && s != ""
    requires forall d :: !HasForm(s, d)
    ensures var req := ChatRequest(Some(message), Some(s), None);
      && Server.Respond(req, reencode, call) == HttpError(400, Server.BadImage, NoDetail)
      && Server.Sent(req, reencode) == None
      && ApiApp.Sent(req) == Some([Turn(User, [Text(message)])])
      && ApiIndex.Sent(req) == Some(ApiIndex.Priming() + [Turn(User, [Text(message)])])
  {
    ParseRejectsIffNoForm(s);
    var req := ChatRequest(Some(message), Some(s), None);
    var turn := Turn(User, [Text(message)]);
    assert ApiApp.Contents(req) == [] + [turn] == [turn];
    assert ApiIndex.Contents(req) == ApiIndex.Priming() + [] + [turn] == ApiIndex.Priming() + [turn];
  }

  /** An upstream 429 is a distinct 429 only in api/app.js; api/index.js folds it into its 500. */
  lemma RateLimitPolicies(data: Envelope)
    ensures ApiApp.Classify(Responded(429, data)) == HttpError(429, ApiApp.RateLimited, NoDetail)
    ensures ApiIndex.Classify(Responded(429, data)).HttpError?
    ensures ApiIndex.Classify(Responded(429, data)).status == 500
  {
  }

  /** On an ok answer with a truthy first text both later revisions reply with it. */
  lemma SameReplyForTextPresent(status: int, data: Envelope)
    requires IsOk(status) && Truthy(FirstText(data))
    ensures ApiApp.Classify(Responded(status, data)) == Reply(FirstText(data))
    ensures ApiIndex.Classify(Responded(status, data)) == Reply(FirstText(data))
  {
  }

  /** On an ok answer with no candidate (absent or empty) api/app.js answers 500 where api/index.js apologises. */
  lemma MissingCandidatePolicies(status: int, error: Option<ApiError>, cs: Option<seq<Candidate>>)
    requires IsOk(status)
    requires cs.None? || cs == Some([])
    ensures ApiApp.Classify(Responded(status, Envelope(error, cs)))
      == HttpError(500, ApiApp.TechnicalError, Details(ApiApp.NoValidReply))
    ensures ApiIndex.Classify(Responded(status, Envelope(error, cs)))
      == Reply(Some(ApiIndex.Apology))
  {
  }
}
