/**
  The `/api/chat` handler of api/app.js: validation, drop-empty history with
  `'model'` and `'assistant'` read as the model role, current parts with
  order-dependent defaults and silently dropped malformed images, and the
  classification of the provider's answer (429 kept apart from other failures).
 */
module ApiApp {
  import opened Js
  import opened DataUri
  import opened Gemini
  import opened ChatApi
  import opened History

  const MissingInput: string := "Mensagem ou imagem é obrigatória"
  const AnalyzeMeal: string := "Analise esta refeição detalhadamente, dando gramas estimadas de cada item e o total de Macronutrientes (Proteína, Carboidrato, Gordura) e Calorias. Use <strong> para destacar valores numéricos."
  const Greeting: string := "Olá!"
  const RateLimited: string := "Opa! O cérebro da IA atingiu o limite grátis do Google. Espere 60s e tente de novo! ⏳"
  const UpstreamFallback: string := "Erro na comunicação direta com Google"
  const NoValidReply: string := "Google não retornou uma resposta válida."
  const TechnicalError: string := "Erro técnico de conexão com a IA. Tente atualizar a página."

  function HistoryTurns(req: ChatRequest): seq<Turn> {
    if req.history.Some? then DropEmpty(ModelOrAssistant, req.history.value) else []
  }

  /** The inline part of a matched image: group 1 as MIME type, raw group 2 as data. */
  function InlineOf(d: DataUri): Part {
    Inline(d.MimeType(), d.payload)
  }

  /**
    Reference definition of `currentParts`, by what the turn ends up holding:
    the message and the image when there is a message; the analysis default and
    the image for an image alone; nothing for a malformed image alone; the
    greeting when there is neither.
   */
  function CurrentParts(message: Option<string>, image: Option<string>): seq<Part> {
    match MatchImage(image)
    case Some(d) =>
      if Truthy(message) then [Text(message.value), InlineOf(d)] else [Text(AnalyzeMeal), InlineOf(d)]
    case None =>
      if Truthy(message) then [Text(message.value)]
      else if Truthy(image) then []
      else [Text(Greeting)]
  }

  /** The conditional pushes onto `currentParts`. */
  method BuildCurrentParts(message: Option<string>, image: Option<string>) returns (currentParts: seq<Part>)
    ensures currentParts == CurrentParts(message, image)
  {
    currentParts := [];
    if Truthy(message) {
      currentParts := currentParts + [Text(message.value)];
    }
    if Truthy(image) {
      var matches := Parse(image.value);
      if matches.Some? {
        if !Truthy(message) {
          currentParts := currentParts + [Text(AnalyzeMeal)];
        }
        currentParts := currentParts + [Inline(matches.value.MimeType(), matches.value.payload)];
      }
    } else if !Truthy(message) {
      currentParts := currentParts + [Text(Greeting)];
    }
  }

  /** `contents`: the kept history, then the current `user` turn. */
  function Contents(req: ChatRequest): seq<Turn> {
    HistoryTurns(req) + [Turn(User, CurrentParts(req.message, req.imageBase64))]
  }

  /** The success branch: `candidates[0].content.parts[0].text`, guarded only up to `content`. */
  function ReplyFrom(data: Envelope): Outcome {
    match data.candidates
    case Some(cs) =>
      if |cs| > 0 && cs[0].content.Some? then
        (match cs[0].content.value.parts
         case Some(ps) => if |ps| > 0 then Reply(ps[0].text) else HttpError(500, TechnicalError, EngineTypeError)
         case None => HttpError(500, TechnicalError, EngineTypeError))
      else HttpError(500, TechnicalError, Details(NoValidReply))
    case None => HttpError(500, TechnicalError, Details(NoValidReply))
  }

  /** Everything after the request is sent: status check, then reply extraction, under the outer catch. */
  function Classify(upstream: Upstream): Outcome {
    match upstream
    case Threw(m) => HttpError(500, TechnicalError, Details(m))
    case Responded(status, data) =>
      if !IsOk(status) then
        if status == 429 then HttpError(429, RateLimited, NoDetail)
        else HttpError(500, TechnicalError, Details(Or(ErrorMessage(data), UpstreamFallback)))
      else ReplyFrom(data)
  }

  function Sent(req: ChatRequest): Option<seq<Turn>> {
    if HasInput(req) then Some(Contents(req)) else None
  }

  function Respond(req: ChatRequest, upstream: Upstream): Outcome {
    if HasInput(req) then Classify(upstream) else HttpError(400, MissingInput, NoDetail)
  }

  /** The handler body, with the provider's answer as an input. */
  method Chat(req: ChatRequest, upstream: Upstream) returns (sent: Option<seq<Turn>>, out: Outcome)
    ensures sent == Sent(req)
    ensures out == Respond(req, upstream)
  {
    if !Truthy(req.message) && !Truthy(req.imageBase64) {
      return None, HttpError(400, MissingInput, NoDetail);
    }
    var contents: seq<Turn> := [];
    if req.history.Some? {
      contents := MapHistory(ModelOrAssistant, req.history.value);
    }
    var currentParts := BuildCurrentParts(req.message, req.imageBase64);
    contents := contents + [Turn(User, currentParts)];
    sent := Some(contents);
    out := Classify(upstream);
  }

  /** No message and no image: 400 and nothing is sent; otherwise the payload ends with the current `user` turn. */
  lemma Validation(req: ChatRequest, upstream: Upstream)
    ensures Sent(req).None? <==> !HasInput(req)
    ensures !HasInput(req) ==> Respond(req, upstream) == HttpError(400, MissingInput, NoDetail)
    ensures Sent(req).Some? ==>
      var c := Sent(req).value;
      |c| == |HistoryTurns(req)| + 1 && c[..|c| - 1] == HistoryTurns(req)
      && c[|c| - 1] == Turn(User, CurrentParts(req.message, req.imageBase64))
  {
  }

  /** A truthy message is the first part, verbatim. */
  lemma MessageComesFirst(message: Option<string>, image: Option<string>)
    requires Truthy(message)
    ensures |CurrentParts(message, image)| >= 1 && CurrentParts(message, image)[0] == Text(message.value)
  {
  }

  /** An image alone that has the data-URI form: the analysis text first, then the inline part with the raw groups. */
  lemma ImageOnlyGetsDefaultFirst(message: Option<string>, s: string, d: DataUri)
    requires !Truthy(message)
    requires HasForm(s, d)
    ensures CurrentParts(message, Some(s)) == [Text(AnalyzeMeal), Inline(d.MimeType(), d.payload)]
  {
    ParseIffForm(s, d);
  }

  /** A present image without the form is dropped without an error; alone it leaves no part at all. */
  lemma MalformedImageDropped(message: Option<string>, s: string)
    requires s != ""
    requires forall d :: !HasForm(s, d)
    ensures CurrentParts(message, Some(s)) == if Truthy(message) then [Text(message.value)] else []
  {
    ParseRejectsIffNoForm(s);
  }

  /** Every inline part carries the groups of a well-formed data URI that is the image string. */
  lemma InlineMeansWellFormed(message: Option<string>, image: Option<string>, p: Part)
    requires p in CurrentParts(message, image) && p.Inline?
    ensures image.Some? && exists d :: HasForm(image.value, d) && p == Inline(d.MimeType(), d.payload)
  {
  }

  /** Only an upstream 429 is answered with 429; every other failure is a 500 carrying a detail. */
  lemma RateLimitKeptApart(upstream: Upstream)
    ensures Classify(upstream).HttpError? && Classify(upstream).status == 429
      <==> upstream.Responded? && upstream.status == 429
    ensures Classify(upstream).HttpError? ==> Classify(upstream).status in {429, 500}
    ensures Classify(upstream).HttpError? && Classify(upstream).status == 500 ==> Classify(upstream).detail != NoDetail
  {
  }

  /** A non-ok status other than 429: the provider's message when truthy, else the fixed fallback. */
  lemma UpstreamFailureDetails(status: int, data: Envelope)
    requires !IsOk(status) && status != 429
    ensures Truthy(ErrorMessage(data)) ==>
      Classify(Responded(status, data)) == HttpError(500, TechnicalError, Details(ErrorMessage(data).value))
    ensures !Truthy(ErrorMessage(data)) ==>
      Classify(Responded(status, data)) == HttpError(500, TechnicalError, Details(UpstreamFallback))
  {
  }

  /**
    A reply happens only for an ok status and is the first part's text; a missing
    first candidate or content is the "no valid response" 500.
   */
  lemma ReplyExtraction(upstream: Upstream)
    ensures Classify(upstream).Reply? ==>
      upstream.Responded? && IsOk(upstream.status) && Classify(upstream).reply == FirstText(upstream.body)
    ensures upstream.Responded? && IsOk(upstream.status) && FirstText(upstream.body).Some? ==>
      Classify(upstream) == Reply(FirstText(upstream.body))
    ensures (&& upstream.Responded? && IsOk(upstream.status)
             && (|| upstream.body.candidates.None?
                 || |upstream.body.candidates.value| == 0
                 || upstream.body.candidates.value[0].content.None?))
      ==> Classify(upstream) == HttpError(500, TechnicalError, Details(NoValidReply))
  {
  }
}
