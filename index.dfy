/**
  The `/api/chat` handler of api/index.js: validation, a synthetic priming pair,
  the last four history entries with runs of one role collapsed, current parts
  with a text part put first, and a reply that falls back to an apology.
 */
module ApiIndex {
  import opened Js
  import opened DataUri
  import opened Gemini
  import opened ChatApi
  import opened History

  const MissingInput: string := "Mensagem ou imagem obrigatória"
  const SystemInstruction: string := "Você é o Nutrik.IA. Analise as refeições e informe sempre: ALIMENTOS, GRAMAS ESTIMADAS e MACRONUTRIENTES (Proteínas, Carboidratos, Gorduras e Calorias). Use <strong> apenas em números. Responda de forma direta e técnica."
  const Acknowledgement: string := "Entendido. Sou o Nutrik.IA e estou pronto para analisar sua alimentação com precisão técnica."
  const ImagePrompt: string := "Analise esta imagem nutricionalmente."
  const UpstreamFallback: string := "Erro Google API"
  const Apology: string := "Desculpe, não consegui analisar agora."
  const ChatFailed: string := "Erro na IA"

  /** The system instruction as a `user` turn and its acknowledgement as a `model` turn. */
  function Priming(): seq<Turn> {
    [TextTurn(User, SystemInstruction), TextTurn(Model, Acknowledgement)]
  }

  function Segment(req: ChatRequest): seq<Turn> {
    if req.history.Some? then Collapse(Window(req.history.value)) else []
  }

  /** `currentParts.some(p => p.text)`. */
  predicate SomeText(parts: seq<Part>) {
    exists p :: p in parts && p.Text? && p.text != ""
  }

  /**
    Reference definition of `currentParts`: the message (and the image, if it
    matches) when there is a message; the image prompt and the image for an
    image alone; nothing otherwise.
   */
  function CurrentParts(message: Option<string>, image: Option<string>): seq<Part> {
    match MatchImage(image)
    case Some(d) =>
      (if Truthy(message) then [Text(message.value)] else [Text(ImagePrompt)]) + [Inline(d.MimeType(), d.payload)]
    case None =>
      if Truthy(message) then [Text(message.value)] else []
  }

  /** The pushes onto `currentParts`, then the `unshift` of the image prompt. */
  method BuildCurrentParts(message: Option<string>, image: Option<string>) returns (currentParts: seq<Part>)
    ensures currentParts == CurrentParts(message, image)
  {
    currentParts := [];
    if Truthy(message) {
      currentParts := currentParts + [Text(message.value)];
    }
    if Truthy(image) {
      var matches := Parse(image.value);
      if matches.Some? {
        currentParts := currentParts + [Inline(matches.value.MimeType(), matches.value.payload)];
      }
    }
    if |currentParts| > 0 && !SomeText(currentParts) {
      currentParts := [Text(ImagePrompt)] + currentParts;
    }
  }

  /** `contents`: priming pair, collapsed history window, current `user` turn. */
  function Contents(req: ChatRequest): seq<Turn> {
    Priming() + Segment(req) + [Turn(User, CurrentParts(req.message, req.imageBase64))]
  }

  /** `data.candidates?.[0]?.content?.parts?.[0]?.text || "Desculpe, ..."`. */
  function ReplyText(data: Envelope): string {
    Or(FirstText(data), Apology)
  }

  /** Everything after the request is sent, under the outer catch. */
  function Classify(upstream: Upstream): Outcome {
    match upstream
    case Threw(m) => HttpError(500, ChatFailed, Details(m))
    case Responded(status, data) =>
      if !IsOk(status) then HttpError(500, ChatFailed, Details(Or(ErrorMessage(data), UpstreamFallback)))
      else Reply(Some(ReplyText(data)))
  }

  function Sent(req: ChatRequest): Option<seq<Turn>> {
    if HasInput(req) then Some(Contents(req)) else None
  }

  function Respond(req: ChatRequest, upstream: Upstream): Outcome {
    if HasInput(req) then Classify(upstream) else HttpError(400, MissingInput, NoDetail)
  }

  /** The handler body, with the provider's answer as an input. */
  method Chat(req: ChatRequest, upstream: Upstream) returns (sent: Option<seq<Turn>>, out: Outcome)
    ensures sent == Sent(req)
    ensures out == Respond(req, upstream)
  {
    if !Truthy(req.message) && !Truthy(req.imageBase64) {
      return None, HttpError(400, MissingInput, NoDetail);
    }
    var contents: seq<Turn> := [];
    contents := contents + [TextTurn(User, SystemInstruction)];
    contents := contents + [TextTurn(Model, Acknowledgement)];
    assert contents == Priming();
    if req.history.Some? {
      var segment := CollapseRuns(Window(req.history.value));
      contents := contents + segment;
    }
    assert contents == Priming() + Segment(req);
    var currentParts := BuildCurrentParts(req.message, req.imageBase64);
    contents := contents + [Turn(User, currentParts)];
    sent := Some(contents);
    out := Classify(upstream);
  }

  /** No message and no image: 400 and nothing is sent. */
  lemma Validation(req: ChatRequest, upstream: Upstream)
    ensures Sent(req).None? <==> !HasInput(req)
    ensures !HasInput(req) ==> Respond(req, upstream) == HttpError(400, MissingInput, NoDetail)
  {
  }

  /**
    The payload: the priming pair, then at most four history turns that
    alternate among themselves and keep the first entry of every run of the
    window, then the current `user` turn.
   */
  lemma PayloadShape(req: ChatRequest)
    ensures var c := Contents(req);
      && |c| == 2 + |Segment(req)| + 1
      && |Segment(req)| <= WindowSize
      && c[0] == TextTurn(User, SystemInstruction)
      && c[1] == TextTurn(Model, Acknowledgement)
      && c[2..|c| - 1] == Segment(req)
      && Alternates(c[2..|c| - 1])
      && c[|c| - 1] == Turn(User, CurrentParts(req.message, req.imageBase64))
    ensures req.history.Some? ==> Segment(req) == RunHeads(Window(req.history.value))
  {
    var c := Contents(req);
    assert c[2..|c| - 1] == Segment(req);
    if req.history.Some? {
      CollapseAlternates(Window(req.history.value));
      CollapseKeepsRunHeads(Window(req.history.value));
    }
  }

  /**
    Alternation holds only inside the history segment: a `model` entry may follow
    the acknowledgement, and a trailing `user` entry may precede the current turn.
   */
  lemma NoAlternationAcrossSegment()
    ensures var c := Contents(ChatRequest(Some("b"), None, Some([HistEntry("user", Some("a"))])));
      |c| == 4 && c[2].role == User && c[3].role == User
    ensures var c := Contents(ChatRequest(Some("b"), None, Some([HistEntry("assistant", None)])));
      |c| == 4 && c[1].role == Model && c[2] == TextTurn(Model, Filler)
  {
    var w1 := Window([HistEntry("user", Some("a"))]);
    assert w1 == [HistEntry("user", Some("a"))];
    assert Collapse(w1) == [TextTurn(User, "a")] by {
      assert w1[..0] == [];
    }
    var w2 := Window([HistEntry("assistant", None)]);
    assert w2 == [HistEntry("assistant", None)];
    assert Collapse(w2) == [TextTurn(Model, Filler)] by {
      assert w2[..0] == [];
    }
  }

  /** Whenever the current turn has parts, the first one is a non-empty text part: the message or the image prompt. */
  lemma TextPartFirst(message: Option<string>, image: Option<string>)
    ensures var ps := CurrentParts(message, image);
      ps != [] ==> ps[0] == Text(if Truthy(message) then message.value else ImagePrompt)
  {
  }

  /** A present image without the data-URI form is dropped silently; with no message the current turn is empty. */
  lemma MalformedImageDropped(message: Option<string>, s: string)
    requires forall d :: !HasForm(s, d)
    ensures CurrentParts(message, Some(s)) == if Truthy(message) then [Text(message.value)] else []
  {
    ParseRejectsIffNoForm(s);
  }

  /** A well-formed image is sent as the last part, with group 1 and the raw group 2. */
  lemma WellFormedImageLast(message: Option<string>, s: string, d: DataUri)
    requires HasForm(s, d)
    ensures var ps := CurrentParts(message, Some(s));
      |ps| == 2 && ps[1] == Inline(d.MimeType(), d.payload)
  {
    ParseIffForm(s, d);
  }

  /**
    A non-ok status is always a 500 with the provider's message or the fixed
    fallback; an ok status always replies with a non-empty text, the first
    part's text when it is truthy and the apology otherwise.
   */
  lemma Classification(upstream: Upstream)
    ensures Classify(upstream).HttpError? ==> Classify(upstream).status == 500
    ensures Classify(upstream).Reply? <==> upstream.Responded? && IsOk(upstream.status)
    ensures Classify(upstream).Reply? ==>
      Classify(upstream).reply.Some? && Classify(upstream).reply.value != ""
      && Classify(upstream).reply.value == (if Truthy(FirstText(upstream.body)) then FirstText(upstream.body).value else Apology)
    ensures upstream.Responded? && !IsOk(upstream.status) ==>
      Classify(upstream) == HttpError(500, ChatFailed, Details(Or(ErrorMessage(upstream.body), UpstreamFallback)))
  {
  }
}
