/**
  The `/api/chat` handler of server.js: validation, drop-empty history with
  only `'model'` read as the model role, an inline image part that must match
  the data-URI pattern, one trailing text part, and the SDK call.
 */
module Server {
  import opened Js
  import opened DataUri
  import opened Gemini
  import opened ChatApi
  import opened History

  const MissingInput: string := "Mensagem ou imagem é obrigatória"
  const BadImage: string := "Formato de imagem inválido"
  const DefaultPrompt: string := "Analise a imagem desta refeição e me dê uma estimativa dos macronutrientes."
  const ChatFailed: string := "Erro ao processar sua solicitação com a inteligência artificial"
  /** The message of the ReferenceError raised by reading the undeclared `ai`. */
  const UndeclaredClient: string := "ai is not defined"

  /** What `ai.models.generateContent` gives: `response.text`, or the error it throws. */
  datatype SdkResult = Generated(text: Option<string>) | Raised(message: string)

  /** The payload the handler would send, or the 400 message it answers with instead. */
  datatype Prepared = Refused(error: string) | Ready(contents: seq<Turn>)

  function HistoryTurns(req: ChatRequest): seq<Turn> {
    if req.history.Some? then DropEmpty(ModelOnly, req.history.value) else []
  }

  /** `currentParts`: the inline part of a matched image (if any), then the text part. */
  function CurrentParts(message: Option<string>, image: Option<DataUri>, reencode: string -> string): seq<Part> {
    (match image
     case Some(d) => [Inline(d.MimeType(), reencode(d.payload))]
     case None => [])
    + [Text(Or(message, DefaultPrompt))]
  }

  /**
    Everything before the SDK call. `reencode` stands for
    `Buffer.from(raw, 'base64').toString('base64')`, which is not modelled.
   */
  function Prepare(req: ChatRequest, reencode: string -> string): Prepared {
    if !HasInput(req) then Refused(MissingInput)
    else if !Truthy(req.imageBase64) then
      Ready(HistoryTurns(req) + [Turn(User, CurrentParts(req.message, None, reencode))])
    else
      match Parse(req.imageBase64.value)
      case None => Refused(BadImage)
      case Some(d) => Ready(HistoryTurns(req) + [Turn(User, CurrentParts(req.message, Some(d), reencode))])
  }

  /** The `contents` handed to the SDK, if the handler gets that far. */
  function Sent(req: ChatRequest, reencode: string -> string): Option<seq<Turn>> {
    match Prepare(req, reencode)
    case Ready(c) => Some(c)
    case Refused(_) => None
  }

  /** The answer, given what the SDK call gives. */
  function Respond(req: ChatRequest, reencode: string -> string, call: SdkResult): Outcome {
    match Prepare(req, reencode)
    case Refused(e) => HttpError(400, e, NoDetail)
    case Ready(_) =>
      match call
      case Generated(t) => Reply(t)
      case Raised(m) => HttpError(500, ChatFailed, Details(m))
  }

  /** The answer of the handler as written: the SDK call always throws, as `ai` is never declared. */
  function RespondAsWritten(req: ChatRequest, reencode: string -> string): Outcome {
    Respond(req, reencode, Raised(UndeclaredClient))
  }

  /** The handler body, step by step, with the call's result as an input. */
  method Chat(req: ChatRequest, reencode: string -> string, call: SdkResult)
    returns (sent: Option<seq<Turn>>, out: Outcome)
    ensures sent == Sent(req, reencode)
    ensures out == Respond(req, reencode, call)
  {
    if !Truthy(req.message) && !Truthy(req.imageBase64) {
      return None, HttpError(400, MissingInput, NoDetail);
    }
    var contentsArray: seq<Turn> := [];
    if req.history.Some? {
      contentsArray := MapHistory(ModelOnly, req.history.value);
    }
    var currentParts: seq<Part> := [];
    ghost var image: Option<DataUri> := None;
    if Truthy(req.imageBase64) {
      var matches := Parse(req.imageBase64.value);
      if matches.Some? {
        var mimeType := matches.value.MimeType();
        var cleanBase64 := reencode(matches.value.payload);
        currentParts := currentParts + [Inline(mimeType, cleanBase64)];
        image := matches;
      } else {
        return None, HttpError(400, BadImage, NoDetail);
      }
    }
    currentParts := currentParts + [Text(Or(req.message, DefaultPrompt))];
    assert currentParts == CurrentParts(req.message, image, reencode);
    contentsArray := contentsArray + [Turn(User, currentParts)];
    sent := Some(contentsArray);
    match call {
      case Generated(t) => out := Reply(t);
      case Raised(m) => out := HttpError(500, ChatFailed, Details(m));
    }
  }

  /** Requests refused with 400, and so never sent: no message and no image, or an image without the data-URI form. */
  lemma RefusedRequests(req: ChatRequest, reencode: string -> string, call: SdkResult)
    ensures !HasInput(req) ==> Sent(req, reencode) == None && Respond(req, reencode, call) == HttpError(400, MissingInput, NoDetail)
    ensures HasInput(req) && Truthy(req.imageBase64) && (forall d :: !HasForm(req.imageBase64.value, d)) ==>
      Sent(req, reencode) == None && Respond(req, reencode, call) == HttpError(400, BadImage, NoDetail)
    ensures Sent(req, reencode) == None <==>
      !HasInput(req) || (Truthy(req.imageBase64) && forall d :: !HasForm(req.imageBase64.value, d))
  {
    if Truthy(req.imageBase64) {
      ParseRejectsIffNoForm(req.imageBase64.value);
    }
  }

  /**
    A sent payload is the kept history followed by one `user` turn of one or two
    parts: the inline part of a well-formed image first, the text part (message
    or default prompt) last.
   */
  lemma SentPayload(req: ChatRequest, reencode: string -> string)
    requires Sent(req, reencode).Some?
    ensures var c := Sent(req, reencode).value;
      && |c| == |HistoryTurns(req)| + 1
      && c[..|c| - 1] == HistoryTurns(req)
      && c[|c| - 1].role == User
      && 1 <= |c[|c| - 1].parts| <= 2
      && c[|c| - 1].parts[|c[|c| - 1].parts| - 1] == Text(Or(req.message, DefaultPrompt))
      && (|c[|c| - 1].parts| == 2 <==> Truthy(req.imageBase64))
    ensures forall d :: Truthy(req.imageBase64) && HasForm(req.imageBase64.value, d) ==>
      Sent(req, reencode).value[|Sent(req, reencode).value| - 1].parts[0] == Inline(d.MimeType(), reencode(d.payload))
  {
    if Truthy(req.imageBase64) {
      forall d | HasForm(req.imageBase64.value, d)
        ensures Parse(req.imageBase64.value) == Some(d)
      {
        ParseIffForm(req.imageBase64.value, d);
      }
    }
  }

  /** The history part of the payload has one turn per entry with truthy text. */
  lemma SentLength(req: ChatRequest, reencode: string -> string)
    requires Sent(req, reencode).Some?
    ensures |Sent(req, reencode).value| == (if req.history.Some? then |TextIndices(req.history.value)| else 0) + 1
  {
    if req.history.Some? {
      DropEmptyKeepsTextEntries(ModelOnly, req.history.value);
    }
  }

  /** Whatever the SDK throws becomes a 500 carrying its message. */
  lemma ThrownBecomes500(req: ChatRequest, reencode: string -> string, m: string)
    requires Sent(req, reencode).Some?
    ensures Respond(req, reencode, Raised(m)) == HttpError(500, ChatFailed, Details(m))
  {
  }

  /** As written, the handler never replies: every request it does not refuse ends in the 500 branch. */
  lemma AsWrittenNeverReplies(req: ChatRequest, reencode: string -> string)
    ensures !RespondAsWritten(req, reencode).Reply?
    ensures Sent(req, reencode).Some? ==>
      RespondAsWritten(req, reencode) == HttpError(500, ChatFailed, Details(UndeclaredClient))
  {
  }

  /** The plain greeting `{ message: "oi", history: [] }`: answered with the generated text once a client exists. */
  lemma GreetingRoundTrip(reencode: string -> string)
    ensures Sent(ChatRequest(Some("oi"), None, Some([])), reencode) == Some([TextTurn(User, "oi")])
    ensures Respond(ChatRequest(Some("oi"), None, Some([])), reencode, Generated(Some("olá"))) == Reply(Some("olá"))
    ensures RespondAsWritten(ChatRequest(Some("oi"), None, Some([])), reencode)
      == HttpError(500, ChatFailed, Details(UndeclaredClient))
  {
    var req := ChatRequest(Some("oi"), None, Some([]));
    assert HistoryTurns(req) == [];
    assert CurrentParts(req.message, None, reencode) == [Text("oi")];
    assert HistoryTurns(req) + [Turn(User, [Text("oi")])] == [TextTurn(User, "oi")];
  }
}
