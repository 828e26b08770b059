/**
  The `/api/chat` route handler: it reads `{ message, history }`, puts the
  system prompt in front of the history and the user message after it,
  asks the model for a streamed completion and forwards each non-empty
  delta to the browser. The model provider is an oracle: the stream of
  deltas it yields, and whether creating that stream succeeds.
 */
module InferenceRoute {
  import opened Common

  const SystemPrompt: string :=
    "You are a helpful, empathetic, and knowledgeable AI doctor. " +
    "You are capable of providing basic medical advice, triaging symptoms, " +
    "and suggesting when someone should see a real doctor. " +
    "You do not diagnose or prescribe. Always recommend consulting a human doctor " +
    "for serious or persistent issues. Respond in a professional and clear tone."

  const ErrorStatus: nat := 500
  const ErrorMessage: string := "Failed to process the request"
  /** The status of `new Response(readableStream)`. */
  const OkStatus: nat := 200

  /** The request body; `history` may be absent. */
  datatype ChatRequest = ChatRequest(message: string, history: Option<seq<ApiMessage>>)

  /** What the model yields before its iteration ends: for each chunk,
      `choices[0]?.delta?.content` (absent or present). Whether the
      iteration then ends normally or throws makes no difference to the
      handler, so a stream that breaks is the stream of the chunks it
      delivered (see `BrokenStreamIsPrefix`). */
  datatype ModelStream = ModelStream(deltas: seq<Option<string>>)

  /** What the handler returns: a streamed body, or the JSON error response. */
  datatype RouteResponse =
    | Streamed(status: nat, chunks: seq<string>)
    | JsonError(status: nat, error: string)

  /** `[{ role: 'system', content: SYSTEM_PROMPT }, ...history, { role: 'user', content: message }]`,
      with `history = []` when it is absent. */
  function ModelInput(req: ChatRequest): (r: seq<ApiMessage>)
    ensures |r| == |req.history.GetOr([])| + 2
    ensures r[0] == ApiMessage(SystemRole, SystemPrompt)
    ensures r[1..|r| - 1] == req.history.GetOr([])
    ensures r[|r| - 1] == ApiMessage(UserRole, req.message)
  {
    [ApiMessage(SystemRole, SystemPrompt)] + req.history.GetOr([]) + [ApiMessage(UserRole, req.message)]
  }

  /** `chunk.choices[0]?.delta?.content || ''` for every chunk, in order. */
  function DeltaTexts(deltas: seq<Option<string>>): (r: seq<string>)
    ensures |r| == |deltas|
    ensures forall i :: 0 <= i < |deltas| ==> r[i] == deltas[i].GetOr("")
  {
    seq(|deltas|, i requires 0 <= i < |deltas| => deltas[i].GetOr(""))
  }

  /** The texts the handler enqueues: the non-empty ones, in arrival order. */
  function Forwarded(deltas: seq<Option<string>>): seq<string> {
    Filter(DeltaTexts(deltas), NonEmpty)
  }

  /** The `start(controller)` loop: enqueue every non-empty delta, swallow an
      error thrown by the iteration, and close the stream in every case. */
  method Forward(model: ModelStream) returns (body: seq<string>)
    ensures body == Forwarded(model.deltas)
    ensures forall i :: 0 <= i < |body| ==> body[i] != ""
    ensures Concat(body) == Concat(DeltaTexts(model.deltas))
  {
    body := [];
    var i := 0;
    while i < |model.deltas|
      invariant 0 <= i <= |model.deltas|
      invariant body == Forwarded(model.deltas[..i])
    {
      var text := model.deltas[i].GetOr("");
      if text != "" {
        body := body + [text];
      }
      assert DeltaTexts(model.deltas[..i + 1]) == DeltaTexts(model.deltas[..i]) + [text];
      FilterConcat(DeltaTexts(model.deltas[..i]), [text], NonEmpty);
      i := i + 1;
    }
    assert model.deltas[..i] == model.deltas;
    // The iteration may have thrown here; the catch only logs it and
    // `finally` closes the stream either way.
    ConcatDropsEmpty(DeltaTexts(model.deltas));
  }

  /** `POST(req)`. `request` is `None` when `req.json()` rejects; `model` is
      `None` when creating the completion stream rejects. `sent` is the
      message list given to the model. */
  method Post(request: Option<ChatRequest>, model: Option<ModelStream>)
    returns (response: RouteResponse, sent: Option<seq<ApiMessage>>)
    ensures sent == if request.Some? then Some(ModelInput(request.value)) else None
    ensures request.None? || model.None? ==> response == JsonError(ErrorStatus, ErrorMessage)
    ensures request.Some? && model.Some? ==> response == Streamed(OkStatus, Forwarded(model.value.deltas))
  {
    if request.None? {
      return JsonError(ErrorStatus, ErrorMessage), None;
    }
    sent := Some(ModelInput(request.value));
    if model.None? {
      return JsonError(ErrorStatus, ErrorMessage), sent;
    }
    var body := Forward(model.value);
    response := Streamed(OkStatus, body);
  }

  /** A stream that breaks after `k` chunks reaches the browser as a normally
      closed body whose text is a prefix of the full reply: the browser
      cannot tell it from a complete one. */
  lemma BrokenStreamIsPrefix(deltas: seq<Option<string>>, k: nat)
    requires k <= |deltas|
    ensures var whole, part := Concat(Forwarded(deltas)), Concat(Forwarded(deltas[..k]));
      |part| <= |whole| && part == whole[..|part|]
  {
    ConcatDropsEmpty(DeltaTexts(deltas));
    ConcatDropsEmpty(DeltaTexts(deltas[..k]));
    assert DeltaTexts(deltas[..k]) == DeltaTexts(deltas)[..k];
    ConcatPrefix(DeltaTexts(deltas), k);
  }
}
