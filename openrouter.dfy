/**
 * The OpenRouter adapter (backend/internal/providers/openrouter.go): an
 * OpenAI-style chat-completions request with `stream=true`, whose server-sent-event
 * body is scanned line by line for `data:` payloads until `[DONE]`.
 */
module OpenRouter {
  import opened Wrappers
  import opened Text
  import opened Providers

  const Name: string := "openrouter"
  const DefaultBaseUrl: string := "https://openrouter.ai/api/v1"

  /**
   * The JSON decoding of one `data:` payload: the `delta.content` of each of its
   * `choices`, or `None` when the payload does not decode.
   */
  type Decoder = string -> Option<seq<string>>

  predicate IsDataLine(line: string) {
    HasPrefix(TrimSpace(line), "data:")
  }

  /** The payload of a `data:` line: what follows the prefix, trimmed. */
  function Payload(line: string): string {
    TrimSpace(TrimPrefix(TrimSpace(line), "data:"))
  }

  /** What one body line does: only `data:` lines count, `[DONE]` stops, an empty delta is skipped. */
  function ClassifyLine(line: string, decode: Decoder): (a: LineAction)
    ensures !IsDataLine(line) ==> a == Skip
    ensures a.Stop? <==> IsDataLine(line) && Payload(line) == "[DONE]"
    ensures a.Emit? ==>
      && IsDataLine(line)
      && decode(Payload(line)).Some?
      && |decode(Payload(line)).value| > 0
      && a.content == decode(Payload(line)).value[0]
      && a.content != ""
  {
    var trimmed := TrimSpace(line);
    if !HasPrefix(trimmed, "data:") then Skip
    else
      var data := TrimSpace(TrimPrefix(trimmed, "data:"));
      if data == "[DONE]" then Stop
      else if data == "" then Skip
      else match decode(data)
        case None => Skip
        case Some(choices) => if |choices| == 0 || choices[0] == "" then Skip else Emit(choices[0])
  }

  function Classifier(decode: Decoder): string -> LineAction {
    line => ClassifyLine(line, decode)
  }

  /** What a whole body yields when `emit` never refuses. */
  function Scan(lines: seq<string>, decode: Decoder): ScanSummary {
    Summarize(Actions(lines, Classifier(decode)))
  }

  function RequestFor(req: StreamRequest): HttpRequest {
    HttpRequest(
      NormalizeBaseUrl(req.config.openRouter.baseUrl, DefaultBaseUrl) + "/chat/completions",
      Some("Bearer " + TrimSpace(req.config.openRouter.apiKey)),
      ChatBody(req.target.model, PromptMessages(req.target.systemPrompt, req.prompt), true, req.target.temperature, None))
  }

  /** What `Stream` does with a request, given the HTTP exchange, the payload decoder and `emit`. */
  function Outcome(req: StreamRequest, http: HttpOutcome, decode: Decoder, accepts: Option<nat>): AdapterRun {
    if IsBlank(req.config.openRouter.apiKey) then AdapterRun([], Some(ApiKeyRequired))
    else if http.TransportFailure? then AdapterRun([], Some(RequestFailed(http.message)))
    else if http.status >= 300 then AdapterRun([], Some(HttpStatus(http.status, TrimSpace(http.errorBody))))
    else
      var s := Scan(http.lines, decode);
      AdapterRun(ChunkEvents(req.target, s.chunks[..Delivered(|s.chunks|, accepts)]), ScanError(s, http.readError, accepts))
  }

  /**
   * `Stream`: `sent` is the request put on the wire (none without an API key), `emitted`
   * the chunk events `emit` accepted, in order, and `err` what the adapter returns.
   */
  method Stream(req: StreamRequest, http: HttpOutcome, decode: Decoder, accepts: Option<nat>)
    returns (sent: Option<HttpRequest>, emitted: seq<StreamEvent>, err: Option<AdapterError>)
    ensures IsBlank(req.config.openRouter.apiKey) ==> sent == None && emitted == [] && err == Some(ApiKeyRequired)
    ensures !IsBlank(req.config.openRouter.apiKey) ==> sent == Some(RequestFor(req))
    ensures http.TransportFailure? ==> emitted == [] && err.Some? && err.value != EmitRejected
    ensures !IsBlank(req.config.openRouter.apiKey) && http.TransportFailure? ==>
      err == Some(RequestFailed(http.message))
    ensures !IsBlank(req.config.openRouter.apiKey) && http.HttpResponse? && http.status >= 300 ==>
      emitted == [] && err == Some(HttpStatus(http.status, TrimSpace(http.errorBody)))
    ensures !IsBlank(req.config.openRouter.apiKey) && http.HttpResponse? && http.status < 300 ==>
      var s := Scan(http.lines, decode);
      && emitted == ChunkEvents(req.target, s.chunks[..Delivered(|s.chunks|, accepts)])
      && err == ScanError(s, http.readError, accepts)
    ensures AdapterRun(emitted, err) == Outcome(req, http, decode, accepts)
  {
    sent, emitted := None, [];
    var apiKey := TrimSpace(req.config.openRouter.apiKey);
    TrimSpaceEmptyIffBlank(req.config.openRouter.apiKey);
    if apiKey == "" {
      err := Some(ApiKeyRequired);
      return;
    }
    var baseUrl := NormalizeBaseUrl(req.config.openRouter.baseUrl, DefaultBaseUrl);
    var messages := BuildMessages(req.target.systemPrompt, req.prompt);
    var body := ChatBody(req.target.model, messages, true, None, None);
    if req.target.temperature.Some? {
      body := body.(temperature := req.target.temperature);
    }
    sent := Some(HttpRequest(baseUrl + "/chat/completions", Some("Bearer " + apiKey), body));

    if http.TransportFailure? {
      err := Some(RequestFailed(http.message));
      return;
    }
    if http.status >= 300 {
      err := Some(HttpStatus(http.status, TrimSpace(http.errorBody)));
      return;
    }

    emitted, err := ScanLines(req.target, http.lines, http.readError, Classifier(decode), accepts);
  }

  /** A line that is not a `data:` line can be dropped from the body without changing the scan. */
  lemma NonDataLineIrrelevant(lines: seq<string>, decode: Decoder, k: nat)
    requires k < |lines| && !IsDataLine(lines[k])
    ensures Scan(lines[..k] + lines[k + 1..], decode) == Scan(lines, decode)
  {
    var acts := Actions(lines, Classifier(decode));
    assert acts[k] == ClassifyLine(lines[k], decode);
    SkippedLineIrrelevant(acts, k);
    ActionsRemove(lines, Classifier(decode), k);
  }

  /** After a `data: [DONE]` line nothing is read: the body may be cut right after it. */
  lemma DoneEndsScan(lines: seq<string>, decode: Decoder, k: nat)
    requires k < |lines| && IsDataLine(lines[k]) && Payload(lines[k]) == "[DONE]"
    ensures Scan(lines, decode) == Scan(lines[..k + 1], decode)
    ensures Scan(lines, decode).stopped
  {
    var acts := Actions(lines, Classifier(decode));
    assert acts[k] == ClassifyLine(lines[k], decode);
    LinesAfterStopIrrelevant(acts, k);
    ActionsPrefix(lines, Classifier(decode), k + 1);
  }

  /**
   * Every chunk is the non-empty `choices[0].delta.content` of the payload of some
   * `data:` line of the body.
   */
  lemma ChunkFromDataLine(lines: seq<string>, decode: Decoder, j: nat)
    requires j < |Scan(lines, decode).chunks|
    ensures exists i | 0 <= i < |lines| ::
      && IsDataLine(lines[i])
      && decode(Payload(lines[i])).Some?
      && |decode(Payload(lines[i])).value| > 0
      && decode(Payload(lines[i])).value[0] == Scan(lines, decode).chunks[j] != ""
  {
    var acts := Actions(lines, Classifier(decode));
    SummarizeChunksFromEmits(acts, j);
    var i :| 0 <= i < |acts| && acts[i] == Emit(Scan(lines, decode).chunks[j]);
    assert acts[i] == ClassifyLine(lines[i], decode);
  }
}
