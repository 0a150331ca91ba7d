/**
 * The Ollama adapter (backend/internal/providers/ollama.go): a request to the local
 * `/api/chat` endpoint with `stream=true`, whose newline-delimited JSON body is read
 * one object per line until one says `done`.
 */
module Ollama {
  import opened Wrappers
  import opened Text
  import opened Providers

  const Name: string := "ollama"
  const DefaultBaseUrl: string := "http://localhost:11434"

  /** One decoded body line: its `done` flag and its `message.content`. */
  datatype OllamaChunk = OllamaChunk(done: bool, content: string)

  /** The JSON decoding of one trimmed line, or `None` when it does not decode. */
  type Decoder = string -> Option<OllamaChunk>

  /** What one body line does: blank and undecodable lines are skipped, `done` stops, empty content is skipped. */
  function ClassifyLine(line: string, decode: Decoder): (a: LineAction)
    ensures IsBlank(line) ==> a == Skip
    ensures a.Stop? <==> !IsBlank(line) && decode(TrimSpace(line)).Some? && decode(TrimSpace(line)).value.done
    ensures a.Emit? ==>
      && decode(TrimSpace(line)).Some?
      && !decode(TrimSpace(line)).value.done
      && a.content == decode(TrimSpace(line)).value.content != ""
  {
    TrimSpaceEmptyIffBlank(line);
    var trimmed := TrimSpace(line);
    if trimmed == "" then Skip
    else match decode(trimmed)
      case None => Skip
      case Some(chunk) =>
        if chunk.done then Stop
        else if chunk.content == "" then Skip
        else Emit(chunk.content)
  }

  function Classifier(decode: Decoder): string -> LineAction {
    line => ClassifyLine(line, decode)
  }

  /** What a whole body yields when `emit` never refuses. */
  function Scan(lines: seq<string>, decode: Decoder): ScanSummary {
    Summarize(Actions(lines, Classifier(decode)))
  }

  /** The request: no credentials, and the temperature under `options`, never at the top level. */
  function RequestFor(req: StreamRequest): HttpRequest {
    HttpRequest(
      NormalizeBaseUrl(req.config.ollama.baseUrl, DefaultBaseUrl) + "/api/chat",
      None,
      ChatBody(req.target.model, PromptMessages(req.target.systemPrompt, req.prompt), true, None, req.target.temperature))
  }

  /** What `Stream` does with a request, given the HTTP exchange, the line decoder and `emit`. */
  function Outcome(req: StreamRequest, http: HttpOutcome, decode: Decoder, accepts: Option<nat>): AdapterRun {
    if http.TransportFailure? then AdapterRun([], Some(RequestFailed(http.message)))
    else if http.status >= 300 then AdapterRun([], Some(HttpStatus(http.status, TrimSpace(http.errorBody))))
    else
      var s := Scan(http.lines, decode);
      AdapterRun(ChunkEvents(req.target, s.chunks[..Delivered(|s.chunks|, accepts)]), ScanError(s, http.readError, accepts))
  }

  /**
   * `Stream`: `sent` is the request put on the wire, `emitted` the chunk events `emit`
   * accepted, in order, and `err` what the adapter returns.
   */
  method Stream(req: StreamRequest, http: HttpOutcome, decode: Decoder, accepts: Option<nat>)
    returns (sent: HttpRequest, emitted: seq<StreamEvent>, err: Option<AdapterError>)
    ensures sent == RequestFor(req)
    ensures sent.authorization == None && sent.body.temperature == None
    ensures http.TransportFailure? ==> emitted == [] && err == Some(RequestFailed(http.message))
    ensures http.HttpResponse? && http.status >= 300 ==>
      emitted == [] && err == Some(HttpStatus(http.status, TrimSpace(http.errorBody)))
    ensures http.HttpResponse? && http.status < 300 ==>
      var s := Scan(http.lines, decode);
      && emitted == ChunkEvents(req.target, s.chunks[..Delivered(|s.chunks|, accepts)])
      && err == ScanError(s, http.readError, accepts)
    ensures AdapterRun(emitted, err) == Outcome(req, http, decode, accepts)
  {
    emitted := [];
    var baseUrl := NormalizeBaseUrl(req.config.ollama.baseUrl, DefaultBaseUrl);
    var messages := BuildMessages(req.target.systemPrompt, req.prompt);
    var body := ChatBody(req.target.model, messages, true, None, None);
    if req.target.temperature.Some? {
      body := body.(optionsTemperature := req.target.temperature);
    }
    sent := HttpRequest(baseUrl + "/api/chat", None, body);

    if http.TransportFailure? {
      err := Some(RequestFailed(http.message));
      return;
    }
    if http.status >= 300 {
      err := Some(HttpStatus(http.status, TrimSpace(http.errorBody)));
      return;
    }

    emitted, err := ScanLines(req.target, http.lines, http.readError, Classifier(decode), accepts);
  }

  /** A blank line can be dropped from the body without changing the scan. */
  lemma BlankLineIrrelevant(lines: seq<string>, decode: Decoder, k: nat)
    requires k < |lines| && IsBlank(lines[k])
    ensures Scan(lines[..k] + lines[k + 1..], decode) == Scan(lines, decode)
  {
    var acts := Actions(lines, Classifier(decode));
    assert acts[k] == ClassifyLine(lines[k], decode);
    SkippedLineIrrelevant(acts, k);
    ActionsRemove(lines, Classifier(decode), k);
  }

  /**
   * A `done` line ends the scan: nothing after it is read, and its own content, if any,
   * is not emitted.
   */
  lemma DoneEndsScan(lines: seq<string>, decode: Decoder, k: nat)
    requires k < |lines| && !IsBlank(lines[k])
    requires decode(TrimSpace(lines[k])).Some? && decode(TrimSpace(lines[k])).value.done
    ensures Scan(lines, decode) == Scan(lines[..k + 1], decode) == Scan(lines[..k], decode).(stopped := true)
  {
    var acts := Actions(lines, Classifier(decode));
    assert acts[k] == ClassifyLine(lines[k], decode);
    LinesAfterStopIrrelevant(acts, k);
    StopEndsSummary(acts, k);
    ActionsPrefix(lines, Classifier(decode), k + 1);
    ActionsPrefix(lines, Classifier(decode), k);
  }

  /** Every chunk is the non-empty `message.content` of some line that is not `done`. */
  lemma ChunkFromLine(lines: seq<string>, decode: Decoder, j: nat)
    requires j < |Scan(lines, decode).chunks|
    ensures exists i | 0 <= i < |lines| ::
      && decode(TrimSpace(lines[i])).Some?
      && !decode(TrimSpace(lines[i])).value.done
      && decode(TrimSpace(lines[i])).value.content == Scan(lines, decode).chunks[j] != ""
  {
    var acts := Actions(lines, Classifier(decode));
    SummarizeChunksFromEmits(acts, j);
    var i :| 0 <= i < |acts| && acts[i] == Emit(Scan(lines, decode).chunks[j]);
    assert acts[i] == ClassifyLine(lines[i], decode);
  }
}
