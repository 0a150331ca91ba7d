/**
 * The provider-facing types (backend/internal/providers/types.go) and what the two
 * streaming adapters, OpenRouter and Ollama, have in common: the target id, the
 * base-URL normalisation, the two-entry message list, the per-line scanner that
 * either skips a line, stops, or emits one chunk, and the way an `emit` callback
 * that starts refusing cuts the stream short.
 */
module Providers {
  import opened Wrappers
  import opened Text

  /** A sampling temperature (a `*float64` in the source); it is only ever copied. */
  type Temperature = real

  datatype Target = Target(provider: string, model: string, systemPrompt: string, temperature: Option<Temperature>)

  datatype OpenRouterConfig = OpenRouterConfig(apiKey: string, baseUrl: string, models: seq<string>)

  datatype OllamaConfig = OllamaConfig(baseUrl: string, models: seq<string>)

  datatype ProviderConfig = ProviderConfig(openRouter: OpenRouterConfig, ollama: OllamaConfig)

  datatype HistoryMessage = HistoryMessage(role: string, content: string)

  datatype StreamRequest = StreamRequest(prompt: string, target: Target, config: ProviderConfig, history: seq<HistoryMessage>)

  /** The `event` field of a stream event; the source only ever sets these four. */
  datatype EventKind = Start | Chunk | Error | End

  datatype StreamEvent = StreamEvent(
    targetId: string, provider: string, model: string, event: EventKind, content: string, error: string)

  /** `provider + ":" + model`. */
  function TargetId(t: Target): string {
    t.provider + ":" + t.model
  }

  function ChunkEvent(t: Target, content: string): StreamEvent {
    StreamEvent(TargetId(t), t.provider, t.model, Chunk, content, "")
  }

  function ChunkEvents(t: Target, chunks: seq<string>): (evs: seq<StreamEvent>)
    ensures |evs| == |chunks|
  {
    seq(|chunks|, i requires 0 <= i < |chunks| => ChunkEvent(t, chunks[i]))
  }

  lemma ChunkEventsSnoc(t: Target, chunks: seq<string>, c: string)
    ensures ChunkEvents(t, chunks + [c]) == ChunkEvents(t, chunks) + [ChunkEvent(t, c)]
  {
  }

  // ---------------------------------------------------------------------------
  // The outgoing request.

  datatype WireMessage = WireMessage(role: string, content: string)

  /**
   * The JSON body of a chat request. `temperature` is the top-level key OpenRouter
   * reads; `optionsTemperature` is Ollama's `options.temperature`.
   */
  datatype ChatBody = ChatBody(
    model: string, messages: seq<WireMessage>, stream: bool,
    temperature: Option<Temperature>, optionsTemperature: Option<Temperature>)

  datatype HttpRequest = HttpRequest(url: string, authorization: Option<string>, body: ChatBody)

  /**
   * The configured base URL, trimmed, defaulted when blank, with one trailing "/" removed.
   */
  function NormalizeBaseUrl(raw: string, fallback: string): (r: string)
    requires !HasSuffix(fallback, "/")
    ensures IsBlank(raw) ==> r == fallback
    ensures !IsBlank(raw) ==> r == TrimSpace(raw) || r + "/" == TrimSpace(raw)
    ensures !IsBlank(raw) && !HasSuffix(TrimSpace(raw), "/") ==> r == TrimSpace(raw)
    ensures !IsBlank(raw) && HasSuffix(TrimSpace(raw), "/") ==> r + "/" == TrimSpace(raw)
  {
    TrimSpaceEmptyIffBlank(raw);
    var trimmed := TrimSpace(raw);
    TrimSuffix(if trimmed == "" then fallback else trimmed, "/")
  }

  /**
   * The message list both adapters send: the system prompt when there is one, then the
   * user prompt. The chat history is never part of it.
   */
  function PromptMessages(systemPrompt: string, prompt: string): (messages: seq<WireMessage>)
    ensures |messages| == (if systemPrompt != "" then 2 else 1)
    ensures messages[|messages| - 1] == WireMessage("user", prompt)
    ensures systemPrompt != "" ==> messages[0] == WireMessage("system", systemPrompt)
  {
    (if systemPrompt != "" then [WireMessage("system", systemPrompt)] else []) + [WireMessage("user", prompt)]
  }

  /** The list is built by appending, as both adapters do. */
  method BuildMessages(systemPrompt: string, prompt: string) returns (messages: seq<WireMessage>)
    ensures messages == PromptMessages(systemPrompt, prompt)
  {
    messages := [];
    if systemPrompt != "" {
      messages := messages + [WireMessage("system", systemPrompt)];
    }
    messages := messages + [WireMessage("user", prompt)];
  }

  // ---------------------------------------------------------------------------
  // What the network and the consumer do, given as parameters.

  /**
   * The outcome of sending the request: either it could not be built or sent, or a
   * response arrived with a status, the (at most 4096-byte) body read for an error
   * report, the lines the scanner reads from the body, and the error, if any, that
   * ended the scanning.
   */
  datatype HttpOutcome =
    | TransportFailure(message: string)
    | HttpResponse(status: int, errorBody: string, lines: seq<string>, readError: Option<string>)

  datatype AdapterError =
    | ApiKeyRequired
    | RequestFailed(message: string)
    | HttpStatus(status: int, body: string)
    | EmitRejected
    | ReadFailed(message: string)

  /** What one call of an adapter's `Stream` did: the events `emit` accepted, and the error it returned. */
  datatype AdapterRun = AdapterRun(emitted: seq<StreamEvent>, err: Option<AdapterError>)

  /**
   * The text of each error as `err.Error()` gives it, for the adapter called `name`
   * (`ApiKeyRequired` only ever comes from OpenRouter; a refused `emit` returns the
   * context's error).
   */
  function ErrorText(name: string, e: AdapterError): string {
    match e
    case ApiKeyRequired => name + ".apiKey is required"
    case RequestFailed(m) => m
    case HttpStatus(code, body) => name + " error (" + FormatInt(code) + "): " + body
    case EmitRejected => "context canceled"
    case ReadFailed(m) => m
  }

  /**
   * `emit` accepts its first `accepts.value` calls and refuses every later one (the run's
   * context has been cancelled); with `None` it accepts every call.
   */
  function Delivered(n: nat, accepts: Option<nat>): (d: nat)
    ensures d <= n
    ensures d < n <==> accepts.Some? && accepts.value < n
  {
    if accepts.Some? && accepts.value < n then accepts.value else n
  }

  // ---------------------------------------------------------------------------
  // The line scanner shared by both adapters.

  /** What one line of the response body does to the scan. */
  datatype LineAction = Skip | Stop | Emit(content: string)

  /** The chunks a scan emits when `emit` never refuses, and whether it met a stop line. */
  datatype ScanSummary = ScanSummary(chunks: seq<string>, stopped: bool)

  function Summarize(actions: seq<LineAction>): (r: ScanSummary)
    ensures |r.chunks| <= |actions|
  {
    if actions == [] then ScanSummary([], false)
    else match actions[0]
      case Skip => Summarize(actions[1..])
      case Stop => ScanSummary([], true)
      case Emit(c) =>
        var rest := Summarize(actions[1..]);
        ScanSummary([c] + rest.chunks, rest.stopped)
  }

  /**
   * Scanning is incremental: lines read after a stop line change nothing, and before one
   * the chunks of a longer body extend those of its prefix.
   */
  lemma {:induction false} SummarizeAppend(a: seq<LineAction>, b: seq<LineAction>)
    ensures Summarize(a).stopped ==> Summarize(a + b) == Summarize(a)
    ensures !Summarize(a).stopped ==>
      Summarize(a + b) == ScanSummary(Summarize(a).chunks + Summarize(b).chunks, Summarize(b).stopped)
  {
    if a == [] {
      assert a + b == b;
    } else {
      assert (a + b)[0] == a[0];
      assert (a + b)[1..] == a[1..] + b;
      SummarizeAppend(a[1..], b);
      match a[0]
      case Skip =>
      case Stop =>
      case Emit(c) =>
        var ra := Summarize(a[1..]);
        if !ra.stopped {
          assert [c] + (ra.chunks + Summarize(b).chunks) == ([c] + ra.chunks) + Summarize(b).chunks;
        }
    }
  }

  /** One step of the scan, as a loop over the lines takes it. */
  lemma SummarizeFrom(actions: seq<LineAction>, i: nat)
    requires i < |actions|
    ensures actions[i].Skip? ==> Summarize(actions[i..]) == Summarize(actions[i + 1..])
    ensures actions[i].Stop? ==> Summarize(actions[i..]) == ScanSummary([], true)
    ensures actions[i].Emit? ==>
      && Summarize(actions[i..]).chunks == [actions[i].content] + Summarize(actions[i + 1..]).chunks
      && Summarize(actions[i..]).stopped == Summarize(actions[i + 1..]).stopped
  {
    assert actions[i..][0] == actions[i];
    assert actions[i..][1..] == actions[i + 1..];
  }

  /** The action of every line of a body, under an adapter's classification of one line. */
  function Actions(lines: seq<string>, classify: string -> LineAction): (acts: seq<LineAction>)
    ensures |acts| == |lines|
    ensures forall i | 0 <= i < |lines| :: acts[i] == classify(lines[i])
  {
    seq(|lines|, i requires 0 <= i < |lines| => classify(lines[i]))
  }

  lemma ActionsRemove(lines: seq<string>, classify: string -> LineAction, k: nat)
    requires k < |lines|
    ensures Actions(lines[..k] + lines[k + 1..], classify) == Actions(lines, classify)[..k] + Actions(lines, classify)[k + 1..]
  {
    var acts := Actions(lines, classify);
    var shorter := Actions(lines[..k] + lines[k + 1..], classify);
    assert forall i | 0 <= i < |shorter| :: shorter[i] == (acts[..k] + acts[k + 1..])[i] by {
      forall i | 0 <= i < |shorter|
        ensures shorter[i] == (acts[..k] + acts[k + 1..])[i]
      {
        if i < k {
          assert (lines[..k] + lines[k + 1..])[i] == lines[i];
        } else {
          assert (lines[..k] + lines[k + 1..])[i] == lines[i + 1];
        }
      }
    }
  }

  lemma ActionsPrefix(lines: seq<string>, classify: string -> LineAction, n: nat)
    requires n <= |lines|
    ensures Actions(lines[..n], classify) == Actions(lines, classify)[..n]
  {
  }

  /** A line that is skipped can be removed from the body without changing what the scan yields. */
  lemma {:induction false} SkippedLineIrrelevant(actions: seq<LineAction>, k: nat)
    requires k < |actions| && actions[k].Skip?
    ensures Summarize(actions[..k] + actions[k + 1..]) == Summarize(actions)
  {
    var pre, post := actions[..k], actions[k + 1..];
    assert actions == pre + ([actions[k]] + post);
    SummarizeAppend(pre, [actions[k]] + post);
    SummarizeAppend(pre, post);
    assert ([actions[k]] + post)[1..] == post;
  }

  /** Nothing after a stop line matters: the body may be cut right after it. */
  lemma {:induction false} LinesAfterStopIrrelevant(actions: seq<LineAction>, k: nat)
    requires k < |actions| && actions[k].Stop?
    ensures Summarize(actions) == Summarize(actions[..k + 1])
    ensures Summarize(actions).stopped
    decreases k
  {
    var cut := actions[..k + 1];
    assert cut[0] == actions[0];
    if k > 0 {
      assert cut[1..] == actions[1..][..k];
      LinesAfterStopIrrelevant(actions[1..], k - 1);
    }
  }

  /** A `Stop` adds no chunk of its own: the scan ends with what the lines before it gave. */
  lemma StopEndsSummary(actions: seq<LineAction>, k: nat)
    requires k < |actions| && actions[k].Stop?
    ensures Summarize(actions) == Summarize(actions[..k]).(stopped := true)
  {
    LinesAfterStopIrrelevant(actions, k);
    assert actions[..k + 1] == actions[..k] + [Stop];
    SummarizeAppend(actions[..k], [Stop]);
    assert Summarize([Stop]) == ScanSummary([], true);
  }

  /**
   * The state of a scan that has read the first `i` lines without stopping and produced
   * `chunks`: what the whole body yields is `chunks` followed by what the rest yields.
   */
  predicate ScannedUpTo(actions: seq<LineAction>, i: nat, chunks: seq<string>)
    requires i <= |actions|
  {
    && Summarize(actions).chunks == chunks + Summarize(actions[i..]).chunks
    && Summarize(actions).stopped == Summarize(actions[i..]).stopped
  }

  lemma ScanStart(actions: seq<LineAction>)
    ensures ScannedUpTo(actions, 0, [])
  {
    assert actions[0..] == actions;
  }

  lemma ScanSkip(actions: seq<LineAction>, i: nat, chunks: seq<string>)
    requires i < |actions| && actions[i].Skip? && ScannedUpTo(actions, i, chunks)
    ensures ScannedUpTo(actions, i + 1, chunks)
  {
    SummarizeFrom(actions, i);
  }

  lemma ScanEmit(actions: seq<LineAction>, i: nat, chunks: seq<string>)
    requires i < |actions| && actions[i].Emit? && ScannedUpTo(actions, i, chunks)
    ensures ScannedUpTo(actions, i + 1, chunks + [actions[i].content])
    ensures |Summarize(actions).chunks| > |chunks| && Summarize(actions).chunks[..|chunks|] == chunks
  {
    SummarizeFrom(actions, i);
    var rest := Summarize(actions[i + 1..]).chunks;
    assert chunks + ([actions[i].content] + rest) == (chunks + [actions[i].content]) + rest;
    assert (chunks + Summarize(actions[i..]).chunks)[..|chunks|] == chunks;
  }

  lemma ScanStop(actions: seq<LineAction>, i: nat, chunks: seq<string>)
    requires i < |actions| && actions[i].Stop? && ScannedUpTo(actions, i, chunks)
    ensures Summarize(actions) == ScanSummary(chunks, true)
  {
    SummarizeFrom(actions, i);
  }

  lemma ScanFinish(actions: seq<LineAction>, chunks: seq<string>)
    requires ScannedUpTo(actions, |actions|, chunks)
    ensures Summarize(actions) == ScanSummary(chunks, false)
  {
    assert actions[|actions|..] == [];
  }

  /** Every chunk a scan emits is the content of an `Emit` line. */
  lemma {:induction false} SummarizeChunksFromEmits(actions: seq<LineAction>, k: nat)
    requires k < |Summarize(actions).chunks|
    ensures Emit(Summarize(actions).chunks[k]) in actions
  {
    match actions[0]
    case Skip =>
      SummarizeChunksFromEmits(actions[1..], k);
    case Stop =>
    case Emit(c) =>
      if k > 0 {
        SummarizeChunksFromEmits(actions[1..], k - 1);
      }
  }

  /**
   * The error an adapter returns after the status check: the refused `emit`, else
   * nothing when a stop line ended the scan, else the scanner's own error.
   */
  function ScanError(summary: ScanSummary, readError: Option<string>, accepts: Option<nat>): Option<AdapterError> {
    if Delivered(|summary.chunks|, accepts) < |summary.chunks| then Some(EmitRejected)
    else if summary.stopped then None
    else if readError.Some? then Some(ReadFailed(readError.value))
    else None
  }

  /**
   * The `for reader.Scan()` loop both adapters run, and the `reader.Err()` returned after
   * it: each line is classified, a stop line ends the loop, and every chunk goes through
   * `emit`, whose first refusal is returned at once.
   */
  method ScanLines(t: Target, lines: seq<string>, readError: Option<string>,
                   classify: string -> LineAction, accepts: Option<nat>)
    returns (emitted: seq<StreamEvent>, err: Option<AdapterError>)
    ensures var s := Summarize(Actions(lines, classify));
      && emitted == ChunkEvents(t, s.chunks[..Delivered(|s.chunks|, accepts)])
      && err == ScanError(s, readError, accepts)
  {
    emitted := [];
    ghost var acts := Actions(lines, classify);
    ghost var chunks: seq<string> := [];
    var stopped := false;
    ScanStart(acts);
    for i := 0 to |lines|
      invariant ScannedUpTo(acts, i, chunks)
      invariant emitted == ChunkEvents(t, chunks)
      invariant accepts.None? || |chunks| <= accepts.value
    {
      var action := classify(lines[i]);
      if action.Skip? {
        ScanSkip(acts, i, chunks);
        continue;
      }
      if action.Stop? {
        ScanStop(acts, i, chunks);
        stopped := true;
        break;
      }
      ScanEmit(acts, i, chunks);
      if accepts.Some? && |emitted| >= accepts.value {
        err := Some(EmitRejected);
        return;
      }
      ChunkEventsSnoc(t, chunks, action.content);
      emitted := emitted + [ChunkEvent(t, action.content)];
      chunks := chunks + [action.content];
    }
    if !stopped {
      ScanFinish(acts, chunks);
    }
    if !stopped && readError.Some? {
      err := Some(ReadFailed(readError.value));
    } else {
      err := None;
    }
  }
}
