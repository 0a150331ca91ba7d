/**
 * The `/api/chat/stream` handler (backend/main.go): it checks the request, fills each
 * target's defaults from the chat's folder, stores the prompt, runs one worker per
 * target whose events are merged into one server-sent-event stream, gathers each
 * target's chunks into a reply, and stores the replies once every worker has ended.
 *
 * The goroutines, the channel and the `sync.WaitGroup` are modelled by their effect:
 * each worker produces a lane of events, and the stream is an interleaving of the
 * lanes chosen by a schedule, which stands for the Go scheduler.
 */
module Orchestrator {
  import opened Wrappers
  import opened Text
  import opened Providers
  import opened State
  import opened History
  import OpenRouter
  import Ollama

  // ---------------------------------------------------------------------------
  // The events of one worker.

  function StartEvent(t: Target): StreamEvent {
    StreamEvent(TargetId(t), t.provider, t.model, Start, "", "")
  }

  function ErrorEvent(t: Target, message: string): StreamEvent {
    StreamEvent(TargetId(t), t.provider, t.model, Error, "", message)
  }

  function EndEvent(t: Target): StreamEvent {
    StreamEvent(TargetId(t), t.provider, t.model, End, "", "")
  }

  const UnsupportedProvider: string := "unsupported provider"

  /** A worker reports the adapter's error unless it is the cancellation `emit` returned. */
  predicate Reported(err: Option<AdapterError>) {
    err.Some? && !err.value.EmitRejected?
  }

  /** What a worker sends: `start`, the adapter's chunks, its error if reported, `end`. */
  function WorkerLane(t: Target, name: string, run: AdapterRun): seq<StreamEvent> {
    [StartEvent(t)] + run.emitted
    + (if Reported(run.err) then [ErrorEvent(t, Providers.ErrorText(name, run.err.value))] else [])
    + [EndEvent(t)]
  }

  /** The JSON decoders the adapters use, which are not part of this model. */
  datatype Decoders = Decoders(openRouter: OpenRouter.Decoder, ollama: Ollama.Decoder)

  predicate Registered(provider: string) {
    provider == OpenRouter.Name || provider == Ollama.Name
  }

  /**
   * The events sent for one target: those of its worker when the registry has an adapter
   * for its provider (`emit` always accepts while the handler reads the channel), and a
   * single `unsupported provider` error otherwise.
   */
  function Lane(t: Target, prompt: string, cfg: ProviderConfig, history: seq<HistoryMessage>,
                http: HttpOutcome, decoders: Decoders): seq<StreamEvent>
  {
    if Registered(t.provider) then WorkerLane(t, t.provider, Run(StreamRequest(prompt, t, cfg, history), http, decoders))
    else [ErrorEvent(t, UnsupportedProvider)]
  }

  /** The adapter the registry holds for a provider (the one named by it), run on one request. */
  function Run(req: StreamRequest, http: HttpOutcome, decoders: Decoders): AdapterRun {
    if req.target.provider == OpenRouter.Name then OpenRouter.Outcome(req, http, decoders.openRouter, None)
    else Ollama.Outcome(req, http, decoders.ollama, None)
  }

  /** An adapter emits one chunk event per chunk it read, all for the request's target. */
  lemma RunEmits(req: StreamRequest, http: HttpOutcome, decoders: Decoders)
    requires Registered(req.target.provider)
    ensures Run(req, http, decoders).emitted == ChunkEvents(req.target, ReplyChunks(req.target, req.config, http, decoders))
  {
    if req.target.provider == OpenRouter.Name {
      if !IsBlank(req.config.openRouter.apiKey) && http.HttpResponse? && http.status < 300 {
        var s := OpenRouter.Scan(http.lines, decoders.openRouter);
        assert s.chunks[..Delivered(|s.chunks|, None)] == s.chunks;
      }
    } else if http.HttpResponse? && http.status < 300 {
      var s := Ollama.Scan(http.lines, decoders.ollama);
      assert s.chunks[..Delivered(|s.chunks|, None)] == s.chunks;
    }
  }

  /** Every event of a worker's lane carries the target's id, and only the ends are `start` and `end`. */
  lemma WorkerLaneShape(t: Target, name: string, cs: seq<string>, err: Option<AdapterError>)
    ensures var lane := WorkerLane(t, name, AdapterRun(ChunkEvents(t, cs), err));
      && Tagged(lane, TargetId(t))
      && |lane| >= 2 && lane[0] == StartEvent(t) && lane[|lane| - 1] == EndEvent(t)
      && (forall k | 0 < k < |lane| - 2 :: lane[k].event == Chunk)
      && (lane[|lane| - 2].event == Chunk || lane[|lane| - 2].event == Error || |lane| == 2)
  {
  }

  /** Every event of the sequence carries the target id `tid`. */
  predicate Tagged(evs: seq<StreamEvent>, tid: string) {
    forall k | 0 <= k < |evs| :: evs[k].targetId == tid
  }

  /** No event of the sequence carries the target id `tid`. */
  predicate Untouched(evs: seq<StreamEvent>, tid: string) {
    forall k | 0 <= k < |evs| :: evs[k].targetId != tid
  }

  /** Every event of a target's lane carries that target's id. */
  lemma LaneTagged(t: Target, prompt: string, cfg: ProviderConfig, history: seq<HistoryMessage>,
                   http: HttpOutcome, decoders: Decoders)
    ensures Tagged(Lane(t, prompt, cfg, history, http, decoders), TargetId(t))
  {
    if Registered(t.provider) {
      var req := StreamRequest(prompt, t, cfg, history);
      var run := Run(req, http, decoders);
      RunEmits(req, http, decoders);
      WorkerLaneShape(t, t.provider, ReplyChunks(t, cfg, http, decoders), run.err);
    }
  }

  /**
   * A worker's lane opens with `start` and closes with `end`, with chunks between them and
   * at most one error, right before `end`; an unknown provider gets one error event.
   */
  lemma LaneFramed(t: Target, prompt: string, cfg: ProviderConfig, history: seq<HistoryMessage>,
                   http: HttpOutcome, decoders: Decoders)
    ensures var lane := Lane(t, prompt, cfg, history, http, decoders);
      if Registered(t.provider) then
        && |lane| >= 2 && lane[0] == StartEvent(t) && lane[|lane| - 1] == EndEvent(t)
        && (forall k | 0 < k < |lane| - 2 :: lane[k].event == Chunk)
        && (lane[|lane| - 2].event == Chunk || lane[|lane| - 2].event == Error || |lane| == 2)
      else
        lane == [ErrorEvent(t, UnsupportedProvider)]
  {
    if Registered(t.provider) {
      var req := StreamRequest(prompt, t, cfg, history);
      var run := Run(req, http, decoders);
      RunEmits(req, http, decoders);
      WorkerLaneShape(t, t.provider, ReplyChunks(t, cfg, http, decoders), run.err);
    }
  }

  // ---------------------------------------------------------------------------
  // The chunk contents of a stream, per target.

  /** The contents of the chunk events for `tid`, in stream order. */
  function Chunks(evs: seq<StreamEvent>, tid: string): (cs: seq<string>)
    ensures |cs| <= |evs|
  {
    if evs == [] then []
    else (if evs[0].event == Chunk && evs[0].targetId == tid then [evs[0].content] else []) + Chunks(evs[1..], tid)
  }

  lemma {:induction false} ChunksAppend(a: seq<StreamEvent>, b: seq<StreamEvent>, tid: string)
    ensures Chunks(a + b, tid) == Chunks(a, tid) + Chunks(b, tid)
    decreases |a|
  {
    if a == [] {
      assert a + b == b;
    } else {
      assert (a + b)[0] == a[0] && (a + b)[1..] == a[1..] + b;
      ChunksAppend(a[1..], b, tid);
    }
  }

  /** The chunk events built from a list of chunks give back that list. */
  lemma {:induction false} ChunksOfChunkEvents(t: Target, cs: seq<string>)
    ensures Chunks(ChunkEvents(t, cs), TargetId(t)) == cs
    decreases |cs|
  {
    if cs != [] {
      assert ChunkEvents(t, cs)[1..] == ChunkEvents(t, cs[1..]);
      ChunksOfChunkEvents(t, cs[1..]);
    }
  }

  /** The concatenation of strings, as `+=` builds it. */
  function Joined(cs: seq<string>): string {
    if cs == [] then "" else cs[0] + Joined(cs[1..])
  }

  lemma {:induction false} JoinedSnoc(cs: seq<string>, c: string)
    ensures Joined(cs + [c]) == Joined(cs) + c
    decreases |cs|
  {
    if cs == [] {
      assert cs + [c] == [c];
    } else {
      assert (cs + [c])[1..] == cs[1..] + [c];
      JoinedSnoc(cs[1..], c);
    }
  }

  /**
   * What a target's adapter read as its reply: the chunks of a successful response (all of
   * them, since `emit` never refuses), and nothing when the request fails or the provider
   * has no adapter.
   */
  function ReplyChunks(t: Target, cfg: ProviderConfig, http: HttpOutcome, decoders: Decoders): seq<string> {
    if http.TransportFailure? || http.status >= 300 then []
    else if t.provider == OpenRouter.Name then
      if IsBlank(cfg.openRouter.apiKey) then [] else OpenRouter.Scan(http.lines, decoders.openRouter).chunks
    else if t.provider == Ollama.Name then Ollama.Scan(http.lines, decoders.ollama).chunks
    else []
  }

  /** The chunks a lane carries are exactly what its adapter read as the reply. */
  lemma LaneChunks(t: Target, prompt: string, cfg: ProviderConfig, history: seq<HistoryMessage>,
                   http: HttpOutcome, decoders: Decoders)
    ensures Chunks(Lane(t, prompt, cfg, history, http, decoders), TargetId(t)) == ReplyChunks(t, cfg, http, decoders)
  {
    if Registered(t.provider) {
      var req := StreamRequest(prompt, t, cfg, history);
      RunEmits(req, http, decoders);
      WorkerLaneChunks(t, t.provider, Run(req, http, decoders));
      ChunksOfChunkEvents(t, ReplyChunks(t, cfg, http, decoders));
    }
  }

  /** The chunks of a worker's lane are those its adapter emitted. */
  lemma WorkerLaneChunks(t: Target, name: string, run: AdapterRun)
    ensures Chunks(WorkerLane(t, name, run), TargetId(t)) == Chunks(run.emitted, TargetId(t))
  {
    var tid := TargetId(t);
    var tail := (if Reported(run.err) then [ErrorEvent(t, Providers.ErrorText(name, run.err.value))] else []) + [EndEvent(t)];
    assert WorkerLane(t, name, run) == [StartEvent(t)] + (run.emitted + tail);
    ChunksAppend([StartEvent(t)], run.emitted + tail, tid);
    ChunksAppend(run.emitted, tail, tid);
    assert Chunks(tail, tid) == [];
  }

  // ---------------------------------------------------------------------------
  // The merged stream.

  /** The lanes one after the other. */
  function Flatten(lanes: seq<seq<StreamEvent>>): seq<StreamEvent> {
    if lanes == [] then [] else lanes[0] + Flatten(lanes[1..])
  }

  /**
   * The order in which the events of the lanes come out of the channel: each entry of
   * `schedule` names the lane whose next event goes next, and an entry naming a lane with
   * nothing left does nothing. Once the schedule is used up the rest of the lanes follow
   * one after the other, so every schedule gives a complete interleaving.
   */
  function Interleave(lanes: seq<seq<StreamEvent>>, schedule: seq<nat>): seq<StreamEvent>
    decreases |schedule|
  {
    if schedule == [] then Flatten(lanes)
    else
      var j := schedule[0];
      if j < |lanes| && lanes[j] != [] then [lanes[j][0]] + Interleave(lanes[j := lanes[j][1..]], schedule[1..])
      else Interleave(lanes, schedule[1..])
  }

  /** The events carrying target id `tid`, in order. */
  function Only(evs: seq<StreamEvent>, tid: string): seq<StreamEvent> {
    if evs == [] then []
    else (if evs[0].targetId == tid then [evs[0]] else []) + Only(evs[1..], tid)
  }

  lemma {:induction false} OnlyAppend(a: seq<StreamEvent>, b: seq<StreamEvent>, tid: string)
    ensures Only(a + b, tid) == Only(a, tid) + Only(b, tid)
    decreases |a|
  {
    if a == [] {
      assert a + b == b;
    } else {
      var head := if a[0].targetId == tid then [a[0]] else [];
      assert (a + b)[0] == a[0] && (a + b)[1..] == a[1..] + b;
      assert Only(a + b, tid) == head + Only(a[1..] + b, tid);
      OnlyAppend(a[1..], b, tid);
      assert Only(a, tid) == head + Only(a[1..], tid);
    }
  }

  lemma {:induction false} OnlyTagged(evs: seq<StreamEvent>, tid: string)
    requires Tagged(evs, tid)
    ensures Only(evs, tid) == evs
    decreases |evs|
  {
    if evs != [] {
      OnlyTagged(evs[1..], tid);
    }
  }

  lemma {:induction false} OnlyUntouched(evs: seq<StreamEvent>, tid: string)
    requires Untouched(evs, tid)
    ensures Only(evs, tid) == []
    decreases |evs|
  {
    if evs != [] {
      OnlyUntouched(evs[1..], tid);
    }
  }

  /** Filtering by target id keeps a target's chunks. */
  lemma {:induction false} ChunksOnly(evs: seq<StreamEvent>, tid: string)
    ensures Chunks(Only(evs, tid), tid) == Chunks(evs, tid)
    decreases |evs|
  {
    if evs != [] {
      var head := if evs[0].targetId == tid then [evs[0]] else [];
      ChunksAppend(head, Only(evs[1..], tid), tid);
      ChunksOnly(evs[1..], tid);
    }
  }

  lemma {:induction false} OnlyFlatten(lanes: seq<seq<StreamEvent>>, i: nat, tid: string)
    requires i < |lanes| && Tagged(lanes[i], tid)
    requires forall j | 0 <= j < |lanes| && j != i :: Untouched(lanes[j], tid)
    ensures Only(Flatten(lanes), tid) == lanes[i]
    decreases |lanes|
  {
    OnlyAppend(lanes[0], Flatten(lanes[1..]), tid);
    if i == 0 {
      OnlyTagged(lanes[0], tid);
      FlattenUntouched(lanes[1..], tid);
    } else {
      OnlyUntouched(lanes[0], tid);
      OnlyFlatten(lanes[1..], i - 1, tid);
    }
  }

  lemma {:induction false} FlattenUntouched(lanes: seq<seq<StreamEvent>>, tid: string)
    requires forall j | 0 <= j < |lanes| :: Untouched(lanes[j], tid)
    ensures Only(Flatten(lanes), tid) == []
    decreases |lanes|
  {
    if lanes != [] {
      OnlyAppend(lanes[0], Flatten(lanes[1..]), tid);
      OnlyUntouched(lanes[0], tid);
      FlattenUntouched(lanes[1..], tid);
    }
  }

  /**
   * When only lane `i` carries target id `tid`, the merged stream holds that lane's events
   * for `tid` in the order the worker sent them, none lost and none added, whatever the
   * schedule.
   */
  lemma {:induction false} InterleaveKeepsLane(lanes: seq<seq<StreamEvent>>, schedule: seq<nat>, i: nat, tid: string)
    requires i < |lanes| && Tagged(lanes[i], tid)
    requires forall j | 0 <= j < |lanes| && j != i :: Untouched(lanes[j], tid)
    ensures Only(Interleave(lanes, schedule), tid) == lanes[i]
    decreases |schedule|
  {
    if schedule == [] {
      OnlyFlatten(lanes, i, tid);
    } else {
      var j := schedule[0];
      if j < |lanes| && lanes[j] != [] {
        var rest := lanes[j := lanes[j][1..]];
        assert rest[i] == if j == i then lanes[i][1..] else lanes[i];
        InterleaveKeepsLane(rest, schedule[1..], i, tid);
        OnlyAppend([lanes[j][0]], Interleave(rest, schedule[1..]), tid);
        if j == i {
          assert [lanes[i][0]] + lanes[i][1..] == lanes[i];
        }
      } else {
        InterleaveKeepsLane(lanes, schedule[1..], i, tid);
      }
    }
  }

  /** Taking one lane out of the lanes takes exactly its events out of their concatenation. */
  lemma {:induction false} FlattenRemove(lanes: seq<seq<StreamEvent>>, j: nat)
    requires j < |lanes|
    ensures multiset(Flatten(lanes)) == multiset(Flatten(lanes[j := []])) + multiset(lanes[j])
    decreases |lanes|
  {
    var removed := lanes[j := []];
    assert Flatten(removed) == removed[0] + Flatten(removed[1..]);
    assert Flatten(lanes) == lanes[0] + Flatten(lanes[1..]);
    if j == 0 {
      assert removed[1..] == lanes[1..];
    } else {
      var rest := lanes[1..][j - 1 := []];
      assert removed[0] == lanes[0] && removed[1..] == rest;
      assert lanes[1..][j - 1] == lanes[j];
      FlattenRemove(lanes[1..], j - 1);
      var head := multiset(lanes[0]);
      calc {
        multiset(Flatten(lanes));
        head + multiset(Flatten(lanes[1..]));
        head + (multiset(Flatten(rest)) + multiset(lanes[j]));
        (head + multiset(Flatten(rest))) + multiset(lanes[j]);
        multiset(Flatten(removed)) + multiset(lanes[j]);
      }
    }
  }

  /** Taking the first event of one lane takes exactly that event out of the concatenation. */
  lemma FlattenTakeFirst(lanes: seq<seq<StreamEvent>>, j: nat)
    requires j < |lanes| && lanes[j] != []
    ensures multiset([lanes[j][0]]) + multiset(Flatten(lanes[j := lanes[j][1..]])) == multiset(Flatten(lanes))
  {
    var lane := lanes[j];
    var rest := lanes[j := lane[1..]];
    FlattenRemove(lanes, j);
    FlattenRemove(rest, j);
    assert rest[j := []] == lanes[j := []];
    var others := multiset(Flatten(lanes[j := []]));
    assert lane == [lane[0]] + lane[1..];
    calc {
      multiset([lane[0]]) + multiset(Flatten(rest));
      multiset([lane[0]]) + (others + multiset(lane[1..]));
      others + (multiset([lane[0]]) + multiset(lane[1..]));
      others + multiset(lane);
      multiset(Flatten(lanes));
    }
  }

  /** The merged stream is a permutation of all the lanes' events: nothing lost, nothing repeated. */
  lemma {:induction false} InterleavePermutes(lanes: seq<seq<StreamEvent>>, schedule: seq<nat>)
    ensures multiset(Interleave(lanes, schedule)) == multiset(Flatten(lanes))
    decreases |schedule|
  {
    if schedule != [] {
      var j := schedule[0];
      if j < |lanes| && lanes[j] != [] {
        var rest := lanes[j := lanes[j][1..]];
        assert Interleave(lanes, schedule) == [lanes[j][0]] + Interleave(rest, schedule[1..]);
        InterleavePermutes(rest, schedule[1..]);
        FlattenTakeFirst(lanes, j);
      } else {
        InterleavePermutes(lanes, schedule[1..]);
      }
    }
  }

  // ---------------------------------------------------------------------------
  // The replies gathered from the stream.

  /** The zero `state.Message`, what indexing a Go map with a missing key yields. */
  const NoMessage: Message := Message("", "", "", "", "", "", "", "", 0)

  /** What one event does to the reply buffers: a chunk is added to its target's reply. */
  function Absorb(outputs: map<string, Message>, ev: StreamEvent): map<string, Message> {
    if ev.event != Chunk then outputs
    else
      var out := if ev.targetId in outputs then outputs[ev.targetId] else NoMessage;
      outputs[ev.targetId := out.(targetId := ev.targetId, provider := ev.provider, model := ev.model,
                                  inclusion := ModelOnly, scopeId := ev.targetId, content := out.content + ev.content)]
  }

  /** The reply buffers after the handler has read `evs`. */
  function FanIn(evs: seq<StreamEvent>): map<string, Message> {
    if evs == [] then map[] else Absorb(FanIn(evs[..|evs| - 1]), evs[|evs| - 1])
  }

  /**
   * There is a reply for a target exactly when the stream carried a chunk for it, and the
   * reply is that target's chunks joined in stream order, scoped to the target alone.
   */
  lemma {:induction false} FanInReplies(evs: seq<StreamEvent>, tid: string)
    ensures tid in FanIn(evs) <==> Chunks(evs, tid) != []
    ensures tid in FanIn(evs) ==>
      var out := FanIn(evs)[tid];
      && out.content == Joined(Chunks(evs, tid))
      && out.targetId == tid && out.scopeId == tid && out.inclusion == ModelOnly
      && out.id == "" && out.role == "" && out.createdAt == 0
  {
    if evs != [] {
      var init, ev := evs[..|evs| - 1], evs[|evs| - 1];
      assert evs == init + [ev];
      ChunksAppend(init, [ev], tid);
      FanInReplies(init, tid);
      if ev.event == Chunk && ev.targetId == tid {
        assert Chunks([ev], tid) == [ev.content];
        JoinedSnoc(Chunks(init, tid), ev.content);
      } else {
        assert Chunks([ev], tid) == [];
        assert Chunks(evs, tid) == Chunks(init, tid);
      }
    }
  }

  /** A reply names the provider and model its chunks came from. */
  lemma {:induction false} FanInSource(evs: seq<StreamEvent>, t: Target)
    requires forall k | 0 <= k < |evs| && evs[k].targetId == TargetId(t) :: evs[k].provider == t.provider && evs[k].model == t.model
    ensures TargetId(t) in FanIn(evs) ==> FanIn(evs)[TargetId(t)].provider == t.provider && FanIn(evs)[TargetId(t)].model == t.model
  {
    if evs != [] {
      FanInSource(evs[..|evs| - 1], t);
    }
  }

  /**
   * With distinct target ids, each target's reply is exactly the text its adapter read,
   * whatever the interleaving, and there is a reply for it exactly when that text has
   * at least one chunk.
   */
  lemma ReplyOfTarget(targets: seq<Target>, prompt: string, cfg: ProviderConfig, messages: seq<Message>,
                      exchange: nat -> HttpOutcome, decoders: Decoders, schedule: seq<nat>, k: nat)
    requires DistinctIds(targets) && k < |targets|
    ensures var evs := Interleave(Lanes(targets, prompt, cfg, messages, exchange, decoders), schedule);
      var tid := TargetId(targets[k]);
      var cs := ReplyChunks(targets[k], cfg, exchange(k), decoders);
      && (tid in FanIn(evs) <==> cs != [])
      && (tid in FanIn(evs) ==> FanIn(evs)[tid].content == Joined(cs))
  {
    var lanes := Lanes(targets, prompt, cfg, messages, exchange, decoders);
    var evs := Interleave(lanes, schedule);
    var tid := TargetId(targets[k]);
    forall j | 0 <= j < |lanes|
      ensures Tagged(lanes[j], TargetId(targets[j]))
    {
      LaneTagged(targets[j], prompt, cfg, TargetHistory(messages, TargetId(targets[j])), exchange(j), decoders);
    }
    forall j | 0 <= j < |lanes| && j != k
      ensures Untouched(lanes[j], tid)
    {
      assert TargetId(targets[j]) != tid;
    }
    InterleaveKeepsLane(lanes, schedule, k, tid);
    ChunksOnly(evs, tid);
    LaneChunks(targets[k], prompt, cfg, TargetHistory(messages, tid), exchange(k), decoders);
    FanInReplies(evs, tid);
  }

  /** No two targets of a request share an id. */
  predicate DistinctIds(targets: seq<Target>) {
    forall a, b | 0 <= a < b < |targets| :: TargetId(targets[a]) != TargetId(targets[b])
  }

  /** The lanes of all targets; each worker's history is built from the chat as it was before the prompt. */
  function Lanes(targets: seq<Target>, prompt: string, cfg: ProviderConfig, messages: seq<Message>,
                 exchange: nat -> HttpOutcome, decoders: Decoders): (lanes: seq<seq<StreamEvent>>)
    ensures |lanes| == |targets|
  {
    seq(|targets|, k requires 0 <= k < |targets| =>
      Lane(targets[k], prompt, cfg, TargetHistory(messages, TargetId(targets[k])), exchange(k), decoders))
  }

  // ---------------------------------------------------------------------------
  // Checking the request and filling in the targets.

  /** The body of a `/api/chat/stream` request. */
  datatype ChatRequest = ChatRequest(chatId: string, prompt: string, targets: seq<Target>, config: ProviderConfig)

  /** What the handler writes: a JSON error with its status, or an event stream, ended by `done` or cut short. */
  datatype Response =
    | JsonError(status: int, message: string)
    | EventStream(frames: seq<StreamEvent>, done: bool)

  const BadRequest: int := 400
  const NotFound: int := 404

  /** The zero `state.Folder`, which `FindFolder` yields for a missing folder. */
  const NoFolder: Folder := Folder("", "", "", None, 0, 0)

  function FolderOf(folders: seq<Folder>, id: string): (f: Folder)
    ensures FolderExists(folders, id) ==> f.id == id
  {
    if FolderExists(folders, id) then folders[FolderIndex(folders, id)] else NoFolder
  }

  /** A target names a provider and a model, once trimmed. */
  predicate Named(t: Target) {
    !IsBlank(t.provider) && !IsBlank(t.model)
  }

  /** A target's system prompt once prepared: the folder's, trimmed, when its own is blank. */
  function PreparedPrompt(own: string, folderPrompt: string): string {
    if TrimSpace(own) == "" then TrimSpace(folderPrompt) else own
  }

  /** A target's temperature once prepared: the folder's when it has none. */
  function PreparedTemperature(own: Option<Temperature>, folderTemperature: Option<Temperature>): Option<Temperature> {
    if own.None? && folderTemperature.Some? then folderTemperature else own
  }

  /**
   * A target as the workers get it: provider lower-cased and trimmed, model trimmed, and
   * the folder's system prompt and temperature where the target has none of its own.
   */
  function PreparedTarget(t: Target, folder: Folder): Target {
    t.(provider := ToLower(TrimSpace(t.provider)), model := TrimSpace(t.model),
       systemPrompt := PreparedPrompt(t.systemPrompt, folder.systemPrompt),
       temperature := PreparedTemperature(t.temperature, folder.temperature))
  }

  /** The target's own system prompt wins unless it is blank; the folder's fills the gap. */
  lemma PreparedPromptDefault(own: string, folderPrompt: string)
    ensures PreparedPrompt(own, folderPrompt) == if IsBlank(own) then TrimSpace(folderPrompt) else own
  {
    TrimSpaceEmptyIffBlank(own);
  }

  /** Filling the system prompt in twice changes nothing. */
  lemma PreparedPromptIdempotent(own: string, folderPrompt: string)
    ensures PreparedPrompt(PreparedPrompt(own, folderPrompt), folderPrompt) == PreparedPrompt(own, folderPrompt)
  {
    if TrimSpace(own) == "" {
      TrimSpaceIdempotent(folderPrompt);
    }
  }

  /** The target's own temperature wins; the folder's fills the gap. */
  lemma PreparedTemperatureDefault(own: Option<Temperature>, folderTemperature: Option<Temperature>)
    ensures PreparedTemperature(own, folderTemperature) == if own.Some? then own else folderTemperature
  {
  }

  /** Preparing a prepared target again changes nothing. */
  lemma PreparedTargetIdempotent(t: Target, folder: Folder)
    ensures PreparedTarget(PreparedTarget(t, folder), folder) == PreparedTarget(t, folder)
  {
    LowerTrimIdempotent(t.provider);
    TrimSpaceIdempotent(t.model);
    PreparedPromptIdempotent(t.systemPrompt, folder.systemPrompt);
  }

  /** A named target's id is non-empty and has no white space at either end. */
  lemma PreparedTargetIdTrimmed(t: Target, folder: Folder)
    requires Named(t)
    ensures var tid := TargetId(PreparedTarget(t, folder));
      tid != [] && !IsSpace(tid[0]) && !IsSpace(tid[|tid| - 1])
  {
    TrimmedId(t.provider, t.model);
    assert TargetId(PreparedTarget(t, folder)) == ToLower(TrimSpace(t.provider)) + ":" + TrimSpace(t.model);
  }

  lemma TrimmedId(provider: string, model: string)
    requires !IsBlank(provider) && !IsBlank(model)
    ensures var tid := ToLower(TrimSpace(provider)) + ":" + TrimSpace(model);
      tid != [] && !IsSpace(tid[0]) && !IsSpace(tid[|tid| - 1])
  {
    var p := TrimSpace(provider);
    var m := TrimSpace(model);
    TrimSpaceEmptyIffBlank(provider);
    TrimSpaceEmptyIffBlank(model);
    LowerCharSpace(p[0]);
    var tid := ToLower(p) + ":" + m;
    assert tid[0] == ToLower(p)[0] == LowerChar(p[0]);
    assert tid[|tid| - 1] == m[|m| - 1];
  }

  /** The body of the loop over `req.Targets`, for one target. */
  method PrepareTarget(t: Target, folder: Folder) returns (named: bool, prepared: Target)
    ensures named <==> Named(t)
    ensures named ==> prepared == PreparedTarget(t, folder)
  {
    prepared := t.(provider := ToLower(TrimSpace(t.provider)), model := TrimSpace(t.model));
    LoweredBlank(t.provider);
    TrimSpaceEmptyIffBlank(t.model);
    named := !(prepared.provider == "" || prepared.model == "");
    if TrimSpace(prepared.systemPrompt) == "" {
      prepared := prepared.(systemPrompt := TrimSpace(folder.systemPrompt));
    }
    if prepared.temperature.None? && folder.temperature.Some? {
      prepared := prepared.(temperature := folder.temperature);
    }
  }

  /**
   * The loop over `req.Targets`: each target is prepared in place; the first one without a
   * provider or a model ends the request.
   */
  method PrepareTargets(targets: seq<Target>, folder: Folder) returns (prepared: Option<seq<Target>>)
    ensures prepared.None? <==> exists k | 0 <= k < |targets| :: !Named(targets[k])
    ensures prepared.Some? ==> prepared.value == Prepared(targets, folder)
  {
    ghost var preparedIndex := PreparedIndex(targets, folder);
    var ts := targets;
    for i := 0 to |ts|
      invariant forall k | 0 <= k < i :: Named(targets[k])
      invariant ts == Tabulate(preparedIndex, i) + targets[i..]
    {
      // ts[i] still holds targets[i]: only earlier slots have been written
      var named, t := PrepareTarget(targets[i], folder);
      if !named {
        return None;
      }
      WriteAt(Tabulate(preparedIndex, i), t, targets[i..]);
      assert targets[i..][1..] == targets[i + 1..];
      ts := ts[i := t];
    }
    return Some(ts);
  }

  /** Writing the slot just after a prefix moves the prefix's end past it. */
  lemma WriteAt<T>(done: seq<T>, x: T, rest: seq<T>)
    requires rest != []
    ensures (done + rest)[|done| := x] == (done + [x]) + rest[1..]
  {
  }

  /**
   * The error answer the handler gives before streaming, if any, in the order it checks:
   * chat id, prompt, targets, the chat itself, then each target's provider and model.
   */
  function Rejection(req: ChatRequest, chats: seq<Chat>): Option<Response> {
    if IsBlank(req.chatId) then Some(JsonError(BadRequest, "chatId is required"))
    else if IsBlank(req.prompt) then Some(JsonError(BadRequest, "prompt is required"))
    else if |req.targets| == 0 then Some(JsonError(BadRequest, "at least one target is required"))
    else if ChatIndex(chats, TrimSpace(req.chatId)) == |chats| then Some(JsonError(NotFound, "chat not found"))
    else if exists k | 0 <= k < |req.targets| :: !Named(req.targets[k]) then
      Some(JsonError(BadRequest, "each target needs provider and model"))
    else None
  }

  // ---------------------------------------------------------------------------
  // The workers and the reading loop.

  /** `a.Stream(ctx, req, emit)` for the adapter of a registered provider. */
  method CallAdapter(req: StreamRequest, http: HttpOutcome, decoders: Decoders)
    returns (name: string, emitted: seq<StreamEvent>, err: Option<AdapterError>)
    requires Registered(req.target.provider)
    ensures name == req.target.provider
    ensures AdapterRun(emitted, err) == Run(req, http, decoders)
  {
    if req.target.provider == OpenRouter.Name {
      var sent;
      name := OpenRouter.Name;
      sent, emitted, err := OpenRouter.Stream(req, http, decoders.openRouter, None);
    } else {
      var sent;
      name := Ollama.Name;
      sent, emitted, err := Ollama.Stream(req, http, decoders.ollama, None);
    }
  }

  /** One worker goroutine (or, for an unknown provider, the error sent in its place). */
  method Work(t: Target, prompt: string, cfg: ProviderConfig, messages: seq<Message>, http: HttpOutcome, decoders: Decoders)
    returns (lane: seq<StreamEvent>)
    ensures lane == Lane(t, prompt, cfg, TargetHistory(messages, TargetId(t)), http, decoders)
  {
    if t.provider != OpenRouter.Name && t.provider != Ollama.Name {
      lane := [ErrorEvent(t, UnsupportedProvider)];
    } else {
      var targetId := t.provider + ":" + t.model;
      var history := BuildTargetHistory(messages, targetId);
      var name, emitted, err := CallAdapter(StreamRequest(prompt, t, cfg, history), http, decoders);
      lane := [StartEvent(t)] + emitted;
      if err.Some? && !err.value.EmitRejected? {
        lane := lane + [ErrorEvent(t, Providers.ErrorText(name, err.value))];
      }
      lane := lane + [EndEvent(t)];
    }
  }

  /** Starting the workers, one per target in order. */
  method RunWorkers(targets: seq<Target>, prompt: string, cfg: ProviderConfig, messages: seq<Message>,
                    exchange: nat -> HttpOutcome, decoders: Decoders)
    returns (lanes: seq<seq<StreamEvent>>)
    ensures lanes == Lanes(targets, prompt, cfg, messages, exchange, decoders)
  {
    lanes := [];
    for k := 0 to |targets|
      invariant |lanes| == k
      invariant forall j | 0 <= j < k ::
        lanes[j] == Lane(targets[j], prompt, cfg, TargetHistory(messages, TargetId(targets[j])), exchange(j), decoders)
    {
      var lane := Work(targets[k], prompt, cfg, messages, exchange(k), decoders);
      lanes := lanes + [lane];
    }
  }

  /**
   * `for ev := range events`: every chunk goes into its target's reply, then the event is
   * written to the client; a failed write (at `encodeFailsAt`) ends the handler at once.
   */
  method Drain(evs: seq<StreamEvent>, encodeFailsAt: Option<nat>)
    returns (frames: seq<StreamEvent>, outputs: map<string, Message>, complete: bool)
    ensures complete <==> encodeFailsAt.None? || encodeFailsAt.value >= |evs|
    ensures complete ==> frames == evs && outputs == FanIn(evs)
    ensures !complete ==>
      frames == evs[..encodeFailsAt.value] && outputs == FanIn(evs[..encodeFailsAt.value + 1])
  {
    frames, outputs := [], map[];
    var k := 0;
    while k < |evs|
      invariant k <= |evs|
      invariant frames == evs[..k] && outputs == FanIn(evs[..k])
      invariant encodeFailsAt.None? || encodeFailsAt.value >= k
    {
      var ev := evs[k];
      FanInStep(evs, k);
      ghost var before := outputs;
      if ev.event == Chunk {
        var out := if ev.targetId in outputs then outputs[ev.targetId] else NoMessage;
        out := out.(targetId := ev.targetId, provider := ev.provider, model := ev.model);
        out := out.(inclusion := ModelOnly, scopeId := ev.targetId, content := out.content + ev.content);
        outputs := outputs[ev.targetId := out];
      }
      assert outputs == Absorb(before, ev) == FanIn(evs[..k + 1]);
      if encodeFailsAt == Some(k) {
        return frames, outputs, false;
      }
      assert evs[..k + 1] == evs[..k] + [ev];
      frames := frames + [ev];
      k := k + 1;
    }
    assert evs[..k] == evs;
    complete := true;
  }

  lemma FanInStep(evs: seq<StreamEvent>, k: nat)
    requires k < |evs|
    ensures FanIn(evs[..k + 1]) == Absorb(FanIn(evs[..k]), evs[k])
  {
    assert evs[..k + 1][..k] == evs[..k];
  }

  /** An order of the keys of a map: each exactly once. */
  ghost predicate KeyOrder(order: seq<string>, outputs: map<string, Message>) {
    && (forall a, b | 0 <= a < b < |order| :: order[a] != order[b])
    && (forall key :: key in outputs <==> key in order)
  }

  function InOrder(outputs: map<string, Message>, order: seq<string>): (msgs: seq<Message>)
    requires forall k | 0 <= k < |order| :: order[k] in outputs
    ensures |msgs| == |order|
  {
    seq(|order|, k requires 0 <= k < |order| => outputs[order[k]])
  }

  /**
   * `for _, out := range outputs`: the replies in Go's unspecified map order, one for
   * each target that has a reply, and nothing else.
   */
  method Collect(outputs: map<string, Message>) returns (msgs: seq<Message>, ghost order: seq<string>)
    ensures |msgs| == |outputs|
    ensures forall key | key in outputs :: outputs[key] in msgs
    ensures forall k | 0 <= k < |msgs| :: msgs[k] in outputs.Values
    ensures KeyOrder(order, outputs) && msgs == InOrder(outputs, order)
  {
    msgs, order := [], [];
    var keys := outputs.Keys;
    while keys != {}
      invariant keys <= outputs.Keys
      invariant |order| + |keys| == |outputs|
      invariant forall key | key in outputs :: key in keys || key in order
      invariant forall key | key in outputs && key !in keys :: outputs[key] in msgs
      invariant forall k | 0 <= k < |order| :: order[k] in outputs && order[k] !in keys
      invariant forall a, b | 0 <= a < b < |order| :: order[a] != order[b]
      invariant msgs == InOrder(outputs, order)
      decreases |keys|
    {
      var key :| key in keys;
      msgs := msgs + [outputs[key]];
      order := order + [key];
      keys := keys - {key};
    }
  }

  // ---------------------------------------------------------------------------
  // The handler.

  /**
   * What the handler's surroundings decide: the HTTP exchange of the k-th target's adapter,
   * the JSON decoders, the order in which the workers' events reach the channel, the event
   * (if any) whose write to the client fails, the new ids, the clock and the outcomes of
   * the two writes of the state file.
   */
  datatype Environment = Environment(
    exchange: nat -> HttpOutcome, decoders: Decoders, schedule: seq<nat>, encodeFailsAt: Option<nat>,
    promptId: string, replyId: nat -> string, now: int, promptWrite: WriteResult, replyWrite: WriteResult)

  /** The targets of a request once prepared with the chat's folder. */
  function Prepared(targets: seq<Target>, folder: Folder): (r: seq<Target>)
    ensures |r| == |targets|
  {
    Tabulate(PreparedIndex(targets, folder), |targets|)
  }

  /** The target at index `k`, prepared. */
  function PreparedIndex(targets: seq<Target>, folder: Folder): nat -> Target {
    (k: nat) => if k < |targets| then PreparedTarget(targets[k], folder) else Target("", "", "", None)
  }

  /** Each target is prepared on its own. */
  lemma PreparedAt(targets: seq<Target>, folder: Folder, k: nat)
    requires k < |targets|
    ensures Prepared(targets, folder)[k] == PreparedTarget(targets[k], folder)
  {
    TabulateAt(PreparedIndex(targets, folder), |targets|, k);
  }

  /** The merged stream of the workers of the given targets. */
  function Streamed(targets: seq<Target>, prompt: string, cfg: ProviderConfig, messages: seq<Message>, env: Environment): seq<StreamEvent> {
    Interleave(Lanes(targets, prompt, cfg, messages, env.exchange, env.decoders), env.schedule)
  }

  /** The merged stream of a request that passed the checks, for the chat as it was before the prompt. */
  function Events(req: ChatRequest, chat: Chat, folders: seq<Folder>, config: ProviderConfig, env: Environment): seq<StreamEvent> {
    Streamed(Prepared(req.targets, FolderOf(folders, chat.folderId)), TrimSpace(req.prompt), MergeConfig(config, req.config), chat.messages, env)
  }

  /** Whether writing the stream to the client fails before its end. */
  predicate CutShort(evs: seq<StreamEvent>, env: Environment) {
    env.encodeFailsAt.Some? && env.encodeFailsAt.value < |evs|
  }

  function ReplyIds(n: nat, replyId: nat -> string): (ids: seq<string>)
    ensures |ids| == n
  {
    seq(n, k requires 0 <= k < n => replyId(k))
  }

  /** The chat once the replies, in the order given, are stored. */
  function Replied(c: Chat, msgs: seq<Message>, env: Environment): Chat {
    c.(messages := c.messages + AssistantEntries(msgs, ReplyIds(|msgs|, env.replyId), env.now), updatedAt := env.now)
  }

  /**
   * The checks before streaming, with the lookups they need: the chat, its folder (the
   * zero folder when it is missing) and the prepared targets.
   */
  method Admit(store: Store, req: ChatRequest)
    returns (rejection: Option<Response>, chat: Chat, folder: Folder, targets: seq<Target>)
    ensures rejection == Rejection(req, store.chats)
    ensures rejection.None? ==>
      && ChatIndex(store.chats, TrimSpace(req.chatId)) < |store.chats|
      && chat == store.chats[ChatIndex(store.chats, TrimSpace(req.chatId))]
      && folder == FolderOf(store.folders, chat.folderId)
      && targets == Prepared(req.targets, folder)
  {
    chat, folder, targets := Chat("", "", "", [], 0, 0), NoFolder, [];
    var chatId := TrimSpace(req.chatId);
    var prompt := TrimSpace(req.prompt);
    TrimSpaceEmptyIffBlank(req.chatId);
    TrimSpaceEmptyIffBlank(req.prompt);
    if chatId == "" {
      rejection := Some(JsonError(BadRequest, "chatId is required"));
    } else if prompt == "" {
      rejection := Some(JsonError(BadRequest, "prompt is required"));
    } else if |req.targets| == 0 {
      rejection := Some(JsonError(BadRequest, "at least one target is required"));
    } else {
      var found := store.GetChat(chatId);
      if found.None? {
        rejection := Some(JsonError(NotFound, "chat not found"));
      } else {
        chat := found.value;
        var f := store.FindFolder(chat.folderId);
        folder := if f.Some? then f.value else NoFolder;
        var prepared := PrepareTargets(req.targets, folder);
        if prepared.None? {
          rejection := Some(JsonError(BadRequest, "each target needs provider and model"));
        } else {
          targets := prepared.value;
          rejection := None;
        }
      }
    }
  }

  /**
   * Everything after the prompt is stored: the workers run, their events are read and
   * written to the client, and once the channel is closed the replies are stored (a failed
   * write of the state file is only logged) and `done` is sent.
   */
  method StreamReplies(store: Store, chatId: string, prompt: string, messages: seq<Message>,
                       targets: seq<Target>, cfg: ProviderConfig, env: Environment)
    returns (resp: Response, ghost order: seq<string>)
    modifies store
    ensures store.config == old(store.config)
    ensures var evs := Streamed(targets, prompt, cfg, messages, env);
      if CutShort(evs, env) then
        && resp == EventStream(evs[..env.encodeFailsAt.value], false)
        && store.chats == old(store.chats) && store.folders == old(store.folders)
      else
        var i := ChatIndex(old(store.chats), chatId);
        && resp == EventStream(evs, true)
        && KeyOrder(order, FanIn(evs))
        && (i == |old(store.chats)| ==> store.chats == old(store.chats) && store.folders == old(store.folders))
        && (i < |old(store.chats)| ==>
          && store.chats == old(store.chats)[i := Replied(old(store.chats)[i], InOrder(FanIn(evs), order), env)]
          && store.folders == Touched(old(store.folders), old(store.chats)[i].folderId, env.now))
  {
    order := [];
    var lanes := RunWorkers(targets, prompt, cfg, messages, env.exchange, env.decoders);
    var evs := Interleave(lanes, env.schedule);
    var frames, outputs, complete := Drain(evs, env.encodeFailsAt);
    if !complete {
      resp := EventStream(frames, false);
    } else {
      var msgs;
      msgs, order := Collect(outputs);
      var persisted := store.AppendAssistantMessages(chatId, msgs, ReplyIds(|msgs|, env.replyId), env.now, env.replyWrite);
      resp := EventStream(frames, true);
    }
  }

  /**
   * What follows the checks: the prompt is stored (an error storing it is answered with
   * 400 and its text), then the replies are streamed and stored.
   */
  method Proceed(store: Store, chatId: string, prompt: string, chat: Chat, targets: seq<Target>,
                 cfg: ProviderConfig, env: Environment)
    returns (resp: Response, ghost order: seq<string>)
    requires ChatIndex(store.chats, chatId) < |store.chats| && chat == store.chats[ChatIndex(store.chats, chatId)]
    modifies store
    ensures store.config == old(store.config)
    ensures
      var i := ChatIndex(old(store.chats), chatId);
      var asked := PromptAppended(chat, prompt, env.promptId, env.now);
      var stamped := Touched(old(store.folders), chat.folderId, env.now);
      var evs := Streamed(targets, prompt, cfg, chat.messages, env);
      var appended := if !FolderExists(old(store.folders), chat.folderId) then Fail(FolderNotFound) else Persisted(env.promptWrite);
      if appended.Fail? then
        && resp == JsonError(BadRequest, State.ErrorText(appended.error))
        && store.chats == old(store.chats)[i := asked] && store.folders == stamped
      else if CutShort(evs, env) then
        && resp == EventStream(evs[..env.encodeFailsAt.value], false)
        && store.chats == old(store.chats)[i := asked] && store.folders == stamped
      else
        && resp == EventStream(evs, true)
        && KeyOrder(order, FanIn(evs))
        && store.chats == old(store.chats)[i := Replied(asked, InOrder(FanIn(evs), order), env)]
        && store.folders == Touched(stamped, chat.folderId, env.now)
  {
    order := [];
    ghost var before := store.chats;
    ghost var i := ChatIndex(before, chatId);
    ghost var asked := PromptAppended(chat, prompt, env.promptId, env.now);
    ghost var stamped := Touched(store.folders, chat.folderId, env.now);
    var appended := store.AppendUserPrompt(chatId, prompt, env.promptId, env.now, env.promptWrite);
    assert store.chats == before[i := asked] && store.folders == stamped;
    if appended.Fail? {
      resp := JsonError(BadRequest, State.ErrorText(appended.error));
    } else {
      ChatIndexUpdate(before, i, asked, chatId);
      assert ChatIndex(store.chats, chatId) == i && store.chats[i] == asked;
      resp, order := StreamReplies(store, chatId, prompt, chat.messages, targets, cfg, env);
      ghost var evs := Streamed(targets, prompt, cfg, chat.messages, env);
      if !CutShort(evs, env) {
        ghost var replied := Replied(asked, InOrder(FanIn(evs), order), env);
        assert store.chats == before[i := asked][i := replied];
        assert before[i := asked][i := replied] == before[i := replied];
        assert store.folders == Touched(stamped, asked.folderId, env.now);
      }
    }
  }

  /**
   * The `/api/chat/stream` handler for a decoded request: the checks and their error
   * answers, then the prompt, the stream and the replies. `order` is the order Go's map
   * iteration gave the replies.
   */
  method HandleChatStream(store: Store, req: ChatRequest, env: Environment) returns (resp: Response, ghost order: seq<string>)
    modifies store
    ensures store.config == old(store.config)
    ensures Rejection(req, old(store.chats)).Some? ==>
      resp == Rejection(req, old(store.chats)).value && store.chats == old(store.chats) && store.folders == old(store.folders)
    ensures Rejection(req, old(store.chats)).None? ==>
      var i := ChatIndex(old(store.chats), TrimSpace(req.chatId));
      var c := old(store.chats)[i];
      var asked := PromptAppended(c, TrimSpace(req.prompt), env.promptId, env.now);
      var stamped := Touched(old(store.folders), c.folderId, env.now);
      var evs := Events(req, c, old(store.folders), old(store.config), env);
      var appended := if !FolderExists(old(store.folders), c.folderId) then Fail(FolderNotFound) else Persisted(env.promptWrite);
      if appended.Fail? then
        && resp == JsonError(BadRequest, State.ErrorText(appended.error))
        && store.chats == old(store.chats)[i := asked] && store.folders == stamped
      else if CutShort(evs, env) then
        && resp == EventStream(evs[..env.encodeFailsAt.value], false)
        && store.chats == old(store.chats)[i := asked] && store.folders == stamped
      else
        && resp == EventStream(evs, true)
        && KeyOrder(order, FanIn(evs))
        && store.chats == old(store.chats)[i := Replied(asked, InOrder(FanIn(evs), order), env)]
        && store.folders == Touched(stamped, c.folderId, env.now)
  {
    order := [];
    var rejection, chat, folder, targets := Admit(store, req);
    if rejection.Some? {
      resp := rejection.value;
    } else {
      var cfg := MergeConfig(store.config, req.config);
      assert Events(req, chat, store.folders, store.config, env) == Streamed(targets, TrimSpace(req.prompt), cfg, chat.messages, env);
      resp, order := Proceed(store, TrimSpace(req.chatId), TrimSpace(req.prompt), chat, targets, cfg, env);
    }
  }

  /**
   * A reply stored from a run is replayed to the target that produced it and to no other:
   * it is tagged `model_only` and scoped to that target's id.
   */
  lemma ReplyReplayedOnlyToItsTarget(evs: seq<StreamEvent>, tid: string, id: string, now: int, other: string)
    requires tid in FanIn(evs) && tid != [] && !IsSpace(tid[0]) && !IsSpace(tid[|tid| - 1])
    ensures IncludedForTarget(PersistedOutput(FanIn(evs)[tid], id, now), other) <==> other == tid
  {
    FanInReplies(evs, tid);
    var out := FanIn(evs)[tid];
    assert !IsBlank(tid) by {
      assert !IsSpace(tid[0]);
    }
    PersistedScopedOutput(out, id, now);
    ModelOnlyReplayedToScope(PersistedOutput(out, id, now), other);
  }
}
