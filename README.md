# llm-workspace backend: a Dafny model of the chat fan-out core

llm-workspace is a local web app. It sends one prompt to several language models side
by side and keeps the conversation per chat. Its Go backend has these core parts:

- **Stream handler.** `/api/chat/stream` in `backend/main.go` does the following:
  - validates the request;
  - fills each target's system prompt and temperature from the chat's folder;
  - merges the stored provider configuration with the request's override;
  - stores the user's prompt;
  - starts one worker goroutine per target;
  - merges the workers' events into one server-sent-event stream, with each target's
    chunks accumulated into a reply;
  - stores the replies once every worker has finished, then writes `done`.

  Each worker replays a history filtered for its target (`messageIncludedForTarget`,
  `buildTargetHistory`).
- **Store.** `backend/internal/state/store.go` holds folders, chats and configuration
  in memory. It loads them from a JSON file, applying defaults and migrating inclusion
  tags, and persists them after each change.
- **Provider adapters.** The OpenRouter and Ollama adapters in
  `backend/internal/providers` build the chat request and read the streamed body line
  by line.
- **Context budget.** `backend/context_limits.go` reports, per target, the model's
  context window as the provider reports it, an estimate of the tokens the next request
  would use, and the share used.

One module per file:

| module | file | models |
|---|---|---|
| `Wrappers` | wrappers.dfy | `Option`, `Result`, `Outcome` (Go's `(value, error)` and `(value, ok)`), and `Tabulate`, the slice a loop fills by index |
| `Text` | text.dfy | the parts of Go's `strings` and `strconv` the core relies on: `TrimSpace` with `unicode.IsSpace`, `ToLower`, prefixes and suffixes, `Contains`, the UTF-8 byte length `len`, `Atoi` and `Itoa` |
| `Providers` | providers.dfy | the types of `types.go`, the parts both adapters share (base URL, wire messages, the `emit` budget, the line scan loop) |
| `OpenRouter` | openrouter.dfy | `OpenRouterAdapter.Stream` |
| `Ollama` | ollama.dfy | `OllamaAdapter.Stream` |
| `State` | state.dfy | `store.go`: the data, the loading defaults and migration, and the class `Store` with the mutating operations |
| `History` | history.dfy | `mergeConfig`, `messageIncludedForTarget`, `buildTargetHistory` |
| `Orchestrator` | orchestrator.dfy | the `/api/chat/stream` handler: validation, target preparation, workers, fan-in, persistence |
| `ContextLimits` | context_limits.dfy | `resolveContextLimits`, `estimateContextTokens`, the two lookups, `toInt` |

Things the model takes as parameters:

- **The outside world.**
  - Every HTTP exchange is given as its outcome: a transport error, or a status with a
    body read as lines.
  - JSON decoders are functions.
  - Clocks and generated ids are parameters, with one `now` per operation.
  - A state-file write is given as its result.
- **The Go scheduler.** It is a `schedule` that picks which worker's next event leaves
  the channel. Every schedule yields a complete interleaving of the workers' lanes.
  `InterleavePermutes` and `InterleaveKeepsLane` prove that the merged stream is a
  permutation of the lanes and keeps each lane's own order.
- **Go's map iteration order.** Where Go ranges over a map (the replies, Ollama's
  `model_info` and `details`), the order is either a sequence given as input or a ghost
  order that the contract quantifies over.

Some behaviours the contracts make visible:

- Both adapters ignore the history a worker builds. Only the prompt and the optional
  system prompt go on the wire (`OpenRouter.Stream`, `Ollama.Stream`). The filtered
  history affects only the token estimate of the context report.
- Replies are keyed by target id. With two targets that have the same id, their chunks
  are merged into one reply. `ReplyOfTarget` therefore assumes distinct ids.
- The load-time migration changes which targets see some legacy assistant replies, those
  stored with no tag:
  - A reply with no scope and no target is replayed to no target. After the migration it
    is `model_only` with an empty scope, and is replayed to every target
    (`MigrationWidensUntargetedReply`).
  - A reply with a scope is replayed to its own target only. After the migration it is
    `model_only`, and is replayed to its scope only (`MigrationRedirectsScopedReply`).

  Every other message, including an untagged reply that has a target and no scope, keeps
  its decision (`MigrationKeepsDecision`).
- The store's operations can fail after changing the in-memory state. For example,
  `UpdateChat` and `AppendUserPrompt` touch the folder before reporting a missing
  folder, and the persist error comes last. The contracts state the new state in each
  of these cases.

## Model

| member | source | states |
|---|---|---|
| Text.TrimSpace | backend/main.go:237-238 | the result is no longer than the input and starts and ends with a non-space character (or is empty) |
| Text.TrimSpaceSlice | backend/main.go:237-238 | the result is a slice `s[a..b]` of the input, and everything cut before `a` and after `b` is white space |
| Text.TrimSpaceFixed | backend/main.go:237-238 | a string with no white space at either end is its own trimmed form |
| Text.TrimSpaceIdempotent | backend/main.go:237-238 | trimming twice is trimming once |
| Text.TrimSpaceEmptyIffBlank | backend/main.go:239-246 | the trimmed string is empty exactly when every character is white space |
| Text.ToLower | backend/main.go:262 | lower-casing keeps the length |
| Text.ToLowerIdempotent | backend/main.go:262 | lower-casing twice is lower-casing once |
| Text.TrimSpaceLower | backend/main.go:443 | trimming and lower-casing commute, so `TrimSpace(ToLower(x))` and `ToLower(TrimSpace(x))` agree |
| Text.LoweredBlank | backend/main.go:262-264 | a provider is empty after lower-casing and trimming exactly when it was blank |
| Text.LowerTrimIdempotent | backend/main.go:262 | normalising a provider a second time changes nothing |
| Text.TrimPrefix | backend/internal/providers/openrouter.go:89 | with the prefix present the input is prefix followed by the result; otherwise the input is returned |
| Text.TrimSuffix | backend/internal/providers/openrouter.go:39 | with the suffix present the input is the result followed by the suffix; otherwise the input is returned |
| Text.Utf8Len | backend/context_limits.go:107 | the byte length lies between the number of characters and four times it |
| Text.Utf8LenAppend | backend/context_limits.go:106-109 | the byte length of a concatenation is the sum of the byte lengths |
| Text.ParseInt | backend/context_limits.go:251 | `Atoi` accepts only values within the 64-bit range |
| Text.ParseIntRejectsLead | backend/context_limits.go:251 | a string starting with anything but a digit or a sign is rejected |
| Text.ParseFormatRoundTrip | backend/context_limits.go:251 | every 64-bit integer parses back from its decimal form |
| Providers.ChunkEvents | backend/internal/providers/openrouter.go:111-117 | one chunk event per chunk |
| Providers.ChunkEventsSnoc | backend/internal/providers/openrouter.go:111-117 | emitting one more chunk appends one event for it |
| Providers.NormalizeBaseUrl | backend/internal/providers/openrouter.go:35-39 | a blank base URL becomes the default; any other is trimmed and then loses exactly one trailing `/` when it ends in one, and is otherwise kept as trimmed |
| Providers.PromptMessages | backend/internal/providers/openrouter.go:42-46 | the wire messages are the system prompt when it is not empty, then the user prompt, and nothing else |
| Providers.BuildMessages | backend/internal/providers/ollama.go:37-41 | the appending code builds exactly `PromptMessages` |
| Providers.Delivered | backend/main.go:299-306 | `emit` delivers all chunks unless it refuses, and it refuses exactly when its budget is smaller than the number of chunks |
| Providers.Summarize | backend/internal/providers/openrouter.go:84-120 | a body yields at most one chunk per line |
| Providers.SummarizeAppend | backend/internal/providers/openrouter.go:84-120 | reading a body in two parts: after a stop line the second part is ignored; otherwise the chunks of both parts are concatenated |
| Providers.SummarizeFrom | backend/internal/providers/openrouter.go:84-120 | the effect of one line: a skipped line adds nothing, a stop line ends the scan, an emitted line adds its chunk in front |
| Providers.Actions | backend/internal/providers/openrouter.go:84-85 | each line is classified on its own, in order |
| Providers.ActionsRemove | backend/internal/providers/openrouter.go:84-85 | removing a line removes exactly its classification |
| Providers.ActionsPrefix | backend/internal/providers/openrouter.go:84-85 | the classification of a prefix is the prefix of the classification |
| Providers.SkippedLineIrrelevant | backend/internal/providers/openrouter.go:86-95 | removing a skipped line never changes the result of a scan |
| Providers.LinesAfterStopIrrelevant | backend/internal/providers/openrouter.go:90-92 | nothing after a stop line changes the result, and the scan counts as stopped |
| Providers.StopEndsSummary | backend/internal/providers/openrouter.go:90-92 | the result of a scan with a stop line is the scan of the lines before it, marked stopped |
| Providers.SummarizeChunksFromEmits | backend/internal/providers/openrouter.go:111-119 | every chunk read comes from a line classified as that chunk |
| Providers.ScanLines | backend/internal/providers/openrouter.go:81-122 | the scanner loop emits, in order, the chunks `emit` accepts out of the body's chunks, and returns `emit`'s refusal, or else the read error when the body did not stop early |
| OpenRouter.ClassifyLine | backend/internal/providers/openrouter.go:85-109 | lines without `data:` are skipped; a line stops the scan exactly when its payload is `[DONE]`; an emitted chunk is the first choice's non-empty delta of a payload that decodes |
| OpenRouter.Stream | backend/internal/providers/openrouter.go:29-123 | a blank API key fails before any request is sent; otherwise it sends the normalised URL, a bearer token and the body; each failure is returned with nothing emitted; a successful reply emits the chunks `emit` accepts |
| OpenRouter.NonDataLineIrrelevant | backend/internal/providers/openrouter.go:86-88 | a line that is not a `data:` line never changes the result of a scan |
| OpenRouter.DoneEndsScan | backend/internal/providers/openrouter.go:89-92 | nothing after `[DONE]` is read, and the scan counts as stopped |
| OpenRouter.ChunkFromDataLine | backend/internal/providers/openrouter.go:104-117 | every chunk read is the non-empty first delta of some `data:` line |
| Ollama.ClassifyLine | backend/internal/providers/ollama.go:78-97 | blank lines are skipped; a line stops the scan exactly when it decodes with `done`; an emitted chunk is the non-empty message content of a line that decodes without `done` |
| Ollama.Stream | backend/internal/providers/ollama.go:29-111 | it sends the normalised URL with no credentials and the temperature only under `options`; each failure is returned with nothing emitted; a successful reply emits the chunks `emit` accepts |
| Ollama.BlankLineIrrelevant | backend/internal/providers/ollama.go:78-81 | a blank line never changes the result of a scan |
| Ollama.DoneEndsScan | backend/internal/providers/ollama.go:92-94 | a `done` line ends the scan: the result is that of the lines before it, marked stopped |
| Ollama.ChunkFromLine | backend/internal/providers/ollama.go:89-104 | every chunk read is the non-empty content of some line that decodes without `done` |
| History.OverrideText | backend/main.go:407-415 | a blank override keeps the stored value; any other replaces it, trimmed |
| History.OverrideList | backend/main.go:416-421 | an empty model list keeps the stored one; any other replaces it |
| History.MergeConfig | backend/main.go:405-423 | each field of the merged configuration is the stored one or the override's, as above |
| History.MergeEmptyOverride | backend/main.go:405-423 | an override that sets nothing leaves the stored configuration unchanged |
| History.MergeIdempotent | backend/main.go:405-423 | merging the same override twice is merging it once |
| History.IncludedForTargetCases | backend/main.go:442-467 | the filter case by case: `dont_include` never; `always` always; `model_only` to the scope, else the target, and to everyone when both are blank; an untagged or unknown-tag reply only to its own non-blank target; any other message always |
| History.IncludedIgnoresTagCase | backend/main.go:443 | the tag's case and padding do not matter |
| History.NormalizedTagSameDecision | backend/internal/state/store.go:410-417 | storing a tag in its normalised form keeps every filter decision |
| History.DontIncludeNeverReplayed | backend/main.go:444-445 | a message retagged `dont_include` is replayed to no target |
| History.AlwaysReplayed | backend/main.go:446-447 | a message retagged `always` is replayed to every target |
| History.ModelOnlyReplayedToScope | backend/main.go:448-456 | a `model_only` message with a trimmed, non-empty scope is replayed exactly to that target |
| History.DecideScoped | backend/main.go:448-456 | with a non-empty scope, `model_only` admits exactly the scope |
| History.DecideScopeFallback | backend/main.go:449-452 | a `model_only` message without a scope is decided as if scoped to its target |
| History.DecideUntaggedReply | backend/main.go:457-464 | an untagged reply with a target is decided like a `model_only` reply scoped to that target |
| History.MigrationKeepsDecision | backend/internal/state/store.go:128-142 | the load-time migration keeps the decision for every message except an untagged reply that has a scope or has no target |
| History.MigrationKeepsUntaggedReply | backend/internal/state/store.go:131-140 | migrating an untagged reply that has a target and no scope keeps its decision |
| History.MigrationKeepsUntaggedOther | backend/internal/state/store.go:131-137 | migrating an untagged message that is not a reply keeps its decision |
| History.MigrationKeepsUnscoped | backend/internal/state/store.go:138-140 | giving an unscoped `model_only` message its target as scope keeps its decision |
| History.MigrationWidensUntargetedReply | backend/internal/state/store.go:128-142 | an untagged reply with neither scope nor target is replayed to no target before migration and to every target after it |
| History.MigrationRedirectsScopedReply | backend/internal/state/store.go:128-142 | an untagged reply with a scope is replayed to its own non-blank target only before migration, and to its trimmed scope only after it |
| History.TargetHistory | backend/main.go:425-440 | the history is no longer than the chat |
| History.BuildTargetHistory | backend/main.go:425-440 | the loop builds exactly `TargetHistory` |
| History.TargetHistoryAppend | backend/main.go:425-440 | the history of a concatenation is the concatenation of the histories |
| History.TargetHistoryComplete | backend/main.go:427-437 | every message with content and role that the filter admits is replayed |
| History.HistorySource | backend/main.go:427-437 | each history entry is the role and content of an admitted message with content and role, found by index |
| History.TargetHistorySound | backend/main.go:427-437 | every history entry comes from such a message |
| State.NormalizeInclusion | backend/internal/state/store.go:410-417 | the result is one of the three tags or empty |
| State.NormalizeInclusionAccepts | backend/internal/state/store.go:410-417 | a value is accepted exactly when its trimmed, lower-cased form is a tag, and then that form is the result |
| State.NormalizeInclusionIdempotent | backend/internal/state/store.go:410-417 | normalising twice is normalising once |
| State.ChatTitleCases | backend/internal/state/store.go:242-245 | a new chat's title is the trimmed title asked for, or `New Chat` when that is blank, and is never blank |
| State.TrimTitle | backend/internal/state/store.go:438-448 | a title made from a prompt has at most 43 characters |
| State.TrimTitleCases | backend/internal/state/store.go:438-448 | a blank prompt gives `New Chat`; a trimmed prompt of up to 40 characters is kept; a longer one is cut to 40 and gets `...` |
| State.TrimTitleTrimmed | backend/internal/state/store.go:438-448 | the title is non-empty with no white space at either end |
| State.TrimTitleIdempotent | backend/internal/state/store.go:438-448 | a title made from a title is the same title |
| State.MigrateMessage | backend/internal/state/store.go:128-142 | migration changes only the tag and the scope |
| State.MigrateMessageDefaults | backend/internal/state/store.go:131-140 | a blank tag becomes `model_only` for a reply and `always` otherwise; any other tag is kept; a `model_only` message without a scope gets its target as scope, and no other scope changes |
| State.MigrateMessageIdempotent | backend/internal/state/store.go:128-142 | migrating twice is migrating once |
| State.UserMessageMigrated | backend/internal/state/store.go:319-325 | a stored prompt is already in migrated form |
| State.PersistedOutput | backend/internal/state/store.go:351-359 | a stored reply is an assistant message with the new id and time, keeping the content, provider, model and target |
| State.PersistedOutputTagged | backend/internal/state/store.go:353-358 | a stored reply always has a tag; an untagged one becomes `model_only` and, without a scope, is scoped to its target |
| State.PersistedScopedOutput | backend/internal/state/store.go:353-358 | a scoped `model_only` reply keeps its tag and scope |
| State.PersistedOutputMigrated | backend/internal/state/store.go:347-360 | a stored reply is already in migrated form, so a restart does not change it |
| State.EntriesUpTo | backend/internal/state/store.go:347-361 | the loop over the first k outputs stores at most k messages |
| State.AssistantEntriesCount | backend/internal/state/store.go:347-361 | exactly the outputs whose content is not blank are stored |
| State.EntrySource | backend/internal/state/store.go:347-361 | each stored message is the stored form of an earlier output whose content is not blank, with that output's id |
| State.AssistantEntriesFromOutputs | backend/internal/state/store.go:347-361 | every stored message comes from such an output |
| State.PromptAppended | backend/internal/state/store.go:318-329 | appending a prompt adds one `always` user message, sets the update time and otherwise changes only the title, to the prompt's title |
| State.PromptAppendedTitle | backend/internal/state/store.go:326-328 | the title changes exactly when the chat was empty, titled `New Chat`, and the prompt's title differs |
| State.Retagged | backend/internal/state/store.go:389-398 | retagging changes only the tag and the scope; the scope is cleared except for `model_only`, where it is the given scope or the target |
| State.RetaggedScope | backend/internal/state/store.go:390-395 | `model_only` takes the given scope unless it is blank, and then the target |
| State.ChatEdited | backend/internal/state/store.go:281-293 | editing a chat keeps its id, messages and creation time, stamps the update time, and moves it only to the folder given |
| State.ChatEditedFields | backend/internal/state/store.go:282-291 | a blank folder or title keeps the chat's own; a title given is trimmed |
| State.ChatIndex | backend/internal/state/store.go:264-268 | the index of the first chat with the id, or the count when none has it |
| State.FolderIndex | backend/internal/state/store.go:217-221 | the index of the first folder with the id, or the count when none has it |
| State.MessageIndex | backend/internal/state/store.go:384-388 | the index of the first message with the id, or the count when none has it |
| State.Touched | backend/internal/state/store.go:419-427 | touching a folder changes only the update time of the first folder with the id, and sets it to now |
| State.MigrateChat | backend/internal/state/store.go:128-142 | migrating a chat migrates each message and changes nothing else |
| State.MigrateChats | backend/internal/state/store.go:128-142 | migrating the chats migrates each chat in place |
| State.MigratedTagNotBlank | backend/internal/state/store.go:131-137 | after migration no message has a blank tag |
| State.MigratedTagsNotBlank | backend/internal/state/store.go:128-142 | after migration no message of a chat has a blank tag |
| State.MigrateChatIdempotent | backend/internal/state/store.go:128-142 | loading a migrated state file again changes nothing |
| State.DefaultBaseUrlsNotBlank | backend/internal/state/store.go:116-121 | the default base URLs are not blank |
| State.ConfigWithDefaults | backend/internal/state/store.go:116-127 | after loading, both model lists are non-empty: a stored list is kept, an empty one becomes the provider's default list; the API key is untouched |
| State.ConfigDefaultsUrls | backend/internal/state/store.go:116-121 | after loading, both base URLs are non-blank: a stored one is kept, a blank one becomes the provider's default URL |
| State.ConfigDefaultsIdempotent | backend/internal/state/store.go:116-127 | applying the defaults to a loaded configuration changes nothing |
| State.Store.Initial | backend/internal/state/store.go:75-98 | a missing state file gives the default configuration, one `General` folder and no chats |
| State.Store.EmptyFile | backend/internal/state/store.go:104-107 | an empty state file gives the zero state, with no defaults applied |
| State.Store.Decoded | backend/internal/state/store.go:109-142 | a decoded state file gets the configuration defaults, a `General` folder when it has none, and migrated chats |
| State.Store.MigrateInclusions | backend/internal/state/store.go:128-142 | the nested loop migrates every message of every chat and changes nothing else |
| State.Store.LocateChat | backend/internal/state/store.go:264-268 | the loop finds `ChatIndex` |
| State.Store.LocateFolder | backend/internal/state/store.go:217-221 | the loop finds `FolderIndex` |
| State.Store.GetChat | backend/internal/state/store.go:261-270 | returns the first chat with the id, or nothing exactly when there is none |
| State.Store.FindFolder | backend/internal/state/store.go:214-223 | returns the first folder with the id, or nothing exactly when there is none |
| State.Store.TouchFolder | backend/internal/state/store.go:419-427 | the folders become `Touched`, the result says whether the folder exists, and nothing else changes |
| State.Store.CreateChat | backend/internal/state/store.go:241-259 | a missing folder is an error that changes nothing; otherwise an empty chat with the title is appended, and the result is that chat or the persist error |
| State.Store.UpdateChat | backend/internal/state/store.go:272-308 | every outcome and its state: unknown chat; move to a missing folder; otherwise the edited chat with both folders touched, then a missing-folder error, a persist error or the chat |
| State.Store.AppendUserPrompt | backend/internal/state/store.go:310-336 | an unknown chat changes nothing; otherwise the prompt is appended and the folder touched, then the result is a missing-folder error, the persist error or success |
| State.Store.AppendAssistantMessages | backend/internal/state/store.go:338-369 | an unknown chat changes nothing; otherwise the non-blank outputs are appended in their stored form and the folder touched, then the result is a missing-folder error, the persist error or success |
| State.Store.UpdateMessageInclusion | backend/internal/state/store.go:371-408 | an invalid tag, an unknown chat or an unknown message changes nothing and names its error; otherwise the first message with the id is retagged and the chat stamped, and the result is the message or the persist error |
| State.Retag | backend/internal/state/store.go:389-398 | the assignments build exactly `Retagged` |
| State.StoreOutputs | backend/internal/state/store.go:347-361 | the loop appends exactly the entries of `AssistantEntries` |
| State.MigrateMessages | backend/internal/state/store.go:129-141 | the loop migrates each message in place |
| State.LocateMessage | backend/internal/state/store.go:384-388 | the loop finds `MessageIndex` |
| Orchestrator.RunEmits | backend/main.go:328 | an adapter emits one chunk event per chunk it read, all for its target |
| Orchestrator.WorkerLaneShape | backend/main.go:322-339 | a worker's events all carry its target id: `start`, then chunks, then possibly one `error`, then `end` |
| Orchestrator.LaneTagged | backend/main.go:308-339 | every event sent for a target carries that target's id |
| Orchestrator.LaneFramed | backend/main.go:308-339 | a registered provider's lane has the worker's shape; an unregistered one is a single `unsupported provider` error |
| Orchestrator.ChunksAppend | backend/main.go:349-359 | the chunks of a concatenated stream are the concatenation of the chunks |
| Orchestrator.ChunksOfChunkEvents | backend/main.go:350-357 | the chunks of the emitted chunk events are the chunks themselves |
| Orchestrator.JoinedSnoc | backend/main.go:357 | appending a chunk to the reply appends its text |
| Orchestrator.LaneChunks | backend/main.go:322-339 | the chunks of a target's lane are exactly the reply its adapter read |
| Orchestrator.WorkerLaneChunks | backend/main.go:327-338 | `start`, `error` and `end` add no chunk |
| Orchestrator.OnlyTagged | backend/main.go:349 | a stream carrying only one target's id is its own projection on that id |
| Orchestrator.OnlyUntouched | backend/main.go:349 | a stream carrying no event for a target projects to nothing |
| Orchestrator.ChunksOnly | backend/main.go:349-357 | a target's chunks depend only on that target's events |
| Orchestrator.OnlyFlatten | backend/main.go:308-345 | when only one lane carries a target's id, the projection of all lanes on that id is that lane |
| Orchestrator.FlattenUntouched | backend/main.go:308-345 | lanes that carry no event for a target project to nothing |
| Orchestrator.InterleaveKeepsLane | backend/main.go:296-349 | under every schedule the channel keeps each lane's own order |
| Orchestrator.FlattenRemove | backend/main.go:296-349 | the events of all lanes are those of one lane plus those of the rest |
| Orchestrator.FlattenTakeFirst | backend/main.go:296-349 | taking a lane's first event keeps the events of all lanes |
| Orchestrator.InterleavePermutes | backend/main.go:296-349 | under every schedule the merged stream is a permutation of the lanes' events |
| Orchestrator.FanInReplies | backend/main.go:347-359 | a target has a reply exactly when the stream carried a chunk for it; the reply is its chunks joined in stream order, tagged `model_only` and scoped to the target |
| Orchestrator.FanInSource | backend/main.go:351-354 | a reply's provider and model are those of its target |
| Orchestrator.ReplyOfTarget | backend/main.go:308-359 | with distinct target ids, under every schedule, each target's reply is exactly what its adapter read, and there is one exactly when that is not empty |
| Orchestrator.Lanes | backend/main.go:308-340 | one lane per target |
| Orchestrator.FolderOf | backend/main.go:257 | the folder found has the chat's folder id |
| Orchestrator.PreparedPromptDefault | backend/main.go:268-270 | a target's own system prompt wins unless it is blank, and then the folder's, trimmed, is used |
| Orchestrator.PreparedPromptIdempotent | backend/main.go:268-270 | preparing a system prompt twice is preparing it once |
| Orchestrator.PreparedTemperatureDefault | backend/main.go:271-274 | a target's own temperature wins; the folder's fills the gap |
| Orchestrator.PreparedTargetIdempotent | backend/main.go:261-275 | preparing a target twice is preparing it once |
| Orchestrator.PreparedTargetIdTrimmed | backend/main.go:262-264 | a prepared target's id is non-empty with no white space at either end |
| Orchestrator.PrepareTarget | backend/main.go:262-274 | a target is accepted exactly when its provider and model are not blank, and then prepared |
| Orchestrator.PrepareTargets | backend/main.go:261-275 | the loop rejects the request exactly when some target is unnamed; otherwise every target is prepared in place |
| Orchestrator.Prepared | backend/main.go:261-275 | one prepared target per target |
| Orchestrator.PreparedAt | backend/main.go:261-275 | each target is prepared on its own, at its own index |
| Orchestrator.CallAdapter | backend/main.go:328 | the registry's adapter for the provider runs the request |
| Orchestrator.Work | backend/main.go:322-339 | a worker sends the lane of its target, replaying the history filtered for that target |
| Orchestrator.RunWorkers | backend/main.go:308-340 | the workers send the lanes of all targets |
| Orchestrator.Drain | backend/main.go:347-368 | the reading loop writes every event and absorbs its chunks, or stops at the first failed write after absorbing that event |
| Orchestrator.FanInStep | backend/main.go:349-359 | the replies after one more event are the old replies with that event absorbed |
| Orchestrator.InOrder | backend/main.go:370-373 | one reply per key of the order |
| Orchestrator.Collect | backend/main.go:370-373 | one message per target with a reply: every reply is listed, nothing else is, and they follow some order of the map's keys, each key once |
| Orchestrator.ReplyIds | backend/internal/state/store.go:351 | one id per reply |
| Orchestrator.Admit | backend/main.go:237-275 | the checks answer as `Rejection`, in Go's order; a request that passes gets its chat, the chat's folder and the prepared targets |
| Orchestrator.StreamReplies | backend/main.go:342-380 | a write failure ends the response with nothing stored; otherwise the whole stream and `done` are written, and each reply is stored |
| Orchestrator.Proceed | backend/main.go:277-380 | an error storing the prompt is a 400 with its text; a write failure keeps only the prompt; otherwise the prompt and then every reply are stored |
| Orchestrator.HandleChatStream | backend/main.go:237-380 | a request the checks refuse changes nothing; otherwise the response and the new store follow the three outcomes, with the stream built from the chat as it was before the prompt |
| Orchestrator.ReplyReplayedOnlyToItsTarget | backend/main.go:350-358 | a stored reply is replayed to its own target and to no other |
| ContextLimits.ToInt | backend/context_limits.go:234-259 | a missing value does not convert; text converts only within the 64-bit range |
| ContextLimits.ToIntDecimalRoundTrip | backend/context_limits.go:244-255 | every 64-bit integer converts back from its decimal text, as a string or as a `json.Number` |
| ContextLimits.ToIntStringPadding | backend/context_limits.go:244-255 | a string is read trimmed, so padding never matters; a `json.Number` with leading white space is rejected |
| ContextLimits.EstimateIsCeiling | backend/context_limits.go:109-113 | the estimate is at least 1, and for a positive byte count it is the ceiling of a quarter of it |
| ContextLimits.EstimateContextTokens | backend/context_limits.go:103-114 | the loop computes the estimate over the target's filtered history and the prompt |
| ContextLimits.FirstPositive | backend/context_limits.go:174-183 | a value found is positive |
| ContextLimits.FirstPositiveNone | backend/context_limits.go:174-183 | nothing is found exactly when no entry matches with a positive value |
| ContextLimits.FirstPositiveIndex | backend/context_limits.go:175-181 | what is found is the value of a matching entry with no match before it |
| ContextLimits.ScanFields | backend/context_limits.go:217-230 | the loop returns the first matching entry with a positive value |
| ContextLimits.LookupPositive | backend/context_limits.go:73-80 | a window that a lookup reports is positive |
| ContextLimits.ListLimitFound | backend/context_limits.go:147-183 | a window from the list comes from a successful answer, from the first listed model with the id and a usable length |
| ContextLimits.OpenRouterLimitSource | backend/context_limits.go:123-183 | OpenRouter's window comes from the single-model answer or from a matching listed model |
| ContextLimits.OllamaPrefersModelInfo | backend/context_limits.go:217-223 | a usable `model_info` entry always wins over `details` |
| ContextLimits.OllamaUnavailable | backend/context_limits.go:217-231 | "context length unavailable" exactly when neither object has a usable entry |
| ContextLimits.FetchOpenRouterLimit | backend/context_limits.go:123-145 | the fast path returns a usable single-model answer; otherwise the list decides |
| ContextLimits.FetchModelList | backend/context_limits.go:147-184 | the list request: transport error, status error, decode error, or the list scan |
| ContextLimits.FetchOllamaLimit | backend/context_limits.go:186-232 | the show request: transport error, status error, decode error, or `model_info` then `details` |
| ContextLimits.UsedPercentNearest | backend/context_limits.go:90-94 | the share used is the nearest whole percent, halves rounded up |
| ContextLimits.ResolvedItem | backend/context_limits.go:54-96 | an item has the canonical id; a target without provider or model gets only the error; a failed lookup gets its error and the estimate; a found window gets the estimate, what is left and the share, and no error |
| ContextLimits.FetchLimit | backend/context_limits.go:73-80 | the lookup by provider, and an unsupported provider otherwise |
| ContextLimits.ResolveTarget | backend/context_limits.go:52-97 | a target's goroutine builds exactly its item |
| ContextLimits.ReportAt | backend/context_limits.go:45-100 | the report has one item per target, at the target's own index |
| ContextLimits.ResolveContextLimits | backend/context_limits.go:43-101 | the report holds each target's item in the targets' order, whatever order the lookups finish in |

## Left out

- HTTP and the network. Every request of the adapters and the lookups is modelled by its
  outcome, and the request the adapter sends is a value. These are not modelled: timeouts,
  headers other than the bearer token, `http.NewRequest` failing on a malformed URL, and
  `json.Marshal` failing on a temperature that is not finite.
- JSON encoding and decoding. Decoders are parameters. The request decode error (400),
  the 4096- and 512-byte error-body limits and the scanner's 2 MB line limit are left out.
  Body lines are given already split, and a read error, including an over-long line, is
  the read error returned after the loop.
- The handler's method check (405), the invalid-JSON answer (400) and the "streaming
  unsupported" answer (500). These come before or outside the core.
- Goroutines, the channel, the `WaitGroup`, the mutex and `context` cancellation. Their
  effect is modelled by lanes and a schedule.
  - Lane: a worker's `emit` always succeeds while the handler reads. Once a write to the
    client fails the handler returns, and the events it did not read are not modelled.
  - Lane: an adapter error is reported unless it is `emit`'s own refusal. A transport
    error that wraps `context.Canceled` after a client disconnect is reported like any
    other error.
  - A blocked `emit` of an unsupported-provider error is not modelled. This emit runs in
    the handler goroutine before the fan-in loop, so it can wait on a full channel.
- File I/O. A write of the state file is given as its result. The load's
  `os.MkdirAll`, its read errors, its invalid-JSON error and the persist of a fresh
  default state are not modelled. Only the three resulting states are modelled
  (`Initial`, `EmptyFile`, `Decoded`).
- Logging. The logged error of `AppendAssistantMessages` in the handler has no effect
  on the response.
- Clocks and ids. `time.Now` and `newID` are parameters with one `now` per operation.
  - ReplyIds: the model does not assume that generated ids are distinct. `newID` uses the
    nanosecond clock, which need not differ between the replies of one loop.
- Store operations that are not part of this model: `GetConfig` (read as the field),
  `SetConfig`, `ListFolders`, `CreateFolder`, `UpdateFolder` and `ListChats`. They are
  outside the stream and context-limit paths.
- `mergePromptAndAttachments` and the `/api/context-limits` handler around
  `resolveContextLimits` are not part of this model. The prompt is given already merged,
  and the history is given as a parameter.
- ToLower: ASCII letters only. Go's `strings.ToLower` also maps non-ASCII letters.
- ToInt: a `float64` or `float32` value is carried as its truncation `int(n)`.
  NaN, infinities and values out of the 64-bit range are not modelled.
- UsedPercent: `math.Round` of a `float64` quotient is modelled by the exact integer
  formula (nearest percent, halves up). The two agree except where `float64` rounding
  error matters.
- EstimatedTokens: `math.Ceil(float64(chars) / 4)` is modelled as `(chars + 3) / 4`.
  The two agree for byte counts below 2^53.
- Temperature: `float64` temperatures are modelled as `real` and only copied.
- Collect: Go's map iteration order is modelled as a ghost order. The contract holds
  for every order.
- Ollama's `model_info` and `details`: these maps are ranged over, and their order is
  given as a sequence of entries.
