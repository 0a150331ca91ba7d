/**
 * The conversation store (backend/internal/state/store.go): folders, chats and their
 * messages, kept in memory by a single owner and written to disk after every change.
 * The lock, the JSON file and the clock are not part of this model: the outcome of
 * the write is a parameter `persisted`, the current time a parameter `now`, and each
 * new id a parameter.
 */
module State {
  import opened Wrappers
  import opened Text
  import opened Providers

  datatype Folder = Folder(
    id: string, name: string, systemPrompt: string, temperature: Option<Temperature>,
    createdAt: int, updatedAt: int)

  datatype Message = Message(
    id: string, role: string, content: string, provider: string, model: string,
    targetId: string, inclusion: string, scopeId: string, createdAt: int)

  datatype Chat = Chat(
    id: string, folderId: string, title: string, messages: seq<Message>,
    createdAt: int, updatedAt: int)

  datatype StoreError = ChatNotFound | FolderNotFound | MessageNotFound | InvalidInclusion | PersistFailed(message: string)

  function ErrorText(e: StoreError): string {
    match e
    case ChatNotFound => "chat not found"
    case FolderNotFound => "folder not found"
    case MessageNotFound => "message not found"
    case InvalidInclusion => "invalid inclusion"
    case PersistFailed(m) => m
  }

  /** The outcome of writing the state file: `None` when the write succeeded. */
  type WriteResult = Option<string>

  function Persisted(write: WriteResult): Outcome<StoreError> {
    if write.None? then Pass else Fail(PersistFailed(write.value))
  }

  const NewChatTitle: string := "New Chat"
  const DefaultFolderName: string := "General"
  const DefaultOpenRouterModels: seq<string> := ["openai/gpt-4o-mini", "anthropic/claude-3.5-sonnet"]
  const DefaultOllamaModels: seq<string> := ["llama3.2:latest", "qwen2.5"]

  // ---------------------------------------------------------------------------
  // Inclusion tags.

  const DontInclude: string := "dont_include"
  const ModelOnly: string := "model_only"
  const Always: string := "always"

  predicate IsInclusionTag(s: string) {
    s == DontInclude || s == ModelOnly || s == Always
  }

  /** `normalizeInclusion`: one of the three tags, trimmed and lower-cased, or "" for anything else. */
  function NormalizeInclusion(v: string): (r: string)
    ensures r == "" || IsInclusionTag(r)
  {
    var t := TrimSpace(ToLower(v));
    if IsInclusionTag(t) then t else ""
  }

  /** A value is accepted exactly when its trimmed, lower-cased form is a tag, and then that form is the result. */
  lemma NormalizeInclusionAccepts(v: string)
    ensures NormalizeInclusion(v) != "" <==> IsInclusionTag(TrimSpace(ToLower(v)))
    ensures NormalizeInclusion(v) != "" ==> NormalizeInclusion(v) == TrimSpace(ToLower(v))
  {
  }

  /** A tag is already in normal form. */
  lemma TagNormal(tag: string)
    requires IsInclusionTag(tag)
    ensures TrimSpace(ToLower(tag)) == tag
  {
    assert forall i | 0 <= i < |tag| :: !('A' <= tag[i] <= 'Z') && !IsSpace(tag[i]);
    assert ToLower(tag) == tag;
    TrimSpaceFixed(tag);
  }

  lemma NormalizeInclusionIdempotent(v: string)
    ensures NormalizeInclusion(NormalizeInclusion(v)) == NormalizeInclusion(v)
  {
    var r := NormalizeInclusion(v);
    if r != "" {
      TagNormal(r);
    }
  }

  // ---------------------------------------------------------------------------
  // Titles.

  /** `trimTitle`: the trimmed prompt, cut to 40 characters plus "..." when longer; "New Chat" when blank. */
  function TrimTitle(prompt: string): (r: string)
    ensures |r| <= 43
  {
    var p := TrimSpace(prompt);
    if p == "" then NewChatTitle
    else if |p| > 40 then p[..40] + "..." else p
  }

  /** The title `CreateChat` gives a new chat: the trimmed title asked for, or "New Chat" when it is blank. */
  function ChatTitle(title: string): string {
    if TrimSpace(title) == "" then NewChatTitle else TrimSpace(title)
  }

  /** A new chat's title is never blank, and is the one asked for whenever that is not blank. */
  lemma ChatTitleCases(title: string)
    ensures ChatTitle(title) == if IsBlank(title) then NewChatTitle else TrimSpace(title)
    ensures !IsBlank(ChatTitle(title))
  {
    TrimSpaceEmptyIffBlank(title);
    TrimSpaceEmptyIffBlank(ChatTitle(title));
    assert NewChatTitle[0] == 'N';
  }

  lemma TrimTitleCases(prompt: string)
    ensures IsBlank(prompt) ==> TrimTitle(prompt) == NewChatTitle
    ensures !IsBlank(prompt) && |TrimSpace(prompt)| <= 40 ==> TrimTitle(prompt) == TrimSpace(prompt)
    ensures |TrimSpace(prompt)| > 40 ==> TrimTitle(prompt) == TrimSpace(prompt)[..40] + "..."
  {
    TrimSpaceEmptyIffBlank(prompt);
  }

  /** A title has no white space at either end, so it is not blank. */
  lemma TrimTitleTrimmed(prompt: string)
    ensures TrimTitle(prompt) != [] && !IsSpace(TrimTitle(prompt)[0]) && !IsSpace(TrimTitle(prompt)[|TrimTitle(prompt)| - 1])
    ensures !IsBlank(TrimTitle(prompt))
  {
    var p := TrimSpace(prompt);
    var r := TrimTitle(prompt);
    if p == "" {
      assert r == NewChatTitle;
      EdgesOfLiteral();
    } else if |p| > 40 {
      assert r == p[..40] + "...";
      EdgesOfCut(p);
    } else {
      assert r == p;
    }
    NotBlankAtStart(r);
  }

  /** "New Chat" starts and ends with a letter. */
  lemma EdgesOfLiteral()
    ensures !IsSpace(NewChatTitle[0]) && !IsSpace(NewChatTitle[|NewChatTitle| - 1])
  {
    assert NewChatTitle[0] == 'N' && NewChatTitle[|NewChatTitle| - 1] == 't';
  }

  /** A long title is cut after its first 40 characters and ends in a dot. */
  lemma EdgesOfCut(p: string)
    requires |p| > 40 && !IsSpace(p[0])
    ensures var r := p[..40] + "..."; !IsSpace(r[0]) && !IsSpace(r[|r| - 1])
  {
    var r := p[..40] + "...";
    assert r[0] == p[0] && r[|r| - 1] == '.';
  }

  lemma NotBlankAtStart(s: string)
    requires s != [] && !IsSpace(s[0])
    ensures !IsBlank(s)
  {
  }

  /** A title is its own title. */
  lemma TrimTitleIdempotent(prompt: string)
    ensures TrimTitle(TrimTitle(prompt)) == TrimTitle(prompt)
  {
    var p := TrimSpace(prompt);
    var r := TrimTitle(prompt);
    TrimTitleTrimmed(prompt);
    TrimSpaceFixed(r);
    if p != "" && |p| > 40 {
      assert r[..40] == p[..40];
    }
  }

  // ---------------------------------------------------------------------------
  // Messages as they are stored.

  /** The message `AppendUserPrompt` adds. */
  function UserMessage(id: string, prompt: string, now: int): Message {
    Message(id, "user", prompt, "", "", "", Always, "", now)
  }

  /**
   * The inclusion defaults applied both when a state file is loaded and when assistant
   * outputs are stored: a blank tag becomes `model_only` for an assistant message and
   * `always` otherwise, and a `model_only` message without a scope is scoped to its own
   * target. A non-blank tag is kept as it is, even one that is not recognised.
   */
  function MigrateMessage(m: Message): (r: Message)
    ensures r.(inclusion := m.inclusion, scopeId := m.scopeId) == m
  {
    var inclusion := if IsBlank(m.inclusion) then (if m.role == "assistant" then ModelOnly else Always) else m.inclusion;
    var scope := if inclusion == ModelOnly && IsBlank(m.scopeId) then m.targetId else m.scopeId;
    m.(inclusion := inclusion, scopeId := scope)
  }

  /** Only a blank tag is replaced, and only a `model_only` message with a blank scope gets its target as scope. */
  lemma MigrateMessageDefaults(m: Message)
    ensures IsBlank(m.inclusion) ==> MigrateMessage(m).inclusion == (if m.role == "assistant" then ModelOnly else Always)
    ensures !IsBlank(m.inclusion) ==> MigrateMessage(m).inclusion == m.inclusion
    ensures MigrateMessage(m).inclusion == ModelOnly && IsBlank(m.scopeId) ==> MigrateMessage(m).scopeId == m.targetId
    ensures MigrateMessage(m).scopeId != m.scopeId ==> MigrateMessage(m).inclusion == ModelOnly && IsBlank(m.scopeId)
  {
  }

  /** A tag that is a known one is not blank. */
  lemma TagNotBlank(tag: string)
    requires IsInclusionTag(tag)
    ensures !IsBlank(tag)
  {
    assert !IsSpace(tag[0]);
  }

  /** Loading a state file twice migrates nothing more the second time. */
  lemma MigrateMessageIdempotent(m: Message)
    ensures MigrateMessage(MigrateMessage(m)) == MigrateMessage(m)
  {
    if IsBlank(m.inclusion) {
      TagNotBlank(ModelOnly);
      TagNotBlank(Always);
    }
  }

  /** A user prompt is stored in the form loading would give it. */
  lemma UserMessageMigrated(id: string, prompt: string, now: int)
    ensures MigrateMessage(UserMessage(id, prompt, now)) == UserMessage(id, prompt, now)
  {
    TagNotBlank(Always);
  }

  /** One output of a run as `AppendAssistantMessages` stores it. */
  function PersistedOutput(out: Message, id: string, now: int): (m: Message)
    ensures m.role == "assistant" && m.id == id && m.createdAt == now && m.content == out.content
    ensures m.provider == out.provider && m.model == out.model && m.targetId == out.targetId
  {
    MigrateMessage(out.(id := id, role := "assistant", createdAt := now))
  }

  /** A stored output always has a tag, and a `model_only` one is scoped (to its target when it had no scope). */
  lemma PersistedOutputTagged(out: Message, id: string, now: int)
    ensures !IsBlank(PersistedOutput(out, id, now).inclusion)
    ensures IsBlank(out.inclusion) ==> PersistedOutput(out, id, now).inclusion == ModelOnly
    ensures PersistedOutput(out, id, now).inclusion == ModelOnly && IsBlank(out.scopeId) ==>
      PersistedOutput(out, id, now).scopeId == out.targetId
  {
    MigratedTagNotBlank(out.(id := id, role := "assistant", createdAt := now));
  }

  /** A `model_only` output with a scope is stored with that tag and that scope. */
  lemma PersistedScopedOutput(out: Message, id: string, now: int)
    requires out.inclusion == ModelOnly && !IsBlank(out.scopeId)
    ensures PersistedOutput(out, id, now).inclusion == ModelOnly && PersistedOutput(out, id, now).scopeId == out.scopeId
  {
    TagNotBlank(ModelOnly);
  }

  /** What `AppendAssistantMessages` stores is already in the form loading would give it. */
  lemma PersistedOutputMigrated(out: Message, id: string, now: int)
    ensures MigrateMessage(PersistedOutput(out, id, now)) == PersistedOutput(out, id, now)
  {
    MigrateMessageIdempotent(out.(id := id, role := "assistant", createdAt := now));
  }

  /** The messages `AppendAssistantMessages` appends: one per output with non-blank content, in order. */
  function AssistantEntries(outputs: seq<Message>, ids: seq<string>, now: int): (entries: seq<Message>)
    requires |ids| == |outputs|
  {
    EntriesUpTo(outputs, ids, |outputs|, now)
  }

  /** What the first `k` outputs of a run add, as the loop over them has it after `k` rounds. */
  function EntriesUpTo(outputs: seq<Message>, ids: seq<string>, k: nat, now: int): (entries: seq<Message>)
    requires |ids| == |outputs| && k <= |outputs|
    ensures |entries| <= k
  {
    if k == 0 then [] else EntriesUpTo(outputs, ids, k - 1, now) + AssistantEntry(outputs[k - 1], ids[k - 1], now)
  }

  /** What one output adds: nothing when its content is blank. */
  function AssistantEntry(out: Message, id: string, now: int): seq<Message> {
    if IsBlank(out.content) then [] else [PersistedOutput(out, id, now)]
  }

  /** The number of the first `k` outputs whose content is not blank. */
  function NonBlankCount(outputs: seq<Message>, k: nat): nat
    requires k <= |outputs|
  {
    if k == 0 then 0 else NonBlankCount(outputs, k - 1) + (if IsBlank(outputs[k - 1].content) then 0 else 1)
  }

  /** As many messages are stored as there are outputs with non-blank content. */
  lemma {:induction false} AssistantEntriesCount(outputs: seq<Message>, ids: seq<string>, k: nat, now: int)
    requires |ids| == |outputs| && k <= |outputs|
    ensures |EntriesUpTo(outputs, ids, k, now)| == NonBlankCount(outputs, k)
  {
    if k > 0 {
      AssistantEntriesCount(outputs, ids, k - 1, now);
    }
  }

  /** The output a stored reply was made from. */
  ghost function EntrySource(outputs: seq<Message>, ids: seq<string>, k: nat, now: int, j: nat): (i: nat)
    requires |ids| == |outputs| && k <= |outputs| && j < |EntriesUpTo(outputs, ids, k, now)|
    ensures i < k && !IsBlank(outputs[i].content)
    ensures EntriesUpTo(outputs, ids, k, now)[j] == PersistedOutput(outputs[i], ids[i], now)
  {
    var prev := EntriesUpTo(outputs, ids, k - 1, now);
    var last := AssistantEntry(outputs[k - 1], ids[k - 1], now);
    assert EntriesUpTo(outputs, ids, k, now) == prev + last;
    if j < |prev| then
      assert (prev + last)[j] == prev[j];
      EntrySource(outputs, ids, k - 1, now, j)
    else
      assert last == [PersistedOutput(outputs[k - 1], ids[k - 1], now)];
      k - 1
  }

  /** Every stored message is the stored form of an output with non-blank content. */
  lemma AssistantEntriesFromOutputs(outputs: seq<Message>, ids: seq<string>, k: nat, now: int, j: nat)
    requires |ids| == |outputs| && k <= |outputs| && j < |EntriesUpTo(outputs, ids, k, now)|
    ensures exists i | 0 <= i < k ::
      !IsBlank(outputs[i].content) && EntriesUpTo(outputs, ids, k, now)[j] == PersistedOutput(outputs[i], ids[i], now)
  {
    var i := EntrySource(outputs, ids, k, now, j);
  }

  /** The chat after `AppendUserPrompt`. */
  function PromptAppended(c: Chat, prompt: string, id: string, now: int): (r: Chat)
    ensures r.id == c.id && r.folderId == c.folderId && r.createdAt == c.createdAt && r.updatedAt == now
    ensures r.messages == c.messages + [UserMessage(id, prompt, now)]
    ensures r.title != c.title ==> r.title == TrimTitle(prompt)
  {
    var messages := c.messages + [UserMessage(id, prompt, now)];
    var title := if |messages| == 1 && TrimSpace(c.title) == NewChatTitle then TrimTitle(prompt) else c.title;
    c.(messages := messages, title := title, updatedAt := now)
  }

  /** Only the first prompt of a chat still called "New Chat" renames it. */
  lemma PromptAppendedTitle(c: Chat, prompt: string, id: string, now: int)
    ensures PromptAppended(c, prompt, id, now).title != c.title <==>
      c.messages == [] && TrimSpace(c.title) == NewChatTitle && TrimTitle(prompt) != c.title
  {
  }

  /** The message after `UpdateMessageInclusion` with an already normalised tag. */
  function Retagged(m: Message, tag: string, scopeId: string): (r: Message)
    ensures r.(inclusion := m.inclusion, scopeId := m.scopeId) == m
    ensures r.inclusion == tag
    ensures tag != ModelOnly ==> r.scopeId == ""
    ensures tag == ModelOnly ==> r.scopeId == scopeId || r.scopeId == m.targetId
  {
    var scope := if tag == ModelOnly then (if !IsBlank(scopeId) then scopeId else m.targetId) else "";
    m.(inclusion := tag, scopeId := scope)
  }

  /** A `model_only` tag takes the given scope when it is not blank, and the message's target otherwise. */
  lemma RetaggedScope(m: Message, scopeId: string)
    ensures !IsBlank(scopeId) ==> Retagged(m, ModelOnly, scopeId).scopeId == scopeId
    ensures IsBlank(scopeId) ==> Retagged(m, ModelOnly, scopeId).scopeId == m.targetId
  {
  }

  /** The chat after `UpdateChat`, once the new folder, if any, is known to exist. */
  function ChatEdited(c: Chat, title: string, folderId: string, now: int): (r: Chat)
    ensures r.id == c.id && r.messages == c.messages && r.createdAt == c.createdAt && r.updatedAt == now
    ensures r.folderId == folderId || r.folderId == c.folderId
  {
    var folder := if !IsBlank(folderId) && folderId != c.folderId then folderId else c.folderId;
    c.(folderId := folder, title := if !IsBlank(title) then TrimSpace(title) else c.title, updatedAt := now)
  }

  /** A blank folder id keeps the folder, a blank title keeps the title, and a new title is stored trimmed. */
  lemma ChatEditedFields(c: Chat, title: string, folderId: string, now: int)
    ensures ChatEdited(c, title, folderId, now).folderId == (if !IsBlank(folderId) then folderId else c.folderId)
    ensures ChatEdited(c, title, folderId, now).title == (if !IsBlank(title) then TrimSpace(title) else c.title)
  {
  }

  // ---------------------------------------------------------------------------
  // Lookups: the first element with a given id, as the search loops find it.

  function ChatIndex(chats: seq<Chat>, id: string): (k: nat)
    ensures k <= |chats|
    ensures k < |chats| ==> chats[k].id == id
    ensures forall j | 0 <= j < k :: chats[j].id != id
  {
    if chats == [] then 0
    else if chats[0].id == id then 0
    else 1 + ChatIndex(chats[1..], id)
  }

  function FolderIndex(folders: seq<Folder>, id: string): (k: nat)
    ensures k <= |folders|
    ensures k < |folders| ==> folders[k].id == id
    ensures forall j | 0 <= j < k :: folders[j].id != id
  {
    if folders == [] then 0
    else if folders[0].id == id then 0
    else 1 + FolderIndex(folders[1..], id)
  }

  function MessageIndex(messages: seq<Message>, id: string): (k: nat)
    ensures k <= |messages|
    ensures k < |messages| ==> messages[k].id == id
    ensures forall j | 0 <= j < k :: messages[j].id != id
  {
    if messages == [] then 0
    else if messages[0].id == id then 0
    else 1 + MessageIndex(messages[1..], id)
  }

  predicate FolderExists(folders: seq<Folder>, id: string) {
    FolderIndex(folders, id) < |folders|
  }

  /** The folders after `touchFolderLocked`: the first folder with the id gets the new time. */
  function Touched(folders: seq<Folder>, id: string, now: int): (r: seq<Folder>)
    ensures |r| == |folders|
    ensures forall k | 0 <= k < |folders| :: r[k].(updatedAt := folders[k].updatedAt) == folders[k]
    ensures forall k | 0 <= k < |folders| :: r[k].updatedAt != folders[k].updatedAt ==> k == FolderIndex(folders, id)
    ensures FolderExists(folders, id) ==> r[FolderIndex(folders, id)].updatedAt == now
  {
    var k := FolderIndex(folders, id);
    if k < |folders| then folders[k := folders[k].(updatedAt := now)] else folders
  }

  // ---------------------------------------------------------------------------
  // Loading.

  function MigrateChat(c: Chat): (r: Chat)
    ensures r.(messages := c.messages) == c && |r.messages| == |c.messages|
    ensures forall j | 0 <= j < |c.messages| :: r.messages[j] == MigrateMessage(c.messages[j])
  {
    c.(messages := seq(|c.messages|, j requires 0 <= j < |c.messages| => MigrateMessage(c.messages[j])))
  }

  function MigrateChats(chats: seq<Chat>): (r: seq<Chat>)
    ensures |r| == |chats|
    ensures forall k | 0 <= k < |chats| :: r[k] == MigrateChat(chats[k])
  {
    seq(|chats|, k requires 0 <= k < |chats| => MigrateChat(chats[k]))
  }

  /** After loading, no message has a blank tag. */
  lemma MigratedTagNotBlank(m: Message)
    ensures !IsBlank(MigrateMessage(m).inclusion)
  {
    if IsBlank(m.inclusion) {
      var tag := if m.role == "assistant" then ModelOnly else Always;
      assert MigrateMessage(m).inclusion == tag;
      TagNotBlank(tag);
    }
  }

  lemma MigratedTagsNotBlank(c: Chat)
    ensures forall j | 0 <= j < |c.messages| :: !IsBlank(MigrateChat(c).messages[j].inclusion)
  {
    forall j | 0 <= j < |c.messages|
      ensures !IsBlank(MigrateChat(c).messages[j].inclusion)
    {
      MigratedTagNotBlank(c.messages[j]);
    }
  }

  lemma MigrateChatIdempotent(c: Chat)
    ensures MigrateChat(MigrateChat(c)) == MigrateChat(c)
  {
    forall j | 0 <= j < |c.messages|
      ensures MigrateMessage(MigrateMessage(c.messages[j])) == MigrateMessage(c.messages[j])
    {
      MigrateMessageIdempotent(c.messages[j]);
    }
  }

  const DefaultOpenRouterBaseUrl: string := "https://openrouter.ai/api/v1"
  const DefaultOllamaBaseUrl: string := "http://localhost:11434"

  lemma DefaultBaseUrlsNotBlank()
    ensures !IsBlank(DefaultOpenRouterBaseUrl) && !IsBlank(DefaultOllamaBaseUrl)
  {
    assert !IsSpace(DefaultOpenRouterBaseUrl[0]) && !IsSpace(DefaultOllamaBaseUrl[0]);
  }

  /** The configuration with the defaults loading fills in for blank URLs and empty model lists. */
  function ConfigWithDefaults(cfg: ProviderConfig): (r: ProviderConfig)
    ensures r.openRouter.apiKey == cfg.openRouter.apiKey
    ensures |r.openRouter.models| > 0 && |r.ollama.models| > 0
    ensures |cfg.openRouter.models| > 0 ==> r.openRouter.models == cfg.openRouter.models
    ensures |cfg.ollama.models| > 0 ==> r.ollama.models == cfg.ollama.models
    ensures |cfg.openRouter.models| == 0 ==> r.openRouter.models == DefaultOpenRouterModels
    ensures |cfg.ollama.models| == 0 ==> r.ollama.models == DefaultOllamaModels
  {
    var or := cfg.openRouter;
    var ol := cfg.ollama;
    ProviderConfig(
      or.(baseUrl := if IsBlank(or.baseUrl) then DefaultOpenRouterBaseUrl else or.baseUrl,
          models := if |or.models| == 0 then DefaultOpenRouterModels else or.models),
      ol.(baseUrl := if IsBlank(ol.baseUrl) then DefaultOllamaBaseUrl else ol.baseUrl,
          models := if |ol.models| == 0 then DefaultOllamaModels else ol.models))
  }

  /** After loading, both base URLs are set: a URL that was set is kept, a blank one gets its default. */
  lemma ConfigDefaultsUrls(cfg: ProviderConfig)
    ensures !IsBlank(ConfigWithDefaults(cfg).openRouter.baseUrl) && !IsBlank(ConfigWithDefaults(cfg).ollama.baseUrl)
    ensures !IsBlank(cfg.openRouter.baseUrl) ==> ConfigWithDefaults(cfg).openRouter.baseUrl == cfg.openRouter.baseUrl
    ensures !IsBlank(cfg.ollama.baseUrl) ==> ConfigWithDefaults(cfg).ollama.baseUrl == cfg.ollama.baseUrl
    ensures IsBlank(cfg.openRouter.baseUrl) ==> ConfigWithDefaults(cfg).openRouter.baseUrl == DefaultOpenRouterBaseUrl
    ensures IsBlank(cfg.ollama.baseUrl) ==> ConfigWithDefaults(cfg).ollama.baseUrl == DefaultOllamaBaseUrl
  {
    DefaultBaseUrlsNotBlank();
  }

  /** Filling in the defaults a second time changes nothing. */
  lemma ConfigDefaultsIdempotent(cfg: ProviderConfig)
    ensures ConfigWithDefaults(ConfigWithDefaults(cfg)) == ConfigWithDefaults(cfg)
  {
    ConfigDefaultsUrls(cfg);
  }

  /** `touchFolderLocked` changes timestamps only, so it finds the same folders as before. */
  lemma {:induction false} FolderIndexSameIds(f: seq<Folder>, g: seq<Folder>, id: string)
    requires |f| == |g| && forall k | 0 <= k < |f| :: f[k].id == g[k].id
    ensures FolderIndex(f, id) == FolderIndex(g, id)
  {
    if f != [] && f[0].id != id {
      FolderIndexSameIds(f[1..], g[1..], id);
    }
  }

  /** Changing a chat in place, id kept, leaves every chat lookup as it was. */
  lemma {:induction false} ChatIndexSameIds(f: seq<Chat>, g: seq<Chat>, id: string)
    requires |f| == |g| && forall k | 0 <= k < |f| :: f[k].id == g[k].id
    ensures ChatIndex(f, id) == ChatIndex(g, id)
  {
    if f != [] && f[0].id != id {
      ChatIndexSameIds(f[1..], g[1..], id);
    }
  }

  /** Replacing one chat by one with the same id leaves every chat lookup as it was. */
  lemma ChatIndexUpdate(chats: seq<Chat>, i: nat, c: Chat, id: string)
    requires i < |chats| && c.id == chats[i].id
    ensures ChatIndex(chats[i := c], id) == ChatIndex(chats, id)
  {
    ChatIndexSameIds(chats[i := c], chats, id);
  }

  lemma TouchedKeepsFolders(folders: seq<Folder>, id: string, now: int, other: string)
    ensures FolderIndex(Touched(folders, id, now), other) == FolderIndex(folders, other)
  {
    var t := Touched(folders, id, now);
    assert forall k | 0 <= k < |folders| :: t[k].id == folders[k].id by {
      forall k | 0 <= k < |folders|
        ensures t[k].id == folders[k].id
      {
        assert t[k].(updatedAt := folders[k].updatedAt) == folders[k];
      }
    }
    FolderIndexSameIds(t, folders, other);
  }

  // ---------------------------------------------------------------------------
  // The store.

  class Store {
    var config: ProviderConfig
    var folders: seq<Folder>
    var chats: seq<Chat>

    /** `load` when no state file exists: the default configuration and one folder. */
    constructor Initial(folderId: string, now: int)
      ensures config == ProviderConfig(
        OpenRouterConfig("", DefaultOpenRouterBaseUrl, DefaultOpenRouterModels),
        OllamaConfig(DefaultOllamaBaseUrl, DefaultOllamaModels))
      ensures folders == [Folder(folderId, DefaultFolderName, "", None, now, now)]
      ensures chats == []
    {
      config := ProviderConfig(
        OpenRouterConfig("", DefaultOpenRouterBaseUrl, DefaultOpenRouterModels),
        OllamaConfig(DefaultOllamaBaseUrl, DefaultOllamaModels));
      folders := [Folder(folderId, DefaultFolderName, "", None, now, now)];
      chats := [];
    }

    /** `load` of a zero-length state file: an empty state, with no defaults filled in. */
    constructor EmptyFile()
      ensures config == ProviderConfig(OpenRouterConfig("", "", []), OllamaConfig("", []))
      ensures folders == [] && chats == []
    {
      config := ProviderConfig(OpenRouterConfig("", "", []), OllamaConfig("", []));
      folders := [];
      chats := [];
    }

    /**
     * `load` of a decoded state file: a default folder when there is none, the default
     * URLs and model lists where they are missing, and the inclusion migration.
     */
    constructor Decoded(cfg: ProviderConfig, savedFolders: seq<Folder>, savedChats: seq<Chat>, folderId: string, now: int)
      ensures config == ConfigWithDefaults(cfg)
      ensures folders == if savedFolders == [] then [Folder(folderId, DefaultFolderName, "", None, now, now)] else savedFolders
      ensures chats == MigrateChats(savedChats)
    {
      config := ConfigWithDefaults(cfg);
      folders := if |savedFolders| == 0 then [Folder(folderId, DefaultFolderName, "", None, now, now)] else savedFolders;
      chats := savedChats;
      new;
      MigrateInclusions();
    }

    /** The migration loop of `load`: every message of every chat, in place. */
    method MigrateInclusions()
      modifies this
      ensures chats == MigrateChats(old(chats))
      ensures config == old(config) && folders == old(folders)
    {
      for i := 0 to |chats|
        invariant |chats| == |old(chats)|
        invariant forall k | 0 <= k < i :: chats[k] == MigrateChat(old(chats)[k])
        invariant forall k | i <= k < |chats| :: chats[k] == old(chats)[k]
        invariant config == old(config) && folders == old(folders)
      {
        var messages := MigrateMessages(chats[i].messages);
        chats := chats[i := chats[i].(messages := messages)];
      }
    }

    /** The search loop over the chats. */
    method LocateChat(id: string) returns (i: nat)
      ensures i == ChatIndex(chats, id)
    {
      i := 0;
      while i < |chats| && chats[i].id != id
        invariant i <= |chats|
        invariant forall k | 0 <= k < i :: chats[k].id != id
      {
        i := i + 1;
      }
    }

    /** The search loop over the folders. */
    method LocateFolder(id: string) returns (i: nat)
      ensures i == FolderIndex(folders, id)
    {
      i := 0;
      while i < |folders| && folders[i].id != id
        invariant i <= |folders|
        invariant forall k | 0 <= k < i :: folders[k].id != id
      {
        i := i + 1;
      }
    }

    /** `GetChat`: the first chat with the id, if any. */
    method GetChat(id: string) returns (c: Option<Chat>)
      ensures c.None? <==> ChatIndex(chats, id) == |chats|
      ensures c.Some? ==> c.value.id == id && c.value == chats[ChatIndex(chats, id)]
    {
      var i := LocateChat(id);
      if i < |chats| {
        c := Some(chats[i]);
      } else {
        c := None;
      }
    }

    /** `FindFolder`: the first folder with the id, if any. */
    method FindFolder(id: string) returns (f: Option<Folder>)
      ensures f.None? <==> !FolderExists(folders, id)
      ensures f.Some? ==> f.value.id == id && f.value == folders[FolderIndex(folders, id)]
    {
      var i := LocateFolder(id);
      if i < |folders| {
        f := Some(folders[i]);
      } else {
        f := None;
      }
    }

    /** `touchFolderLocked`: stamps the folder with the id; false when there is none. */
    method TouchFolder(id: string, now: int) returns (found: bool)
      modifies this
      ensures folders == Touched(old(folders), id, now)
      ensures found == FolderExists(old(folders), id)
      ensures chats == old(chats) && config == old(config)
    {
      var i := LocateFolder(id);
      found := i < |folders|;
      if found {
        folders := folders[i := folders[i].(updatedAt := now)];
      }
    }

    /** `CreateChat`: a new empty chat in an existing folder, appended to the chats. */
    method CreateChat(folderId: string, title: string, chatId: string, now: int, write: WriteResult)
      returns (r: Result<Chat, StoreError>)
      modifies this
      ensures folders == old(folders) && config == old(config)
      ensures !FolderExists(old(folders), folderId) ==> r == Failure(FolderNotFound) && chats == old(chats)
      ensures FolderExists(old(folders), folderId) ==>
        var c := Chat(chatId, folderId, ChatTitle(title), [], now, now);
        && chats == old(chats) + [c]
        && r == (if write.None? then Success(c) else Failure(PersistFailed(write.value)))
    {
      var t := TrimSpace(title);
      if t == "" {
        t := NewChatTitle;
      }
      var folder := FindFolder(folderId);
      if folder.None? {
        r := Failure(FolderNotFound);
      } else {
        var c := Chat(chatId, folderId, t, [], now, now);
        chats := chats + [c];
        r := if write.Some? then Failure(PersistFailed(write.value)) else Success(c);
      }
    }

    /**
     * `UpdateChat`: moves the chat to another existing folder when a different non-blank
     * folder id is given, renames it when a non-blank title is given, and stamps the
     * chat and the folders involved.
     */
    method UpdateChat(id: string, title: string, folderId: string, now: int, write: WriteResult)
      returns (r: Result<Chat, StoreError>)
      modifies this
      ensures config == old(config)
      ensures ChatIndex(old(chats), id) == |old(chats)| ==>
        r == Failure(ChatNotFound) && chats == old(chats) && folders == old(folders)
      ensures ChatIndex(old(chats), id) < |old(chats)| ==>
        var i := ChatIndex(old(chats), id);
        var from := old(chats)[i].folderId;
        var moving := !IsBlank(folderId) && folderId != from;
        if moving && !FolderExists(old(folders), folderId) then
          r == Failure(FolderNotFound) && chats == old(chats) && folders == old(folders)
        else
          var c := ChatEdited(old(chats)[i], title, folderId, now);
          && chats == old(chats)[i := c]
          && folders == (if moving then Touched(Touched(old(folders), folderId, now), from, now)
                         else Touched(old(folders), from, now))
          && r == (if !FolderExists(old(folders), c.folderId) || !FolderExists(old(folders), from) then Failure(FolderNotFound)
                   else if write.Some? then Failure(PersistFailed(write.value))
                   else Success(c))
    {
      var i := LocateChat(id);
      if i == |chats| {
        return Failure(ChatNotFound);
      }
      var c := chats[i];
      var from := c.folderId;
      if !IsBlank(folderId) && folderId != c.folderId {
        var target := FindFolder(folderId);
        if target.None? {
          return Failure(FolderNotFound);
        }
        c := c.(folderId := folderId);
      }
      if !IsBlank(title) {
        c := c.(title := TrimSpace(title));
      }
      c := c.(updatedAt := now);
      chats := chats[i := c];
      ghost var before := folders;
      var found := TouchFolder(c.folderId, now);
      if !found {
        return Failure(FolderNotFound);
      }
      if from != c.folderId {
        TouchedKeepsFolders(before, c.folderId, now, from);
        found := TouchFolder(from, now);
        if !found {
          return Failure(FolderNotFound);
        }
      }
      if write.Some? {
        return Failure(PersistFailed(write.value));
      }
      return Success(c);
    }

    /**
     * `AppendUserPrompt`: appends the prompt to the chat as a user message, titles a new
     * chat after its first prompt, and stamps the chat and its folder. The message stays
     * appended even when the folder is missing or the write fails.
     */
    method AppendUserPrompt(chatId: string, prompt: string, messageId: string, now: int, write: WriteResult)
      returns (r: Outcome<StoreError>)
      modifies this
      ensures config == old(config)
      ensures ChatIndex(old(chats), chatId) == |old(chats)| ==>
        r == Fail(ChatNotFound) && chats == old(chats) && folders == old(folders)
      ensures ChatIndex(old(chats), chatId) < |old(chats)| ==>
        var i := ChatIndex(old(chats), chatId);
        && chats == old(chats)[i := PromptAppended(old(chats)[i], prompt, messageId, now)]
        && folders == Touched(old(folders), old(chats)[i].folderId, now)
        && r == (if !FolderExists(old(folders), old(chats)[i].folderId) then Fail(FolderNotFound) else Persisted(write))
    {
      var i := LocateChat(chatId);
      if i == |chats| {
        return Fail(ChatNotFound);
      }
      var c := chats[i];
      c := c.(messages := c.messages + [UserMessage(messageId, prompt, now)]);
      if |c.messages| == 1 && TrimSpace(c.title) == NewChatTitle {
        c := c.(title := TrimTitle(prompt));
      }
      c := c.(updatedAt := now);
      chats := chats[i := c];
      var found := TouchFolder(c.folderId, now);
      if !found {
        return Fail(FolderNotFound);
      }
      return Persisted(write);
    }

    /**
     * `AppendAssistantMessages`: appends one assistant message per output with non-blank
     * content, in order, with the inclusion defaults applied, and stamps the chat and its
     * folder. `ids[k]` is the id the k-th output would be given.
     */
    method AppendAssistantMessages(chatId: string, outputs: seq<Message>, ids: seq<string>, now: int, write: WriteResult)
      returns (r: Outcome<StoreError>)
      requires |ids| == |outputs|
      modifies this
      ensures config == old(config)
      ensures ChatIndex(old(chats), chatId) == |old(chats)| ==>
        r == Fail(ChatNotFound) && chats == old(chats) && folders == old(folders)
      ensures ChatIndex(old(chats), chatId) < |old(chats)| ==>
        var i := ChatIndex(old(chats), chatId);
        var c := old(chats)[i];
        && chats == old(chats)[i := c.(messages := c.messages + AssistantEntries(outputs, ids, now), updatedAt := now)]
        && folders == Touched(old(folders), c.folderId, now)
        && r == (if !FolderExists(old(folders), c.folderId) then Fail(FolderNotFound) else Persisted(write))
    {
      var i := LocateChat(chatId);
      if i == |chats| {
        return Fail(ChatNotFound);
      }
      var c := chats[i];
      var added := StoreOutputs(outputs, ids, now);
      chats := chats[i := c.(messages := c.messages + added, updatedAt := now)];
      var found := TouchFolder(c.folderId, now);
      if !found {
        return Fail(FolderNotFound);
      }
      return Persisted(write);
    }

    /**
     * `UpdateMessageInclusion`: sets the tag of one message of one chat and its scope, and
     * stamps the chat. An unknown tag is refused before anything is looked up.
     */
    method UpdateMessageInclusion(chatId: string, messageId: string, inclusion: string, scopeId: string,
                                  now: int, write: WriteResult)
      returns (r: Result<Message, StoreError>)
      modifies this
      ensures config == old(config) && folders == old(folders)
      ensures NormalizeInclusion(inclusion) == "" ==> r == Failure(InvalidInclusion) && chats == old(chats)
      ensures NormalizeInclusion(inclusion) != "" && ChatIndex(old(chats), chatId) == |old(chats)| ==>
        r == Failure(ChatNotFound) && chats == old(chats)
      ensures NormalizeInclusion(inclusion) != "" && ChatIndex(old(chats), chatId) < |old(chats)| ==>
        var c := old(chats)[ChatIndex(old(chats), chatId)];
        var j := MessageIndex(c.messages, messageId);
        if j == |c.messages| then
          r == Failure(MessageNotFound) && chats == old(chats)
        else
          var m := Retagged(c.messages[j], NormalizeInclusion(inclusion), scopeId);
          && chats == old(chats)[ChatIndex(old(chats), chatId) := c.(messages := c.messages[j := m], updatedAt := now)]
          && r == (if write.Some? then Failure(PersistFailed(write.value)) else Success(m))
    {
      var tag := NormalizeInclusion(inclusion);
      if tag == "" {
        r := Failure(InvalidInclusion);
      } else {
        var i := LocateChat(chatId);
        if i == |chats| {
          r := Failure(ChatNotFound);
        } else {
          var c := chats[i];
          var j := LocateMessage(c.messages, messageId);
          if j == |c.messages| {
            r := Failure(MessageNotFound);
          } else {
            var msg := Retag(c.messages[j], tag, scopeId);
            chats := chats[i := c.(messages := c.messages[j := msg], updatedAt := now)];
            r := if write.Some? then Failure(PersistFailed(write.value)) else Success(msg);
          }
        }
      }
    }
  }

  /** The tag and scope assignments of `UpdateMessageInclusion`, on the message found. */
  method Retag(m: Message, tag: string, scopeId: string) returns (msg: Message)
    ensures msg == Retagged(m, tag, scopeId)
  {
    msg := m.(inclusion := tag);
    if msg.inclusion == ModelOnly {
      if !IsBlank(scopeId) {
        msg := msg.(scopeId := scopeId);
      } else {
        msg := msg.(scopeId := msg.targetId);
      }
    } else {
      msg := msg.(scopeId := "");
    }
  }

  /** The loop of `AppendAssistantMessages` over the outputs of a run: the messages it appends. */
  method StoreOutputs(outputs: seq<Message>, ids: seq<string>, now: int) returns (added: seq<Message>)
    requires |ids| == |outputs|
    ensures added == AssistantEntries(outputs, ids, now)
  {
    added := [];
    for k := 0 to |outputs|
      invariant added == EntriesUpTo(outputs, ids, k, now)
    {
      if !IsBlank(outputs[k].content) {
        added := added + [PersistedOutput(outputs[k], ids[k], now)];
      }
    }
  }

  /** The inner loop of the load migration, over the messages of one chat. */
  method MigrateMessages(messages: seq<Message>) returns (migrated: seq<Message>)
    ensures |migrated| == |messages|
    ensures forall k | 0 <= k < |messages| :: migrated[k] == MigrateMessage(messages[k])
  {
    migrated := messages;
    for j := 0 to |migrated|
      invariant |migrated| == |messages|
      invariant forall k | 0 <= k < j :: migrated[k] == MigrateMessage(messages[k])
      invariant forall k | j <= k < |migrated| :: migrated[k] == messages[k]
    {
      migrated := migrated[j := MigrateMessage(migrated[j])];
    }
  }

  /** The search loop over the messages of a chat. */
  method LocateMessage(messages: seq<Message>, id: string) returns (j: nat)
    ensures j == MessageIndex(messages, id)
  {
    j := 0;
    while j < |messages| && messages[j].id != id
      invariant j <= |messages|
      invariant forall k | 0 <= k < j :: messages[k].id != id
    {
      j := j + 1;
    }
  }
}
