/**
 * What the chat-stream handler (backend/main.go) gives each target before it calls the
 * adapter: the provider configuration with the request's overrides merged in, and the
 * target's view of the conversation, filtered by the messages' inclusion tags.
 */
module History {
  import opened Wrappers
  import opened Text
  import opened Providers
  import opened State

  // ---------------------------------------------------------------------------
  // `mergeConfig`.

  /** A text setting after merging: the trimmed override when it is not blank, the base otherwise. */
  function OverrideText(base: string, override: string): (r: string)
    ensures IsBlank(override) ==> r == base
    ensures !IsBlank(override) ==> r == TrimSpace(override)
  {
    if IsBlank(override) then base else TrimSpace(override)
  }

  /** A model list after merging: the override when it is not empty, the base otherwise. */
  function OverrideList(base: seq<string>, override: seq<string>): (r: seq<string>)
    ensures |override| == 0 ==> r == base
    ensures |override| > 0 ==> r == override
  {
    if |override| > 0 then override else base
  }

  /**
   * `mergeConfig`: a copy of the stored configuration on which each setting of the
   * request's configuration that is given overrides the stored one, one field at a time.
   */
  function MergeConfig(base: ProviderConfig, override: ProviderConfig): (merged: ProviderConfig)
    ensures merged.openRouter.apiKey == OverrideText(base.openRouter.apiKey, override.openRouter.apiKey)
    ensures merged.openRouter.baseUrl == OverrideText(base.openRouter.baseUrl, override.openRouter.baseUrl)
    ensures merged.ollama.baseUrl == OverrideText(base.ollama.baseUrl, override.ollama.baseUrl)
    ensures merged.openRouter.models == OverrideList(base.openRouter.models, override.openRouter.models)
    ensures merged.ollama.models == OverrideList(base.ollama.models, override.ollama.models)
  {
    var m0 := base;
    var m1 := if !IsBlank(override.openRouter.apiKey)
      then m0.(openRouter := m0.openRouter.(apiKey := TrimSpace(override.openRouter.apiKey))) else m0;
    var m2 := if !IsBlank(override.openRouter.baseUrl)
      then m1.(openRouter := m1.openRouter.(baseUrl := TrimSpace(override.openRouter.baseUrl))) else m1;
    var m3 := if !IsBlank(override.ollama.baseUrl)
      then m2.(ollama := m2.ollama.(baseUrl := TrimSpace(override.ollama.baseUrl))) else m2;
    var m4 := if |override.openRouter.models| > 0
      then m3.(openRouter := m3.openRouter.(models := override.openRouter.models)) else m3;
    if |override.ollama.models| > 0 then m4.(ollama := m4.ollama.(models := override.ollama.models)) else m4
  }

  /** A request that overrides nothing runs on the stored configuration as it is. */
  lemma MergeEmptyOverride(base: ProviderConfig, override: ProviderConfig)
    requires IsBlank(override.openRouter.apiKey) && IsBlank(override.openRouter.baseUrl)
    requires IsBlank(override.ollama.baseUrl)
    requires override.openRouter.models == [] && override.ollama.models == []
    ensures MergeConfig(base, override) == base
  {
    var merged := MergeConfig(base, override);
    assert merged.openRouter == base.openRouter;
    assert merged.ollama == base.ollama;
  }

  /** Merging the same overrides a second time changes nothing more. */
  lemma MergeIdempotent(base: ProviderConfig, override: ProviderConfig)
    ensures MergeConfig(MergeConfig(base, override), override) == MergeConfig(base, override)
  {
    var once := MergeConfig(base, override);
    var twice := MergeConfig(once, override);
    assert twice.openRouter == once.openRouter;
    assert twice.ollama == once.ollama;
  }

  // ---------------------------------------------------------------------------
  // `messageIncludedForTarget`.

  /**
   * `messageIncludedForTarget`: whether a stored message is replayed to the target with
   * id `targetId`, decided by its tag, lower-cased and trimmed. `dont_include` never,
   * `always` always; `model_only` to the message's scope, or failing that its target
   * (every target when both are blank); any other tag, blank included, to every target
   * for a message that is not an assistant reply, and to its own non-blank target only
   * for an assistant reply.
   */
  function IncludedForTarget(m: Message, targetId: string): bool {
    Decide(TrimSpace(ToLower(m.inclusion)), m.role, TrimSpace(m.scopeId), TrimSpace(m.targetId), targetId)
  }

  /** The decision of `messageIncludedForTarget` once the tag, the scope and the target are trimmed. */
  function Decide(tag: string, role: string, scope: string, target: string, targetId: string): bool {
    if tag == DontInclude then false
    else if tag == Always then true
    else if tag == ModelOnly then
      var s := if scope == "" then target else scope;
      s == "" || s == targetId
    else if role == "assistant" then target != "" && target == targetId
    else true
  }

  /**
   * The filter case by case, on the message itself: `dont_include` never, `always` always;
   * `model_only` to the scope, or failing that the target, and to every target when both
   * are blank; any other tag to every target for a message that is not an assistant
   * reply, and for a reply to its own non-blank target only.
   */
  lemma IncludedForTargetCases(m: Message, targetId: string)
    ensures var tag := TrimSpace(ToLower(m.inclusion));
      var scope := if IsBlank(m.scopeId) then TrimSpace(m.targetId) else TrimSpace(m.scopeId);
      && (tag == DontInclude ==> !IncludedForTarget(m, targetId))
      && (tag == Always ==> IncludedForTarget(m, targetId))
      && (tag == ModelOnly ==> (IncludedForTarget(m, targetId) <==> scope == "" || scope == targetId))
      && (!IsInclusionTag(tag) && m.role == "assistant" ==>
            (IncludedForTarget(m, targetId) <==> !IsBlank(m.targetId) && TrimSpace(m.targetId) == targetId))
      && (!IsInclusionTag(tag) && m.role != "assistant" ==> IncludedForTarget(m, targetId))
  {
    TrimSpaceEmptyIffBlank(m.scopeId);
    TrimSpaceEmptyIffBlank(m.targetId);
  }

  /** The tag is read lower-cased and trimmed: storing it in that form changes no decision. */
  lemma IncludedIgnoresTagCase(m: Message, targetId: string)
    ensures IncludedForTarget(m.(inclusion := TrimSpace(ToLower(m.inclusion))), targetId) == IncludedForTarget(m, targetId)
  {
    var t := TrimSpace(ToLower(m.inclusion));
    TrimSpaceLower(m.inclusion);
    LowerTrimIdempotent(m.inclusion);
    TrimSpaceLower(t);
    assert TrimSpace(ToLower(t)) == t;
  }

  /** The store's tag vocabulary and the filter agree: a tag is read the same before and after `normalizeInclusion`. */
  lemma NormalizedTagSameDecision(m: Message, targetId: string)
    requires NormalizeInclusion(m.inclusion) != ""
    ensures IncludedForTarget(m.(inclusion := NormalizeInclusion(m.inclusion)), targetId) == IncludedForTarget(m, targetId)
  {
    TagNormal(NormalizeInclusion(m.inclusion));
  }

  /** After `UpdateMessageInclusion` with `dont_include` the message is replayed to no target. */
  lemma DontIncludeNeverReplayed(m: Message, scopeId: string, targetId: string)
    ensures !IncludedForTarget(Retagged(m, DontInclude, scopeId), targetId)
  {
    TagNormal(DontInclude);
  }

  /** After `UpdateMessageInclusion` with `always` the message is replayed to every target. */
  lemma AlwaysReplayed(m: Message, scopeId: string, targetId: string)
    ensures IncludedForTarget(Retagged(m, Always, scopeId), targetId)
  {
    TagNormal(Always);
  }

  /**
   * A message scoped with `model_only` to a target id with no white space at its ends is
   * replayed to that target and to no other.
   */
  lemma ModelOnlyReplayedToScope(m: Message, targetId: string)
    requires m.inclusion == ModelOnly && m.scopeId != [] && !IsSpace(m.scopeId[0]) && !IsSpace(m.scopeId[|m.scopeId| - 1])
    ensures IncludedForTarget(m, targetId) <==> targetId == m.scopeId
  {
    TagNormal(ModelOnly);
    TrimSpaceFixed(m.scopeId);
    assert IncludedForTarget(m, targetId) == Decide(ModelOnly, m.role, m.scopeId, TrimSpace(m.targetId), targetId);
    DecideScoped(m.role, m.scopeId, TrimSpace(m.targetId), targetId);
  }

  /** A `model_only` message with a scope goes to the target with exactly that id. */
  lemma DecideScoped(role: string, scope: string, target: string, targetId: string)
    requires scope != ""
    ensures Decide(ModelOnly, role, scope, target, targetId) <==> scope == targetId
  {
  }

  /**
   * The load migration does not change which targets see a message, except for a legacy
   * assistant reply without a tag whose scope is set or whose target is blank: the migration
   * turns it into `model_only`, and the scope then decides instead of the target
   * (`MigrationRedirectsScopedReply`, `MigrationWidensUntargetedReply`).
   */
  lemma MigrationKeepsDecision(m: Message, targetId: string)
    requires !IsBlank(m.inclusion) || m.role != "assistant" || (IsBlank(m.scopeId) && !IsBlank(m.targetId))
    ensures IncludedForTarget(MigrateMessage(m), targetId) == IncludedForTarget(m, targetId)
  {
    if IsBlank(m.inclusion) && m.role == "assistant" {
      MigrationKeepsUntaggedReply(m, targetId);
    } else if IsBlank(m.inclusion) {
      MigrationKeepsUntaggedOther(m, targetId);
    } else if m.inclusion == ModelOnly && IsBlank(m.scopeId) {
      MigrationKeepsUnscoped(m, targetId);
    } else {
      assert MigrateMessage(m) == m;
    }
  }

  /** An untagged reply with a target and no scope becomes `model_only` scoped to that target, which it already was in effect. */
  lemma MigrationKeepsUntaggedReply(m: Message, targetId: string)
    requires IsBlank(m.inclusion) && m.role == "assistant" && IsBlank(m.scopeId) && !IsBlank(m.targetId)
    ensures IncludedForTarget(MigrateMessage(m), targetId) == IncludedForTarget(m, targetId)
  {
    assert MigrateMessage(m) == m.(inclusion := ModelOnly, scopeId := m.targetId);
    BlankLower(m.inclusion);
    TagNormal(ModelOnly);
    TrimSpaceEmptyIffBlank(m.targetId);
    DecideUntaggedReply(TrimSpace(m.scopeId), TrimSpace(m.targetId), targetId);
  }

  /** An untagged message that is not a reply becomes `always`, which it already was in effect. */
  lemma MigrationKeepsUntaggedOther(m: Message, targetId: string)
    requires IsBlank(m.inclusion) && m.role != "assistant"
    ensures IncludedForTarget(MigrateMessage(m), targetId) == IncludedForTarget(m, targetId)
  {
    assert Always != ModelOnly by { assert Always[0] != ModelOnly[0]; }
    var migrated := MigrateMessage(m);
    assert migrated == m.(inclusion := Always);
    BlankLower(m.inclusion);
    assert IncludedForTarget(m, targetId) == Decide("", m.role, TrimSpace(m.scopeId), TrimSpace(m.targetId), targetId);
    TagNormal(Always);
    assert IncludedForTarget(migrated, targetId) == Decide(Always, m.role, TrimSpace(m.scopeId), TrimSpace(m.targetId), targetId);
  }

  /** A `model_only` message without a scope gets its target as scope, which already decided for it. */
  lemma MigrationKeepsUnscoped(m: Message, targetId: string)
    requires m.inclusion == ModelOnly && IsBlank(m.scopeId)
    ensures IncludedForTarget(MigrateMessage(m), targetId) == IncludedForTarget(m, targetId)
  {
    TagNotBlank(ModelOnly);
    assert MigrateMessage(m) == m.(scopeId := m.targetId);
    TagNormal(ModelOnly);
    TrimSpaceEmptyIffBlank(m.scopeId);
    DecideScopeFallback(m.role, TrimSpace(m.targetId), targetId);
  }

  /** A `model_only` message without a scope is decided by its target, as if that were its scope. */
  lemma DecideScopeFallback(role: string, target: string, targetId: string)
    ensures Decide(ModelOnly, role, "", target, targetId) == Decide(ModelOnly, role, target, target, targetId)
  {
  }

  /** An untagged reply with a target is decided as a `model_only` reply scoped to that target. */
  lemma DecideUntaggedReply(scope: string, target: string, targetId: string)
    requires target != ""
    ensures Decide("", "assistant", scope, target, targetId) == Decide(ModelOnly, "assistant", target, target, targetId)
  {
  }

  /**
   * The widening the migration does: a legacy assistant reply without a tag, a scope or a
   * target is replayed to no target before loading, and to every target after it.
   */
  lemma MigrationWidensUntargetedReply(m: Message, targetId: string)
    requires IsBlank(m.inclusion) && m.role == "assistant" && IsBlank(m.scopeId) && IsBlank(m.targetId)
    ensures !IncludedForTarget(m, targetId)
    ensures IncludedForTarget(MigrateMessage(m), targetId)
  {
    var r := MigrateMessage(m);
    TrimSpaceEmptyIffBlank(m.targetId);
    BlankLower(m.inclusion);
    assert r.inclusion == ModelOnly && r.scopeId == m.targetId;
    TagNormal(ModelOnly);
  }

  /**
   * The redirect the migration does: a legacy assistant reply without a tag but with a
   * scope is replayed to its own target before loading, and to its scope after it.
   */
  lemma MigrationRedirectsScopedReply(m: Message, targetId: string)
    requires IsBlank(m.inclusion) && m.role == "assistant" && !IsBlank(m.scopeId)
    ensures IncludedForTarget(m, targetId) <==> TrimSpace(m.targetId) != "" && TrimSpace(m.targetId) == targetId
    ensures IncludedForTarget(MigrateMessage(m), targetId) <==> TrimSpace(m.scopeId) == targetId
  {
    var r := MigrateMessage(m);
    BlankLower(m.inclusion);
    assert r == m.(inclusion := ModelOnly);
    TagNormal(ModelOnly);
    TrimSpaceEmptyIffBlank(m.scopeId);
  }

  // ---------------------------------------------------------------------------
  // `buildTargetHistory`.

  /** A message `buildTargetHistory` keeps for the target: some content, some role, and included. */
  predicate Replayable(m: Message, targetId: string) {
    !IsBlank(m.content) && !IsBlank(m.role) && IncludedForTarget(m, targetId)
  }

  function Replayed(m: Message): HistoryMessage {
    HistoryMessage(m.role, m.content)
  }

  /** The target's history: the role and content of the replayable messages, in order. */
  function TargetHistory(messages: seq<Message>, targetId: string): (h: seq<HistoryMessage>)
    ensures |h| <= |messages|
  {
    if messages == [] then []
    else
      var n := |messages| - 1;
      TargetHistory(messages[..n], targetId) + (if Replayable(messages[n], targetId) then [Replayed(messages[n])] else [])
  }

  /** `buildTargetHistory`: the loop that appends one history entry per message it keeps. */
  method BuildTargetHistory(messages: seq<Message>, targetId: string) returns (history: seq<HistoryMessage>)
    ensures history == TargetHistory(messages, targetId)
  {
    history := [];
    for k := 0 to |messages|
      invariant history == TargetHistory(messages[..k], targetId)
    {
      assert messages[..k + 1][..k] == messages[..k];
      var msg := messages[k];
      TrimSpaceEmptyIffBlank(msg.content);
      TrimSpaceEmptyIffBlank(msg.role);
      if TrimSpace(msg.content) != "" && TrimSpace(msg.role) != "" && IncludedForTarget(msg, targetId) {
        history := history + [HistoryMessage(msg.role, msg.content)];
      }
    }
    assert messages[..|messages|] == messages;
  }

  /** Filtering distributes over concatenation, so the history keeps the messages' order. */
  lemma {:induction false} TargetHistoryAppend(a: seq<Message>, b: seq<Message>, targetId: string)
    ensures TargetHistory(a + b, targetId) == TargetHistory(a, targetId) + TargetHistory(b, targetId)
    decreases |b|
  {
    if b == [] {
      assert a + b == a;
    } else {
      var n := |b| - 1;
      assert (a + b)[..|a + b| - 1] == a + b[..n];
      assert (a + b)[|a + b| - 1] == b[n];
      TargetHistoryAppend(a, b[..n], targetId);
    }
  }

  /** Every replayable message is in the history, with its role and content. */
  lemma {:induction false} TargetHistoryComplete(messages: seq<Message>, targetId: string, i: nat)
    requires i < |messages| && Replayable(messages[i], targetId)
    ensures Replayed(messages[i]) in TargetHistory(messages, targetId)
  {
    var n := |messages| - 1;
    var earlier := TargetHistory(messages[..n], targetId);
    var h := TargetHistory(messages, targetId);
    assert h[..|earlier|] == earlier;
    if i < n {
      assert messages[..n][i] == messages[i];
      TargetHistoryComplete(messages[..n], targetId, i);
      var j :| 0 <= j < |earlier| && earlier[j] == Replayed(messages[i]);
      assert h[j] == earlier[j];
    } else {
      assert h[|earlier|] == Replayed(messages[i]);
    }
  }

  /** The message a history entry was replayed from. */
  ghost function HistorySource(messages: seq<Message>, targetId: string, j: nat): (i: nat)
    requires j < |TargetHistory(messages, targetId)|
    ensures i < |messages| && Replayable(messages[i], targetId)
    ensures TargetHistory(messages, targetId)[j] == Replayed(messages[i])
    decreases |messages|
  {
    var n := |messages| - 1;
    if j < |TargetHistory(messages[..n], targetId)| then
      var i := HistorySource(messages[..n], targetId, j);
      assert messages[..n][i] == messages[i];
      i
    else n
  }

  /** Every history entry is the role and content of a replayable message. */
  lemma TargetHistorySound(messages: seq<Message>, targetId: string, j: nat)
    requires j < |TargetHistory(messages, targetId)|
    ensures exists i | 0 <= i < |messages| :: Replayable(messages[i], targetId) && TargetHistory(messages, targetId)[j] == Replayed(messages[i])
  {
    var i := HistorySource(messages, targetId, j);
  }
}
