/**
 * The context-budget report of `/api/context-limits` (backend/context_limits.go): for
 * each target, the model's context window as the provider reports it, an estimate of
 * the tokens the next request would use, what is left and the share used.
 *
 * The lookups' HTTP exchanges are parameters, reduced to what the code reads from them
 * once decoded. A decoded JSON object that Go ranges over as a map is given as the
 * sequence of its entries in the order that `range` visits them, which Go leaves
 * unspecified: the model is deterministic in that order.
 */
module ContextLimits {
  import opened Wrappers
  import opened Text
  import opened Providers
  import opened State
  import opened History

  const MissingTarget: string := "missing provider/model"
  const UnsupportedProvider: string := "unsupported provider"
  const LengthUnavailable: string := "context length unavailable"

  // ---------------------------------------------------------------------------
  // `toInt`

  /**
   * A `context_length` value as `encoding/json` decoded it into an `any`, by its Go type.
   * A `float64` or `float32` is carried as `int(n)`, its truncation toward zero; `int`
   * and `int64` are both 64 bits wide; a field that is missing is `JsonOther` (nil).
   */
  datatype JsonValue =
    | JsonFloat(truncated: int)
    | JsonInt(n: int)
    | JsonNumber(text: string)
    | JsonString(s: string)
    | JsonOther

  /** `toInt`: numbers convert, a `json.Number` must be a decimal integer, a string may be padded. */
  function ToInt(v: JsonValue): (r: Option<int>)
    ensures v.JsonOther? ==> r == None
    ensures (v.JsonNumber? || v.JsonString?) && r.Some? ==> MinInt64 <= r.value <= MaxInt64
  {
    match v
    case JsonFloat(n) => Some(n)
    case JsonInt(n) => Some(n)
    case JsonNumber(text) => ParseInt(text)
    case JsonString(s) => ParseInt(TrimSpace(s))
    case JsonOther => None
  }

  /** Every 64-bit integer reads back from its decimal form, as a string or as a `json.Number`. */
  lemma ToIntDecimalRoundTrip(n: int)
    requires MinInt64 <= n <= MaxInt64
    ensures ToInt(JsonString(FormatInt(n))) == Some(n)
    ensures ToInt(JsonNumber(FormatInt(n))) == Some(n)
  {
    ParseFormatRoundTrip(n);
    var s := FormatInt(n);
    if n < 0 {
      assert s == "-" + Digits(-n);
      assert !IsSpace(s[0]) && !IsSpace(s[|s| - 1]);
    } else {
      assert s == Digits(n);
      assert IsDigit(s[0]) && IsDigit(s[|s| - 1]);
    }
    TrimSpaceFixed(s);
  }

  /** A string is read after trimming, so padding never changes it; a `json.Number` is read as it is. */
  lemma ToIntStringPadding(s: string)
    ensures ToInt(JsonString(s)) == ToInt(JsonString(TrimSpace(s)))
    ensures s != [] && IsSpace(s[0]) ==> ToInt(JsonNumber(s)) == None
  {
    TrimSpaceIdempotent(s);
    if s != [] && IsSpace(s[0]) {
      ParseIntRejectsLead(s);
    }
  }

  // ---------------------------------------------------------------------------
  // `estimateContextTokens`

  /** The byte length of the contents of a history. */
  function HistoryBytes(history: seq<HistoryMessage>): nat {
    if history == [] then 0 else HistoryBytes(history[..|history| - 1]) + Utf8Len(history[|history| - 1].content)
  }

  /** The bytes the estimate counts: the history the target would be sent, and the prompt. */
  function EstimatedBytes(messages: seq<Message>, targetId: string, prompt: string): nat {
    HistoryBytes(TargetHistory(messages, targetId)) + Utf8Len(prompt)
  }

  /** One token per started four bytes, and never less than one token. */
  function EstimatedTokens(messages: seq<Message>, targetId: string, prompt: string): (n: int) {
    var chars := EstimatedBytes(messages, targetId, prompt);
    if chars <= 0 then 1 else (chars + 3) / 4
  }

  /** The estimate is the ceiling of a quarter of the byte count, and at least 1. */
  lemma EstimateIsCeiling(messages: seq<Message>, targetId: string, prompt: string)
    ensures var chars := EstimatedBytes(messages, targetId, prompt);
      var n := EstimatedTokens(messages, targetId, prompt);
      && n >= 1
      && (chars == 0 ==> n == 1)
      && (chars > 0 ==> 4 * (n - 1) < chars <= 4 * n)
  {
    var chars := EstimatedBytes(messages, targetId, prompt);
    if chars > 0 {
      var n := (chars + 3) / 4;
      assert 4 * n <= chars + 3 < 4 * n + 4;
    }
  }

  /** `estimateContextTokens`: the loop that adds up the byte lengths of the target's history. */
  method EstimateContextTokens(messages: seq<Message>, targetId: string, prompt: string) returns (n: int)
    ensures n == EstimatedTokens(messages, targetId, prompt)
  {
    var history := BuildTargetHistory(messages, targetId);
    var chars := 0;
    for k := 0 to |history|
      invariant chars == HistoryBytes(history[..k])
    {
      assert history[..k + 1][..k] == history[..k];
      chars := chars + Utf8Len(history[k].content);
    }
    assert history[..|history|] == history;
    chars := chars + Utf8Len(prompt);
    if chars <= 0 {
      n := 1;
    } else {
      n := (chars + 3) / 4;
    }
  }

  // ---------------------------------------------------------------------------
  // Looking a context window up.

  /** One entry of a decoded object or list: a key (or a model id) and its `context_length`. */
  datatype Field = Field(key: string, value: JsonValue)

  /**
   * What a lookup request came back with: a transport error, or a response with its
   * status, the (at most 512-byte) body read for an error report, and the decoded body
   * or the decoder's error.
   */
  datatype Exchange<T> =
    | Unreachable(message: string)
    | Answered(status: int, errorBody: string, decoded: Result<T, string>)

  /** The decoded `/api/show` answer of Ollama: `model_info` and `details`, in `range` order. */
  datatype ShowBody = ShowBody(modelInfo: seq<Field>, details: seq<Field>)

  /**
   * The exchanges of one target's lookup: OpenRouter's single-model fast path (the
   * decoded `data.context_length` when that request was made, answered below 300 and
   * decoded), its `/models` list, and Ollama's `/api/show`. Only the provider's own are read.
   */
  datatype LimitExchange = LimitExchange(single: Option<JsonValue>, list: Exchange<seq<Field>>, show: Exchange<ShowBody>)

  /** An entry counts when its key matches and its value converts to a positive integer. */
  predicate Accepted(f: Field, wanted: KeyMatch) {
    KeyMatches(wanted, f.key) && ToInt(f.value).Some? && ToInt(f.value).value > 0
  }

  /** The value of the first accepted entry. */
  function FirstPositive(fields: seq<Field>, wanted: KeyMatch): (r: Option<int>)
    ensures r.Some? ==> r.value > 0
  {
    if fields == [] then None
    else if Accepted(fields[0], wanted) then ToInt(fields[0].value)
    else FirstPositive(fields[1..], wanted)
  }

  /** The scan finds nothing exactly when no entry is accepted. */
  lemma {:induction false} FirstPositiveNone(fields: seq<Field>, wanted: KeyMatch)
    ensures FirstPositive(fields, wanted).None? <==> forall i | 0 <= i < |fields| :: !Accepted(fields[i], wanted)
  {
    if fields != [] && !Accepted(fields[0], wanted) {
      var rest := fields[1..];
      FirstPositiveNone(rest, wanted);
      assert forall i | 1 <= i < |fields| :: fields[i] == rest[i - 1];
    }
  }

  /** What the scan finds is the value of an accepted entry before which the scan finds nothing. */
  lemma {:induction false} FirstPositiveIndex(fields: seq<Field>, wanted: KeyMatch) returns (i: nat)
    requires FirstPositive(fields, wanted).Some?
    ensures i < |fields| && Accepted(fields[i], wanted) && ToInt(fields[i].value) == FirstPositive(fields, wanted)
    ensures FirstPositive(fields[..i], wanted).None?
  {
    if Accepted(fields[0], wanted) {
      i := 0;
    } else {
      var rest := fields[1..];
      var j := FirstPositiveIndex(rest, wanted);
      i := j + 1;
      assert fields[i] == rest[j];
      assert fields[..i][0] == fields[0] && fields[..i][1..] == rest[..j];
    }
  }

  /** The loops of both lookups: the first accepted entry, returned as soon as it is met. */
  method ScanFields(fields: seq<Field>, wanted: KeyMatch) returns (found: Option<int>)
    ensures found == FirstPositive(fields, wanted)
  {
    for k := 0 to |fields|
      invariant FirstPositive(fields[k..], wanted) == FirstPositive(fields, wanted)
    {
      assert fields[k..][0] == fields[k] && fields[k..][1..] == fields[k + 1..];
      if KeyMatches(wanted, fields[k].key) {
        var n := ToInt(fields[k].value);
        if n.Some? && n.value > 0 {
          return n;
        }
      }
    }
    assert fields[|fields|..] == [];
    return None;
  }

  /**
   * Which entries a scan looks for: OpenRouter's list entry whose id, trimmed and
   * lower-cased, is the model's; or an Ollama key that contains a word once lower-cased.
   */
  datatype KeyMatch = ModelId(model: string) | KeyContaining(word: string)

  predicate KeyMatches(m: KeyMatch, key: string) {
    match m
    case ModelId(model) => ToLower(TrimSpace(key)) == ToLower(TrimSpace(model))
    case KeyContaining(word) => Contains(ToLower(key), word)
  }

  /** The `model_info` keys that hold a context length. */
  const InfoKey: KeyMatch := KeyContaining("context_length")

  /** The `details` keys that hold a context length. */
  const DetailsKey: KeyMatch := KeyContaining("context")

  /** What a failed exchange reports: its transport error, its status and body, or the decoder's error. */
  function ExchangeError<T>(name: string, ex: Exchange<T>): string
    requires !(ex.Answered? && ex.status < 300 && ex.decoded.Success?)
  {
    match ex
    case Unreachable(m) => m
    case Answered(status, body, decoded) =>
      if status >= 300 then StatusError(name, status, body) else decoded.error
  }

  /** `fmt.Errorf("%s %d: %s")` of a lookup answered with an error status. */
  function StatusError(name: string, status: int, body: string): string {
    name + " " + FormatInt(status) + ": " + TrimSpace(body)
  }

  /** `fetchOpenRouterContextLimit`: the single-model answer when it is usable, else the list. */
  function OpenRouterLimit(model: string, ex: LimitExchange): Result<int, string> {
    if ex.single.Some? && ToInt(ex.single.value).Some? && ToInt(ex.single.value).value > 0 then
      Success(ToInt(ex.single.value).value)
    else ListLimit(model, ex.list)
  }

  /** The fallback of `fetchOpenRouterContextLimit`: the first listed model with the id and a usable length. */
  function ListLimit(model: string, list: Exchange<seq<Field>>): Result<int, string> {
    if list.Answered? && list.status < 300 && list.decoded.Success? then
      match FirstPositive(list.decoded.value, ModelId(model))
      case Some(n) => Success(n)
      case None => Failure(LengthUnavailable)
    else Failure(ExchangeError("openrouter", list))
  }

  /** `fetchOllamaContextLimit`: a `model_info` key first, then a `details` key. */
  function OllamaLimit(ex: LimitExchange): Result<int, string> {
    if ex.show.Answered? && ex.show.status < 300 && ex.show.decoded.Success? then
      var body := ex.show.decoded.value;
      match FirstPositive(body.modelInfo, InfoKey)
      case Some(n) => Success(n)
      case None =>
        match FirstPositive(body.details, DetailsKey)
        case Some(n) => Success(n)
        case None => Failure(LengthUnavailable)
    else Failure(ExchangeError("ollama", ex.show))
  }

  /** The lookup by provider; any other provider is unsupported. */
  function Lookup(provider: string, model: string, ex: LimitExchange): Result<int, string> {
    if provider == "openrouter" then OpenRouterLimit(model, ex)
    else if provider == "ollama" then OllamaLimit(ex)
    else Failure(UnsupportedProvider)
  }

  /** A context window that a lookup reports is positive. */
  lemma LookupPositive(provider: string, model: string, ex: LimitExchange)
    ensures Lookup(provider, model, ex).Success? ==> Lookup(provider, model, ex).value > 0
  {
  }

  /**
   * A window found in the `/models` list is that of the first listed model whose id
   * matches and whose length is usable.
   */
  lemma ListLimitFound(model: string, list: Exchange<seq<Field>>)
    requires ListLimit(model, list).Success?
    ensures list.Answered? && list.status < 300 && list.decoded.Success?
    ensures exists i | 0 <= i < |list.decoded.value| ::
      && Accepted(list.decoded.value[i], ModelId(model))
      && ToInt(list.decoded.value[i].value) == Some(ListLimit(model, list).value)
      && forall k | 0 <= k < i :: !Accepted(list.decoded.value[k], ModelId(model))
  {
    var fields := list.decoded.value;
    var found := FirstPositive(fields, ModelId(model));
    assert found.Some? && ListLimit(model, list) == Success(found.value);
    var i := FirstPositiveIndex(fields, ModelId(model));
    FirstPositiveNone(fields[..i], ModelId(model));
    assert forall k | 0 <= k < i :: fields[k] == fields[..i][k];
  }

  /**
   * OpenRouter's window comes from the fast path when that answer is usable, and
   * otherwise from a listed model whose id matches and whose length is usable.
   */
  lemma OpenRouterLimitSource(model: string, ex: LimitExchange)
    requires OpenRouterLimit(model, ex).Success?
    ensures var n := OpenRouterLimit(model, ex).value;
      || (ex.single.Some? && ToInt(ex.single.value) == Some(n))
      || (ex.list.Answered? && ex.list.decoded.Success? && exists i | 0 <= i < |ex.list.decoded.value| ::
            Accepted(ex.list.decoded.value[i], ModelId(model)) && ToInt(ex.list.decoded.value[i].value) == Some(n))
  {
    if !(ex.single.Some? && ToInt(ex.single.value).Some? && ToInt(ex.single.value).value > 0) {
      ListLimitFound(model, ex.list);
    }
  }

  /** Ollama's window comes from `details` only when no `model_info` entry is usable. */
  lemma OllamaPrefersModelInfo(ex: LimitExchange, i: nat)
    requires ex.show.Answered? && ex.show.status < 300 && ex.show.decoded.Success?
    requires i < |ex.show.decoded.value.modelInfo| && Accepted(ex.show.decoded.value.modelInfo[i], InfoKey)
    ensures FirstPositive(ex.show.decoded.value.modelInfo, InfoKey).Some?
    ensures OllamaLimit(ex) == Success(FirstPositive(ex.show.decoded.value.modelInfo, InfoKey).value)
  {
    FirstPositiveNone(ex.show.decoded.value.modelInfo, InfoKey);
  }

  /** Ollama reports "context length unavailable" exactly when no entry of either object is usable. */
  lemma OllamaUnavailable(ex: LimitExchange)
    requires ex.show.Answered? && ex.show.status < 300 && ex.show.decoded.Success?
    ensures var body := ex.show.decoded.value;
      OllamaLimit(ex) == Failure(LengthUnavailable) <==>
        && (forall i | 0 <= i < |body.modelInfo| :: !Accepted(body.modelInfo[i], InfoKey))
        && (forall i | 0 <= i < |body.details| :: !Accepted(body.details[i], DetailsKey))
  {
    FirstPositiveNone(ex.show.decoded.value.modelInfo, InfoKey);
    FirstPositiveNone(ex.show.decoded.value.details, DetailsKey);
  }

  /** `fetchOpenRouterContextLimit` after the requests: the fast path, then the list scan. */
  method FetchOpenRouterLimit(model: string, ex: LimitExchange) returns (r: Result<int, string>)
    ensures r == OpenRouterLimit(model, ex)
  {
    if ex.single.Some? {
      var n := ToInt(ex.single.value);
      if n.Some? && n.value > 0 {
        return Success(n.value);
      }
    }
    r := FetchModelList(model, ex.list);
  }

  /** The request to `/models` and the scan of the list for the model. */
  method FetchModelList(model: string, list: Exchange<seq<Field>>) returns (r: Result<int, string>)
    ensures r == ListLimit(model, list)
  {
    match list {
      case Unreachable(m) =>
        r := Failure(m);
      case Answered(status, body, decoded) =>
        if status >= 300 {
          r := Failure(StatusError("openrouter", status, body));
        } else if decoded.Failure? {
          r := Failure(decoded.error);
        } else {
          var found := ScanFields(decoded.value, ModelId(model));
          r := if found.Some? then Success(found.value) else Failure(LengthUnavailable);
        }
    }
  }

  /** `fetchOllamaContextLimit` after the request: `model_info`, then `details`. */
  method FetchOllamaLimit(ex: LimitExchange) returns (r: Result<int, string>)
    ensures r == OllamaLimit(ex)
  {
    match ex.show {
      case Unreachable(m) =>
        r := Failure(m);
      case Answered(status, body, decoded) =>
        if status >= 300 {
          r := Failure(StatusError("ollama", status, body));
        } else if decoded.Failure? {
          r := Failure(decoded.error);
        } else {
          var found := ScanFields(decoded.value.modelInfo, InfoKey);
          if found.None? {
            found := ScanFields(decoded.value.details, DetailsKey);
          }
          r := if found.Some? then Success(found.value) else Failure(LengthUnavailable);
        }
    }
  }

  // ---------------------------------------------------------------------------
  // One item of the report.

  /** One item of the report; an absent pointer field is `None`. */
  datatype LimitItem = LimitItem(
    targetId: string, provider: string, model: string,
    maxContextTokens: int, estimatedTokens: int,
    remainingTokens: Option<int>, usedPercent: Option<int>, error: string)

  /**
   * `math.Round(est * 100 / max)` floored at 0: for a positive estimate the nearest whole
   * percent with halves rounded up, `(200 * est + max) / (2 * max)`; otherwise 0, since
   * the rounded share of an estimate that is not positive is not positive either.
   */
  function UsedPercent(est: int, max: int): (p: nat)
    requires max > 0
  {
    if est <= 0 then 0 else (200 * est + max) / (2 * max)
  }

  /** For a positive estimate, the share is the nearest whole percent, halves rounded up. */
  lemma UsedPercentNearest(est: int, max: int)
    requires max > 0 && est > 0
    ensures var p := UsedPercent(est, max);
      2 * max * p - max <= 200 * est < 2 * max * p + max
  {
    var n, d := 200 * est + max, 2 * max;
    assert d * (n / d) + n % d == n;
  }

  /** The canonical id of a target in the report: lower-cased, trimmed provider, ":" and trimmed model. */
  function ReportedId(t: Target): string {
    ToLower(TrimSpace(t.provider)) + ":" + TrimSpace(t.model)
  }

  /** The item for one target, given what its lookup returned. */
  function Resolved(t: Target, lookup: Result<int, string>, messages: seq<Message>, prompt: string): (item: LimitItem) {
    var provider := ToLower(TrimSpace(t.provider));
    var model := TrimSpace(t.model);
    var id := provider + ":" + model;
    if provider == "" || model == "" then LimitItem(id, provider, model, 0, 0, None, None, MissingTarget)
    else
      var est := EstimatedTokens(messages, id, prompt);
      match lookup
      case Failure(e) => LimitItem(id, provider, model, 0, est, None, None, e)
      case Success(max) =>
        if max > 0 then LimitItem(id, provider, model, max, est, Some(max - est), Some(UsedPercent(est, max)), "")
        else LimitItem(id, provider, model, max, est, None, None, "")
  }

  /** The item the report holds for one target, as its goroutine builds it. */
  function ItemFor(t: Target, messages: seq<Message>, prompt: string, ex: LimitExchange): LimitItem {
    Resolved(t, Lookup(ToLower(TrimSpace(t.provider)), TrimSpace(t.model), ex), messages, prompt)
  }

  /**
   * What an item says, given what the lookup returned (a window it reports is positive):
   * a target without a provider or model gets only the error; a failed lookup gets its
   * error and an estimate but no window, what is left or share; a found window gets the
   * estimate, what is left of the window (possibly negative) and the share used, and no
   * error.
   */
  lemma ResolvedItem(t: Target, lookup: Result<int, string>, messages: seq<Message>, prompt: string)
    requires lookup.Success? ==> lookup.value > 0
    ensures var item := Resolved(t, lookup, messages, prompt);
      var provider := ToLower(TrimSpace(t.provider));
      var est := EstimatedTokens(messages, ReportedId(t), prompt);
      && item.targetId == ReportedId(t) && item.provider == provider && item.model == TrimSpace(t.model)
      && (IsBlank(t.provider) || IsBlank(t.model) ==>
            item == LimitItem(ReportedId(t), provider, TrimSpace(t.model), 0, 0, None, None, MissingTarget))
      && (!IsBlank(t.provider) && !IsBlank(t.model) ==>
            && item.estimatedTokens == est >= 1
            && (lookup.Failure? ==>
                  item.error == lookup.error && item.maxContextTokens == 0
                  && item.remainingTokens == None && item.usedPercent == None)
            && (lookup.Success? ==>
                  item.error == "" && item.maxContextTokens == lookup.value
                  && item.remainingTokens == Some(lookup.value - est)
                  && item.usedPercent == Some(UsedPercent(est, lookup.value))))
  {
    var provider := ToLower(TrimSpace(t.provider));
    var model := TrimSpace(t.model);
    LoweredBlank(t.provider);
    TrimSpaceEmptyIffBlank(t.model);
    var id := provider + ":" + model;
    assert ReportedId(t) == id;
    if provider != "" && model != "" {
      var est := EstimatedTokens(messages, id, prompt);
      assert est >= 1;
      match lookup
      case Failure(e) =>
        assert Resolved(t, lookup, messages, prompt) == LimitItem(id, provider, model, 0, est, None, None, e);
      case Success(max) =>
        assert Resolved(t, lookup, messages, prompt)
          == LimitItem(id, provider, model, max, est, Some(max - est), Some(UsedPercent(est, max)), "");
    }
  }

  /** The `switch provider` of a target's goroutine. */
  method FetchLimit(provider: string, model: string, ex: LimitExchange) returns (limit: Result<int, string>)
    ensures limit == Lookup(provider, model, ex)
  {
    if provider == "openrouter" {
      limit := FetchOpenRouterLimit(model, ex);
    } else if provider == "ollama" {
      limit := FetchOllamaLimit(ex);
    } else {
      limit := Failure(UnsupportedProvider);
    }
  }

  /** Per target: the id and the estimate, the lookup, and the item (one goroutine's work). */
  method ResolveTarget(t: Target, messages: seq<Message>, prompt: string, ex: LimitExchange) returns (item: LimitItem)
    ensures item == ItemFor(t, messages, prompt, ex)
  {
    var provider := ToLower(TrimSpace(t.provider));
    var model := TrimSpace(t.model);
    var targetId := provider + ":" + model;
    item := LimitItem(targetId, provider, model, 0, 0, None, None, "");
    if provider == "" || model == "" {
      item := item.(error := MissingTarget);
      return;
    }
    var limit := FetchLimit(provider, model, ex);
    if limit.Failure? {
      item := item.(error := limit.error);
    } else {
      item := item.(maxContextTokens := limit.value);
    }
    var est := EstimateContextTokens(messages, targetId, prompt);
    item := item.(estimatedTokens := est);
    if item.maxContextTokens > 0 {
      var remaining := item.maxContextTokens - item.estimatedTokens;
      var used := UsedPercent(item.estimatedTokens, item.maxContextTokens);
      item := item.(remainingTokens := Some(remaining), usedPercent := Some(used));
    }
  }

  /** The item of the target at index `k`, from that target's own exchanges. */
  function ItemAt(targets: seq<Target>, messages: seq<Message>, prompt: string, exchanges: seq<LimitExchange>): nat -> LimitItem {
    (k: nat) => if k < |targets| && k < |exchanges| then ItemFor(targets[k], messages, prompt, exchanges[k])
                else LimitItem("", "", "", 0, 0, None, None, "")
  }

  /** The report: one item per target, in the targets' order. */
  function Report(targets: seq<Target>, messages: seq<Message>, prompt: string, exchanges: seq<LimitExchange>): (items: seq<LimitItem>) {
    Tabulate(ItemAt(targets, messages, prompt, exchanges), |targets|)
  }

  /** The report has one item per target, at the target's own index. */
  lemma ReportAt(targets: seq<Target>, messages: seq<Message>, prompt: string, exchanges: seq<LimitExchange>, k: nat)
    requires k < |targets| == |exchanges|
    ensures |Report(targets, messages, prompt, exchanges)| == |targets|
    ensures Report(targets, messages, prompt, exchanges)[k] == ItemFor(targets[k], messages, prompt, exchanges[k])
  {
    TabulateAt(ItemAt(targets, messages, prompt, exchanges), |targets|, k);
  }

  /**
   * `resolveContextLimits`: each target's item goes to the target's own slot, so the
   * report keeps the targets' order whatever order the lookups finish in.
   */
  method ResolveContextLimits(targets: seq<Target>, messages: seq<Message>, prompt: string, exchanges: seq<LimitExchange>)
    returns (items: seq<LimitItem>)
    requires |exchanges| == |targets|
    ensures items == Report(targets, messages, prompt, exchanges)
  {
    ghost var itemAt := ItemAt(targets, messages, prompt, exchanges);
    items := [];
    for i := 0 to |targets|
      invariant items == Tabulate(itemAt, i)
    {
      var item := ResolveTarget(targets[i], messages, prompt, exchanges[i]);
      items := items + [item];
    }
  }
}
