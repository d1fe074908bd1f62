/** `processAndSend` (Code.js:490-641): one prompt through the two Gemini phases,
    analysis with the tool context and compression to the size budget, and the
    reply paged back to the device. */
module Pipeline {
  import opened Wrappers
  import opened Text
  import opened Store
  import opened Commands
  import opened Shaping
  import opened Paging
  import opened GeminiClient
  import opened InteractionState
  import Toolbox
  import Weather

  /** `LIMITS.AI_TARGET_LENGTH` and `LIMITS.AI_ABSOLUTE_MAX`. */
  const AiTargetLength: nat := 150
  const AiAbsoluteMax: nat := 450
  /** The cap on a `SIZE` override. */
  const SizeCap: nat := 2000

  /** `AI_CONFIG.PHASE_1_ANALYZE` and `AI_CONFIG.PHASE_2_COMPRESS`, without their
      prompt texts. */
  const AnalyzeTokens: int := 2048
  const AnalyzeTemperature: real := 0.4
  const CompressTokens: int := 1024
  const CompressTemperature: real := 0.1
  const AnalyzeTools: seq<string> := ["google_search", "url_context"]

  const ContextSlot: string := "{{TOOL_CONTEXT}}"
  const NoContext: string := "(No additional context)"
  const TargetSlot: string := "{{TARGET}}"
  const MaxSlot: string := "{{MAX}}"

  const NoApiKeyReason: string := "NO_API_KEY"
  const RetryableReason: string := "GEMINI_RETRYABLE"
  const Phase1Reason: string := "PHASE1_FAILED"

  /** What `processAndSend` works with besides the prompt: the `GEMINI_KEY`
      property, `decodeURIComponent` (`None` where it throws), the tools and
      `JSON.stringify` the toolbox uses, the Gemini exchange, the help text and the
      two phase prompts as templates. */
  datatype Env = Env(key: Option<string>, decode: string -> Option<string>, tools: Toolbox.Tools,
                     stringify: Weather.Forecast -> string, fetch: (string, Payload) -> Transport,
                     helpText: string, analyzeTemplate: string, compressTemplate: string)

  /** The `{success: false, reason}` objects returned before anything is paged. */
  function Early(reason: string): SendResult {
    SendResult(false, Some(reason), 0, 0)
  }

  /** `s.replace(pat, by)` with a string pattern: the first occurrence only. */
  function ReplaceFirst(s: string, pat: string, replacement: string): (r: string)
    requires |pat| > 0
    ensures !Contains(s, pat) ==> r == s
    ensures Contains(s, pat) ==> |r| == |s| - |pat| + |replacement|
    ensures Contains(s, pat) ==> r[..IndexOf(s, pat)] == s[..IndexOf(s, pat)]
    ensures Contains(s, pat) ==> r[IndexOf(s, pat)..IndexOf(s, pat) + |replacement|] == replacement
  {
    var i := IndexOf(s, pat);
    if i < 0 then s else s[..i] + replacement + s[i + |pat|..]
  }

  /** The size budget `(targetLength, absoluteMax)`: the defaults, or a positive
      `SIZE` override capped at 2000 for both. */
  function Budget(prompt: string): (b: (nat, nat))
    ensures 0 < b.0 <= b.1 <= SizeCap
    ensures ExtractSizeOverride(prompt).None? ==> b == (AiTargetLength, AiAbsoluteMax)
    ensures ExtractSizeOverride(prompt).Some? ==> b.0 == b.1 && b.1 <= ExtractSizeOverride(prompt).value
    ensures ExtractSizeOverride(prompt).Some? ==> b.1 == ExtractSizeOverride(prompt).value || b.1 == SizeCap
  {
    match ExtractSizeOverride(prompt)
    case None => (AiTargetLength, AiAbsoluteMax)
    case Some(size) =>
      var capped := if size < SizeCap then size else SizeCap;
      (capped, capped)
  }

  /** The prompt the phases see: with a size override, without the command. */
  function PromptFor(prompt: string): (r: string)
    ensures |r| <= |prompt|
    ensures ExtractSizeOverride(prompt).None? ==> r == prompt
  {
    if ExtractSizeOverride(prompt).Some? then StripSize(prompt) else prompt
  }

  /** The Phase 1 system prompt: the template with the tool context, or a note that
      there is none, in its slot. */
  function AnalyzePrompt(template: string, context: string): string {
    ReplaceFirst(template, ContextSlot, if context == "" then NoContext else context)
  }

  /** The Phase 2 system prompt: the template with the two lengths in their slots. */
  function CompressPrompt(template: string, budget: (nat, nat)): string {
    ReplaceFirst(ReplaceFirst(template, TargetSlot, NatToString(budget.0)), MaxSlot, NatToString(budget.1))
  }

  /** The text `processAndSend` pages: the Phase 2 text, or the analysis cut to the
      budget when Phase 2 failed; cleaned of markdown, and cut once more when still
      over the budget. */
  function FinalText(analysis: string, compressed: CallResult, absoluteMax: nat): (r: string)
    ensures |r| <= absoluteMax + 2 || (absoluteMax < 3 && r == Ellipsis)
  {
    var text := if compressed.success && compressed.text.Some? then compressed.text.value
                else TruncateSmart(analysis, absoluteMax);
    var cleaned := CleanOutput(text);
    if |cleaned| > absoluteMax then TruncateSmart(cleaned, absoluteMax) else cleaned
  }

  /** A final text within the budget is the cleaned reply itself: free of '*' and
      '`', trimmed, without doubled white space. */
  lemma FinalTextClean(analysis: string, compressed: CallResult, absoluteMax: nat)
    requires var text := if compressed.success && compressed.text.Some? then compressed.text.value
                         else TruncateSmart(analysis, absoluteMax);
      |CleanOutput(text)| <= absoluteMax
    ensures var r := FinalText(analysis, compressed, absoluteMax);
      '*' !in r && '`' !in r && IsTrimmed(r) && NoDoubleSpace(r)
  {
    var text := if compressed.success && compressed.text.Some? then compressed.text.value
                else TruncateSmart(analysis, absoluteMax);
    CleanOutputProperties(text);
  }

  /** When Phase 2 fails, a short analysis is paged as it is, once cleaned. */
  lemma ShortAnalysisSurvives(analysis: string, compressed: CallResult, absoluteMax: nat)
    requires !compressed.success && |analysis| <= absoluteMax
    ensures FinalText(analysis, compressed, absoluteMax) == CleanOutput(analysis)
  {
    CleanOutputProperties(analysis);
  }

  /** When Phase 2 succeeds the final text comes from its reply alone: the analysis
      has no say in it, and a reply that fits the budget once cleaned is paged as it
      is, once cleaned. */
  lemma CompressedReplyWins(analysis: string, other: string, compressed: CallResult, absoluteMax: nat)
    requires compressed.success && compressed.text.Some?
    ensures FinalText(analysis, compressed, absoluteMax) == FinalText(other, compressed, absoluteMax)
    ensures |CleanOutput(compressed.text.value)| <= absoluteMax ==>
      FinalText(analysis, compressed, absoluteMax) == CleanOutput(compressed.text.value)
  {
  }

  /** What `paginateAndSend(url, text)` promises about the pages posted and the
      result returned. */
  predicate Paged(text: string, delivered: nat -> bool, result: SendResult, posted: seq<string>) {
    (|text| <= GarminSafeMax ==>
      posted == [text]
      && result == SendResult(delivered(0), if delivered(0) then None else Some("SEND_FAILED"), 1, |text|))
    && (|text| > GarminSafeMax ==>
      result.pages == |Pages(text)| && result.chars == |text| && PostedInOrder(Pages(text), delivered, posted, result))
  }

  /** The previous interaction id as the payload carries it: a falsy id is left out. */
  function Continued(id: Option<string>): (r: Option<string>)
    ensures r.Some? ==> r == id && r.value != ""
  {
    if Truthy(id) then id else None
  }

  /** The conversation state after a Phase 1 that succeeded: the new interaction id
      of the sender, when there is both. */
  function Remembered(entries: map<string, StoredValue>, senderKey: Option<string>, id: Option<string>,
                      now: int): map<string, StoredValue>
  {
    if Truthy(id) && senderKey.Some? then entries[GetStateKey(senderKey.value) := StateRecord(id.value, now)]
    else entries
  }

  /** The state `getInteractionId` leaves and the id it returns, for the sender
      when there is one. */
  function Looked(entries: map<string, StoredValue>, senderKey: Option<string>, prompt: string,
                  now: int, expiryMs: int): (r: (Option<string>, map<string, StoredValue>))
    ensures senderKey.None? ==> r == (None, entries)
  {
    if senderKey.Some? then Lookup(entries, senderKey.value, prompt, now, expiryMs) else (None, entries)
  }

  /** Phase 1: the previous interaction id of the sender, then the analysis call
      with the tool context and the two built-in tools. */
  method Analyze(prompt: string, context: string, senderKey: Option<string>, manager: InteractionStateManager,
                 now: int, config: Config, env: Env)
    returns (url: string, payload: Payload, analysis: CallResult)
    modifies manager.properties
    ensures var looked := Looked(old(manager.properties.entries), senderKey, prompt, now, manager.expiryMs);
      manager.properties.entries == looked.1 && payload.previousInteractionId == Continued(looked.0)
    ensures url == BuildUrl(config) && payload.input == InputText(prompt, AnalyzePrompt(env.analyzeTemplate, context))
    ensures analysis == CallOutcome(env.fetch(url, payload))
  {
    var previousInteractionId: Option<string> := None;
    if senderKey.Some? {
      previousInteractionId := manager.GetInteractionId(senderKey.value, prompt, now);
    }
    var promptWithContext := AnalyzePrompt(env.analyzeTemplate, context);
    url, payload, analysis := Call(config, prompt, promptWithContext,
      Options(AnalyzeTokens, Some(AnalyzeTemperature),
              if previousInteractionId.Some? then previousInteractionId.value else "", AnalyzeTools),
      env.fetch);
  }

  /** Phase 2 and the shaping of the reply: the compression call without tools or
      conversation state, then the final text. */
  method Compress(analysis: string, budget: (nat, nat), config: Config, env: Env)
    returns (url: string, payload: Payload, finalText: string)
    ensures url == BuildUrl(config) && payload.input == InputText(analysis, CompressPrompt(env.compressTemplate, budget))
    ensures payload.previousInteractionId.None?
    ensures finalText == FinalText(analysis, CallOutcome(env.fetch(url, payload)), budget.1)
  {
    var compressPrompt := CompressPrompt(env.compressTemplate, budget);
    var compressResult;
    url, payload, compressResult := Call(config, analysis, compressPrompt,
      Options(CompressTokens, Some(CompressTemperature), "", []), env.fetch);
    var compressed;
    if !compressResult.success {
      compressed := TruncateSmart(analysis, budget.1);
    } else {
      compressed := compressResult.text.value;
    }
    finalText := CleanOutput(compressed);
    if |finalText| > budget.1 {
      finalText := TruncateSmart(finalText, budget.1);
    }
  }

  /** The two phases and the reply, for a prompt that is neither unconfigured nor
      a help request: what is posted, what is returned and what the conversation
      state becomes. */
  predicate Answered(prompt: string, budget: (nat, nat), context: string, senderKey: Option<string>,
                     before: map<string, StoredValue>, after: map<string, StoredValue>, now: int, expiryMs: int,
                     config: Config, env: Env, delivered: nat -> bool,
                     result: SendResult, posted: seq<string>, requests: seq<Payload>)
  {
    var looked := Looked(before, senderKey, prompt, now, expiryMs);
    var url := BuildUrl(config);
    |requests| >= 1
    && requests[0].input == InputText(prompt, AnalyzePrompt(env.analyzeTemplate, context))
    && requests[0].previousInteractionId == Continued(looked.0)
    && var analysis := CallOutcome(env.fetch(url, requests[0]));
    if !analysis.success then
      |requests| == 1 && after == looked.1
      && analysis.error.Some?
      && (analysis.error.value.retryable ==> result == Early(RetryableReason) && posted == [])
      && (!analysis.error.value.retryable ==> result == Early(Phase1Reason) && posted == [ErrorFor(AiPermanentFail)])
    else
      |requests| == 2 && analysis.text.Some?
      && after == Remembered(looked.1, senderKey, analysis.interactionId, now)
      && requests[1].input == InputText(analysis.text.value, CompressPrompt(env.compressTemplate, budget))
      && requests[1].previousInteractionId.None?
      && Paged(FinalText(analysis.text.value, CallOutcome(env.fetch(url, requests[1])), budget.1),
               delivered, result, posted)
  }

  /** The two phases of `processAndSend` (Code.js:547-641). `posted` lists what is
      posted to Garmin, `requests` the payloads sent to Gemini. */
  method Answer(prompt: string, budget: (nat, nat), context: string, senderKey: Option<string>,
                manager: InteractionStateManager, now: int, config: Config, env: Env, delivered: nat -> bool)
    returns (result: SendResult, posted: seq<string>, requests: seq<Payload>)
    modifies manager.properties
    ensures Answered(prompt, budget, context, senderKey, old(manager.properties.entries), manager.properties.entries,
                     now, manager.expiryMs, config, env, delivered, result, posted, requests)
  {
    ghost var before := manager.properties.entries;
    var url, payload, analysisResult := Analyze(prompt, context, senderKey, manager, now, config, env);
    requests := [payload];
    if !analysisResult.success {
      if analysisResult.error.value.retryable {
        return Early(RetryableReason), [], requests;
      }
      return Early(Phase1Reason), [ErrorFor(AiPermanentFail)], requests;
    }
    if Truthy(analysisResult.interactionId) && senderKey.Some? {
      manager.SetInteractionId(senderKey.value, analysisResult.interactionId.value, now);
    }
    var analysis := analysisResult.text.value;
    var compressUrl, compressPayload, finalText := Compress(analysis, budget, config, env);
    requests := requests + [compressPayload];
    result, posted := PaginateAndSend(finalText, delivered);
  }

  /** `processAndSend(userPrompt, targetUrl, logId, coords)` at time `now`, with
      `delivered(k)` the outcome of the k-th post to Garmin. Without a key one error
      message is posted; a help request pages the help text; any other prompt goes
      through the two phases with the size budget and the tool context, which are
      returned as `prompt`, `budget` and `context`. */
  method ProcessAndSend(userPrompt: string, targetUrl: string, coords: Option<Toolbox.Coords>, env: Env,
                        manager: InteractionStateManager, now: int, delivered: nat -> bool)
    returns (result: SendResult, posted: seq<string>, requests: seq<Payload>,
             prompt: string, budget: (nat, nat), context: string)
    modifies manager.properties
    ensures !Truthy(env.key) ==>
      result == Early(NoApiKeyReason) && posted == [ErrorFor(NoApiKey)] && requests == []
      && manager.properties.entries == old(manager.properties.entries)
    ensures Truthy(env.key) && IsHelpCommand(userPrompt) ==>
      Paged(env.helpText, delivered, result, posted) && requests == []
      && manager.properties.entries == old(manager.properties.entries)
    ensures Truthy(env.key) && !IsHelpCommand(userPrompt) ==>
      prompt == PromptFor(userPrompt) && budget == Budget(userPrompt)
      && context == Toolbox.PromptContext(prompt, coords, env.tools, env.stringify)
      && Answered(prompt, budget, context, ExtractSenderKey(targetUrl, env.decode), old(manager.properties.entries),
                  manager.properties.entries, now, manager.expiryMs, Config(env.key.value, DefaultModel),
                  env, delivered, result, posted, requests)
  {
    prompt, budget, context := userPrompt, (AiTargetLength, AiAbsoluteMax), "";
    if !Truthy(env.key) {
      return Early(NoApiKeyReason), [ErrorFor(NoApiKey)], [], prompt, budget, context;
    }
    var key := env.key.value;
    var senderKey := ExtractSenderKey(targetUrl, env.decode);
    if IsHelpCommand(userPrompt) {
      result, posted := PaginateAndSend(env.helpText, delivered);
      return result, posted, [], prompt, budget, context;
    }
    prompt, budget := Sized(userPrompt);
    context := GatherContext(prompt, coords, env);
    result, posted, requests := Answer(prompt, budget, context, senderKey, manager, now, Config(key, DefaultModel),
                                       env, delivered);
  }

  /** The size override of `processAndSend` (Code.js:524-536): the budget, and the
      prompt without the command. */
  method Sized(userPrompt: string) returns (prompt: string, budget: (nat, nat))
    ensures prompt == PromptFor(userPrompt) && budget == Budget(userPrompt)
  {
    var sizeOverride := ExtractSizeOverride(userPrompt);
    var targetLength := AiTargetLength;
    var absoluteMax := AiAbsoluteMax;
    prompt := userPrompt;
    if sizeOverride.Some? {
      targetLength := if sizeOverride.value < SizeCap then sizeOverride.value else SizeCap;
      absoluteMax := if sizeOverride.value < SizeCap then sizeOverride.value else SizeCap;
      prompt := StripSize(userPrompt);
    }
    budget := (targetLength, absoluteMax);
  }

  /** The toolbox run of `processAndSend`: only its context reaches the phases; its
      errors are logged. */
  method GatherContext(prompt: string, coords: Option<Toolbox.Coords>, env: Env) returns (context: string)
    ensures context == Toolbox.PromptContext(prompt, coords, env.tools, env.stringify)
  {
    var toolboxResult, calls := Toolbox.RunToolbox(prompt, coords, env.tools, env.stringify);
    context := toolboxResult.context;
  }
}
