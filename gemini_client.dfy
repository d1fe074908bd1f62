/** GeminiInteractionsClient.gs.js: the request the client sends to the Interactions
    endpoint, the text it extracts from a reply, and how it turns a reply, a parse
    failure or a thrown exception into a result with a retryable flag. The HTTP
    exchange itself is an input. */
module GeminiClient {
  import opened Wrappers
  import opened Text

  const DefaultModel: string := "gemini-flash-latest"
  const BaseUrl: string := "https://generativelanguage.googleapis.com/v1beta"
  const DefaultMaxOutputTokens: int := 2048
  const DefaultTemperature: real := 0.4
  const PartSeparator: string := "\n\n"

  /** `GeminiInteractionsConfig(apiKey, modelTag)`; an empty tag is falsy. */
  datatype Config = Config(apiKey: string, modelTag: string)

  function ModelName(config: Config): (m: string)
    ensures config.modelTag != "" ==> m == config.modelTag
    ensures config.modelTag == "" ==> m == DefaultModel
  {
    if config.modelTag == "" then DefaultModel else config.modelTag
  }

  /** `buildUrl()`. */
  function BuildUrl(config: Config): (url: string)
    ensures StartsWith(url, BaseUrl + "/interactions?key=")
    ensures url[|BaseUrl| + 18..] == config.apiKey
  {
    BaseUrl + "/interactions?key=" + config.apiKey
  }

  // ---------------------------------------------------------------------------
  // buildPayload

  /** The `options` argument of `call`: a `maxOutputTokens` of 0 stands for a falsy
      value, `None` for an undefined temperature, "" for a falsy previous id. */
  datatype Options = Options(maxOutputTokens: int, temperature: Option<real>,
                             previousInteractionId: string, tools: seq<string>)

  /** `options || {}`. */
  const NoOptions: Options := Options(0, None, "", [])

  /** The JSON body of the request. `previousInteractionId` and `tools` are `None`
      where the payload has no such field; each tool is `{type: name}`, kept here as
      its name. */
  datatype Payload = Payload(model: string, input: string, responseModalities: seq<string>,
                             maxOutputTokens: int, temperature: real, store: bool,
                             previousInteractionId: Option<string>, tools: Option<seq<string>>)

  predicate IsKnownTool(name: string) {
    name == "google_search" || name == "url_context" || name == "code_execution"
  }

  /** The system prompt, when there is one, wrapped around the user's message. */
  function InputText(userMessage: string, systemPrompt: string): (input: string)
    ensures systemPrompt == "" ==> input == userMessage
    ensures systemPrompt != "" ==>
      input == "[SYSTEM INSTRUCTIONS]\n" + systemPrompt + "\n[END SYSTEM INSTRUCTIONS]\n\nUser query: " + userMessage
  {
    if systemPrompt != "" then
      "[SYSTEM INSTRUCTIONS]\n" + systemPrompt + "\n[END SYSTEM INSTRUCTIONS]\n\nUser query: " + userMessage
    else userMessage
  }

  /** The requested tools that the client knows, in the order requested. */
  function KnownTools(names: seq<string>): seq<string> {
    if names == [] then []
    else KnownTools(names[..|names| - 1]) + (if IsKnownTool(names[|names| - 1]) then [names[|names| - 1]] else [])
  }

  /** The filter keeps exactly the known names, repeats included, and nothing
      else. */
  lemma {:induction false} KnownToolsMembers(names: seq<string>)
    ensures forall t :: t in KnownTools(names) <==> t in names && IsKnownTool(t)
    ensures |KnownTools(names)| <= |names|
  {
    if names != [] {
      var init := names[..|names| - 1];
      KnownToolsMembers(init);
      assert names == init + [names[|names| - 1]];
    }
  }

  /** Requests for unknown tools only leave the payload without a tools field. */
  lemma {:induction false} UnknownToolsDropped(names: seq<string>)
    requires forall i :: 0 <= i < |names| ==> !IsKnownTool(names[i])
    ensures KnownTools(names) == []
  {
    if names != [] {
      UnknownToolsDropped(names[..|names| - 1]);
    }
  }

  /** `buildPayload(userMessage, systemPrompt, options)`. */
  method BuildPayload(config: Config, userMessage: string, systemPrompt: string, options: Options)
    returns (payload: Payload)
    ensures payload.model == ModelName(config)
    ensures payload.input == InputText(userMessage, systemPrompt)
    ensures payload.responseModalities == ["TEXT"] && payload.store
    ensures payload.maxOutputTokens ==
      if options.maxOutputTokens == 0 then DefaultMaxOutputTokens else options.maxOutputTokens
    ensures payload.temperature ==
      if options.temperature.Some? then options.temperature.value else DefaultTemperature
    ensures payload.previousInteractionId ==
      if options.previousInteractionId == "" then None else Some(options.previousInteractionId)
    ensures payload.tools ==
      if KnownTools(options.tools) == [] then None else Some(KnownTools(options.tools))
  {
    var input := InputText(userMessage, systemPrompt);
    payload := Payload(ModelName(config), input, ["TEXT"],
      if options.maxOutputTokens == 0 then DefaultMaxOutputTokens else options.maxOutputTokens,
      if options.temperature.Some? then options.temperature.value else DefaultTemperature,
      true, None, None);
    if options.previousInteractionId != "" {
      payload := payload.(previousInteractionId := Some(options.previousInteractionId));
    }
    if |options.tools| > 0 {
      var tools: seq<string> := [];
      for i := 0 to |options.tools|
        invariant tools == KnownTools(options.tools[..i])
      {
        var toolName := options.tools[i];
        if toolName == "google_search" {
          tools := tools + ["google_search"];
        } else if toolName == "url_context" {
          tools := tools + ["url_context"];
        } else if toolName == "code_execution" {
          tools := tools + ["code_execution"];
        }
        assert options.tools[..i + 1][..i] == options.tools[..i];
      }
      assert options.tools[..|options.tools|] == options.tools;
      if |tools| > 0 {
        payload := payload.(tools := Some(tools));
      }
    }
  }

  // ---------------------------------------------------------------------------
  // extractText

  /** One entry of `outputs`; "" stands for a missing or falsy field. */
  datatype Output = Output(text: string, kind: string, content: string)

  /** A candidate of the `generateContent` format: the texts of
      `content.parts`, or `None` when `content` or `parts` is missing. */
  datatype Candidate = Candidate(parts: Option<seq<string>>)

  /** The fields of a parsed reply that the client reads. `id`, `text` and
      `responseText` (`response.text`) are "" when missing or falsy. */
  datatype ResponseJson = ResponseJson(error: Option<ApiError>, id: string,
                                       outputs: seq<Output>, candidates: seq<Candidate>,
                                       text: string, responseText: string)

  /** `json.error`, with a missing or empty `message` as "". */
  datatype ApiError = ApiError(message: string)

  /** The text an output contributes, if any: its `text`, else its `content` when
      its type is "text". */
  function OutputText(o: Output): Option<string> {
    if o.text != "" then Some(o.text)
    else if o.kind == "text" && o.content != "" then Some(o.content)
    else None
  }

  /** The texts of the outputs, in order. */
  function OutputTexts(outputs: seq<Output>): (texts: seq<string>)
    ensures forall i :: 0 <= i < |texts| ==> texts[i] != ""
  {
    if outputs == [] then []
    else
      var last := OutputText(outputs[|outputs| - 1]);
      OutputTexts(outputs[..|outputs| - 1]) + (if last.Some? then [last.value] else [])
  }

  /** The non-empty texts of a candidate's parts, in order. */
  function PartTexts(parts: seq<string>): (texts: seq<string>)
    ensures forall i :: 0 <= i < |texts| ==> texts[i] != ""
  {
    if parts == [] then []
    else PartTexts(parts[..|parts| - 1]) + (if parts[|parts| - 1] != "" then [parts[|parts| - 1]] else [])
  }

  /** The texts of the first candidate's parts; none when there is no candidate or it
      has no parts. */
  function CandidateTexts(candidates: seq<Candidate>): (texts: seq<string>)
    ensures forall i :: 0 <= i < |texts| ==> texts[i] != ""
  {
    if |candidates| > 0 && candidates[0].parts.Some? then PartTexts(candidates[0].parts.value) else []
  }

  /** What `extractText(json)` returns: the output texts joined by a blank line,
      else the first candidate's part texts joined the same way, else `text`, else
      `response.text`, else null. */
  function ExtractedText(json: ResponseJson): Option<string> {
    var fromOutputs := OutputTexts(json.outputs);
    var fromCandidate := CandidateTexts(json.candidates);
    if fromOutputs != [] then Some(Join(fromOutputs, PartSeparator))
    else if fromCandidate != [] then Some(Join(fromCandidate, PartSeparator))
    else if json.text != "" then Some(json.text)
    else if json.responseText != "" then Some(json.responseText)
    else None
  }

  lemma {:induction false} JoinStartsWithFirst(parts: seq<string>, sep: string)
    requires |parts| > 0
    ensures |Join(parts, sep)| >= |parts[0]| && Join(parts, sep)[..|parts[0]|] == parts[0]
  {
    if |parts| > 1 {
      assert Join(parts, sep) == parts[0] + (sep + Join(parts[1..], sep));
    }
  }

  /** `extractText` never returns an empty string: it returns text, or nothing, and
      it returns nothing exactly when no source holds any text. */
  lemma ExtractedTextNonEmpty(json: ResponseJson)
    ensures ExtractedText(json).Some? ==> ExtractedText(json).value != ""
    ensures ExtractedText(json).None? <==>
      OutputTexts(json.outputs) == [] && CandidateTexts(json.candidates) == []
      && json.text == "" && json.responseText == ""
  {
    var fromOutputs := OutputTexts(json.outputs);
    var fromCandidate := CandidateTexts(json.candidates);
    if fromOutputs != [] {
      JoinStartsWithFirst(fromOutputs, PartSeparator);
    } else if fromCandidate != [] {
      JoinStartsWithFirst(fromCandidate, PartSeparator);
    }
  }

  /** A text-bearing output hides every later source of text. */
  lemma OutputsTakePrecedence(json: ResponseJson, i: nat)
    requires i < |json.outputs| && json.outputs[i].text != ""
    ensures ExtractedText(json).Some? && Contains(ExtractedText(json).value, json.outputs[i].text)
  {
    OutputTextsContain(json.outputs, i);
    var texts := OutputTexts(json.outputs);
    var k :| 0 <= k < |texts| && texts[k] == json.outputs[i].text;
    JoinContains(texts, PartSeparator, k);
  }

  lemma {:induction false} OutputTextsContain(outputs: seq<Output>, i: nat)
    requires i < |outputs| && outputs[i].text != ""
    ensures exists k :: 0 <= k < |OutputTexts(outputs)| && OutputTexts(outputs)[k] == outputs[i].text
  {
    var init := outputs[..|outputs| - 1];
    if i == |outputs| - 1 {
      var k := |OutputTexts(init)|;
      assert OutputTexts(outputs)[k] == outputs[i].text;
    } else {
      assert init[i] == outputs[i];
      OutputTextsContain(init, i);
      var k :| 0 <= k < |OutputTexts(init)| && OutputTexts(init)[k] == outputs[i].text;
      assert OutputTexts(outputs)[k] == OutputTexts(init)[k];
    }
  }

  lemma {:induction false} JoinContains(parts: seq<string>, sep: string, k: nat)
    requires k < |parts|
    ensures Contains(Join(parts, sep), parts[k])
  {
    var r := Join(parts, sep);
    if k == 0 {
      JoinStartsWithFirst(parts, sep);
      assert At(r, 0, parts[0]);
    } else {
      JoinContains(parts[1..], sep, k - 1);
      var rest := Join(parts[1..], sep);
      var j :| 0 <= j <= |rest| && At(rest, j, parts[k]);
      var off := |parts[0]| + |sep|;
      assert r == parts[0] + sep + rest;
      assert r[off + j..off + j + |parts[k]|] == rest[j..j + |parts[k]|];
      assert At(r, off + j, parts[k]);
    }
  }

  /** `extractText(json)`: collects the texts with loops, as the client does. */
  method ExtractText(json: ResponseJson) returns (text: Option<string>)
    ensures text == ExtractedText(json)
  {
    if |json.outputs| > 0 {
      var textParts: seq<string> := [];
      for i := 0 to |json.outputs|
        invariant textParts == OutputTexts(json.outputs[..i])
      {
        var output := json.outputs[i];
        if output.text != "" {
          textParts := textParts + [output.text];
        } else if output.kind == "text" && output.content != "" {
          textParts := textParts + [output.content];
        }
        assert json.outputs[..i + 1][..i] == json.outputs[..i];
      }
      assert json.outputs[..|json.outputs|] == json.outputs;
      if |textParts| > 0 {
        return Some(Join(textParts, PartSeparator));
      }
    }
    if |json.candidates| > 0 {
      var candidate := json.candidates[0];
      if candidate.parts.Some? {
        var parts := candidate.parts.value;
        var textParts: seq<string> := [];
        for i := 0 to |parts|
          invariant textParts == PartTexts(parts[..i])
        {
          if parts[i] != "" {
            textParts := textParts + [parts[i]];
          }
          assert parts[..i + 1][..i] == parts[..i];
        }
        assert parts[..|parts|] == parts;
        if |textParts| > 0 {
          return Some(Join(textParts, PartSeparator));
        }
      }
    }
    if json.text != "" {
      return Some(json.text);
    }
    if json.responseText != "" {
      return Some(json.responseText);
    }
    return None;
  }

  // ---------------------------------------------------------------------------
  // isErrorRetryable

  /** A substring of the lower-cased message that marks a temporary failure. */
  predicate HasRetryableMarker(msg: string) {
    Contains(msg, "overloaded") || Contains(msg, "rate limit") || Contains(msg, "quota")
    || Contains(msg, "503") || Contains(msg, "429") || Contains(msg, "temporarily unavailable")
    || Contains(msg, "try again")
  }

  /** A substring that marks a permanent failure. */
  predicate HasPermanentMarker(msg: string) {
    Contains(msg, "api key") || Contains(msg, "invalid") || Contains(msg, "permission")
    || Contains(msg, "forbidden")
  }

  /** `isErrorRetryable(errorMessage)`: the temporary markers are looked for first;
      a permanent marker, or none at all, gives false. */
  function IsErrorRetryable(errorMessage: string): bool {
    if errorMessage == "" then false
    else
      var msg := Lower(errorMessage);
      if HasRetryableMarker(msg) then true
      else if HasPermanentMarker(msg) then false
      else false
  }

  /** A message is retryable exactly when its lower-cased text holds a temporary
      marker, whatever permanent marker it also holds. */
  lemma RetryableIff(errorMessage: string)
    ensures IsErrorRetryable(errorMessage) <==> HasRetryableMarker(Lower(errorMessage))
  {
    if errorMessage == "" {
      assert Lower(errorMessage) == "";
      NoMarkerInEmpty();
    }
  }

  lemma NoMarkerInEmpty()
    ensures !HasRetryableMarker("")
  {
  }

  lemma LowerUpper(s: string)
    ensures Lower(Upper(s)) == Lower(s)
  {
    assert forall i :: 0 <= i < |s| ==> LowerChar(UpperChar(s[i])) == LowerChar(s[i]);
  }

  lemma LowerLower(s: string)
    ensures Lower(Lower(s)) == Lower(s)
  {
    assert forall i :: 0 <= i < |s| ==> LowerChar(LowerChar(s[i])) == LowerChar(s[i]);
  }

  /** The classification ignores ASCII case. */
  lemma RetryableIgnoresCase(errorMessage: string)
    ensures IsErrorRetryable(Upper(errorMessage)) == IsErrorRetryable(errorMessage)
    ensures IsErrorRetryable(Lower(errorMessage)) == IsErrorRetryable(errorMessage)
  {
    LowerUpper(errorMessage);
    LowerLower(errorMessage);
  }

  /** The marker "503" makes even an "invalid" message retryable. */
  lemma RetryableWinsOverPermanent(errorMessage: string)
    requires Contains(Lower(errorMessage), "invalid") && Contains(Lower(errorMessage), "503")
    ensures IsErrorRetryable(errorMessage)
  {
  }

  // ---------------------------------------------------------------------------
  // the result of call

  /** What the HTTP exchange gave `call`: a thrown exception (its `message`, and how
      the exception itself prints), or a body that did or did not parse. */
  datatype Transport = Raised(message: string, rendered: string) | Delivered(body: Body<ResponseJson>)

  datatype CallError = CallError(message: string, retryable: bool)

  /** The object `call` returns. */
  datatype CallResult = CallResult(success: bool, text: Option<string>, interactionId: Option<string>,
                                   error: Option<CallError>)

  /** Whether a thrown exception is worth retrying: its message mentions a timeout,
      the network or DNS. */
  predicate IsTransientException(message: string) {
    message != "" &&
    (Contains(message, "timeout") || Contains(message, "Timeout") || Contains(message, "network")
     || Contains(message, "DNS"))
  }

  function Failure(message: string, retryable: bool, interactionId: Option<string>): CallResult {
    CallResult(false, None, interactionId, Some(CallError(message, retryable)))
  }

  /** `json.id || null`. */
  function IdOf(json: ResponseJson): Option<string> {
    if json.id == "" then None else Some(json.id)
  }

  /** The result `call` builds from what the exchange gave it. */
  function CallOutcome(transport: Transport): (r: CallResult)
    ensures r.success <==> r.error.None?
    ensures r.success ==> r.text.Some? && r.text.value != ""
    ensures !r.success ==> r.text.None?
    ensures r.interactionId.Some? ==>
      transport.Delivered? && transport.body.Parsed? && transport.body.value.error.None?
      && r.interactionId == IdOf(transport.body.value)
  {
    match transport
    case Raised(message, rendered) =>
      Failure("Exception: " + (if message != "" then message else rendered),
              IsTransientException(message), None)
    case Delivered(Malformed(_)) =>
      Failure("Failed to parse API response", false, None)
    case Delivered(Parsed(json)) =>
      if json.error.Some? then
        var errorMsg := if json.error.value.message != "" then json.error.value.message else "Unknown error";
        Failure(errorMsg, IsErrorRetryable(errorMsg), None)
      else
        var text := ExtractedText(json);
        ExtractedTextNonEmpty(json);
        if text.None? then Failure("No text in response", false, IdOf(json))
        else CallResult(true, text, IdOf(json), None)
  }

  /** The error paths of `call`: an unparsable body is permanent; an API error
      carries its message, or "Unknown error", and is classified by the message; a
      reply without text is permanent but keeps the interaction id; an exception is
      retried exactly when it looks transient. */
  lemma CallErrorPaths(transport: Transport)
    ensures transport.Delivered? && transport.body.Malformed? ==>
      CallOutcome(transport) == Failure("Failed to parse API response", false, None)
    ensures transport.Delivered? && transport.body.Parsed? && transport.body.value.error.Some? ==>
      var m := transport.body.value.error.value.message;
      var shown := if m == "" then "Unknown error" else m;
      CallOutcome(transport) == Failure(shown, HasRetryableMarker(Lower(shown)), None)
    ensures (transport.Delivered? && transport.body.Parsed? && transport.body.value.error.None?
      && ExtractedText(transport.body.value).None?) ==>
      CallOutcome(transport) == Failure("No text in response", false, IdOf(transport.body.value))
    ensures transport.Raised? ==>
      CallOutcome(transport).error.Some?
      && (CallOutcome(transport).error.value.retryable <==> IsTransientException(transport.message))
  {
    if transport.Delivered? && transport.body.Parsed? && transport.body.value.error.Some? {
      var m := transport.body.value.error.value.message;
      RetryableIff(if m == "" then "Unknown error" else m);
    }
  }

  /** `call(userMessage, systemPrompt, options)`: builds the request, hands it to the
      exchange (`fetch`, which stands for `UrlFetchApp.fetch` and `JSON.parse`), and
      returns the request together with the result. */
  method Call(config: Config, userMessage: string, systemPrompt: string, options: Options,
              fetch: (string, Payload) -> Transport)
    returns (url: string, payload: Payload, result: CallResult)
    ensures url == BuildUrl(config) && payload.input == InputText(userMessage, systemPrompt)
    ensures payload.previousInteractionId ==
      if options.previousInteractionId == "" then None else Some(options.previousInteractionId)
    ensures result == CallOutcome(fetch(url, payload))
  {
    url := BuildUrl(config);
    payload := BuildPayload(config, userMessage, systemPrompt, options);
    var transport := fetch(url, payload);
    match transport
    case Raised(_, _) =>
      result := CallOutcome(transport);
    case Delivered(Malformed(_)) =>
      result := CallOutcome(transport);
    case Delivered(Parsed(json)) =>
      if json.error.Some? {
        result := CallOutcome(transport);
      } else {
        var text := ExtractText(json);
        var interactionId := IdOf(json);
        ExtractedTextNonEmpty(json);
        if text.None? {
          result := Failure("No text in response", false, interactionId);
        } else {
          result := CallResult(true, text, interactionId, None);
        }
      }
  }
}
