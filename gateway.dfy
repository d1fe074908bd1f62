/** The coordinator of Code.js, `runGateway`: one pass over the threads the inbox
    search returned. For the last message of each thread it decides whether to skip
    it, settle it (star it and clear its retry count) without any work, hand it to
    the pipeline, or leave it unstarred for the next run after counting the failed
    attempt. */
module Gateway {
  import opened Wrappers
  import opened Text
  import opened Store
  import opened RetryLedger
  import opened Commands
  import opened Paging
  import Delivery
  import Pipeline
  import InteractionState
  import Toolbox

  /** The last message of a thread as the gateway reads it. `recipient` is the address
      the To-header match extracted, if any. */
  datatype Message = Message(id: string, body: string, recipient: Option<string>)

  /** What `processAndSend` did with a message: returned a result, or threw. */
  datatype Outcome = Returned(result: SendResult) | Raised

  /** A thread of the search result, with what the services answer while it is
      handled: the answers to the redirect fetches of a short link, and the outcome of
      the pipeline. */
  datatype Thread = Thread(messages: seq<Message>, hops: seq<Delivery.Hop>, outcome: Outcome)

  /** The regular-expression scans of a body that the model takes as given: the Garmin
      link match and `extractCoordinates`; and `encodeURIComponent`. */
  datatype Scanner = Scanner(findLink: string -> Option<string>,
                             coordsOf: string -> Option<Toolbox.Coords>,
                             encode: string -> string)

  /** What the gateway reads from a message body: the Garmin link, the prompt, and the
      coordinates, each if present. */
  datatype Reading = Reading(link: Option<string>, prompt: Option<string>, coords: Option<Toolbox.Coords>)

  /** One hand-over to `processAndSend`: the message it was for, and its arguments. */
  datatype Call = Call(id: string, prompt: string, url: string, coords: Option<Toolbox.Coords>)

  /** One `sendErrorToUser(url, code, message)` for the error of `kind`: it posts
      `ErrorFor(kind)`, the `[code] message` text, on the link. */
  datatype Notice = Notice(url: string, kind: ErrorKind)

  /** Where a run stands: the starred messages, the property store, the ids seen in
      this run, and what was handed to the pipeline and sent to users so far. */
  datatype Pass = Pass(starred: set<string>, entries: map<string, StoredValue>, seen: set<string>,
                       calls: seq<Call>, notices: seq<Notice>)

  // ---------------------------------------------------------------------------
  // the prompt line

  /** `body.split('\n')[0]`. */
  function FirstLine(body: string): (r: string)
    ensures '\n' !in r
    ensures r == body || (|r| < |body| && body[|r|] == '\n' && body[..|r|] == r)
  {
    var r := BeforeFirst(body, "\n");
    assert forall k :: 0 <= k < |r| ==> !At(body, k, "\n") && body[k..k + 1][0] == r[k];
    r
  }

  /** A character of the class `[:\s]`. */
  predicate IsGap(c: char) {
    c == ':' || IsSpace(c)
  }

  /** `rawPrompt.match(/^(AI|Ai|ai)[:\s]/)`. */
  predicate HasAiPrefix(raw: string) {
    |raw| >= 3 && (raw[..2] == "AI" || raw[..2] == "Ai" || raw[..2] == "ai") && IsGap(raw[2])
  }

  /** `rawPrompt.replace(/^(AI|Ai|ai)[:\s]*\/, "").trim()` on a prompt with the prefix:
      the tag and every colon and space after it are gone, and so is any trailing
      space. */
  function StripAiPrefix(raw: string): (p: string)
    requires HasAiPrefix(raw)
    ensures |p| + 3 <= |raw|
    ensures IsTrimmed(p)
    ensures p == [] || !IsGap(p[0])
  {
    var n := RunWhile(raw, 2, IsGap);
    var rest := raw[2 + n..];
    assert rest == [] || !IsGap(rest[0]);
    assert rest != [] ==> |Trim(rest)| > 0 && Trim(rest)[0] == rest[0] by {
      if rest != [] {
        TrimKeepsFirst(rest);
      }
    }
    Trim(rest)
  }

  /** The number of accepted characters from `i` is `n` when exactly those `n` are
      accepted. */
  lemma {:induction false} RunUntil(s: string, i: nat, n: nat, allowed: char -> bool)
    requires i + n <= |s|
    requires forall j :: i <= j < i + n ==> allowed(s[j])
    requires i + n == |s| || !allowed(s[i + n])
    ensures RunWhile(s, i, allowed) == n
    decreases n
  {
    if n > 0 {
      RunUntil(s, i + 1, n - 1, allowed);
    }
  }

  /** Stripping undoes writing a tag and a run of colons and spaces in front of a
      trimmed prompt that does not itself start with a colon. */
  lemma AiPrefixRoundTrip(tag: string, gap: string, prompt: string)
    requires tag == "AI" || tag == "Ai" || tag == "ai"
    requires |gap| > 0 && forall c <- gap :: IsGap(c)
    requires IsTrimmed(prompt) && (prompt == [] || prompt[0] != ':')
    ensures HasAiPrefix(tag + gap + prompt)
    ensures StripAiPrefix(tag + gap + prompt) == prompt
  {
    var raw := tag + gap + prompt;
    assert raw[..2] == tag && raw[2] == gap[0];
    assert forall j :: 2 <= j < 2 + |gap| ==> raw[j] == gap[j - 2];
    assert 2 + |gap| < |raw| ==> raw[2 + |gap|] == prompt[0];
    RunUntil(raw, 2, |gap|, IsGap);
    assert raw[2 + |gap|..] == prompt;
    TrimmedTrim(prompt);
  }

  /** The length JavaScript gives a string: its count of UTF-16 code units. */
  function JsLength(s: string): (n: nat)
    ensures |s| <= n <= 2 * |s|
  {
    |InteractionState.Utf16(s)|
  }

  /** The prompt of a body: its first line, trimmed, must carry the AI tag, and what
      is left once the tag is stripped must be at least two UTF-16 code units long. */
  function PromptOf(body: string): (r: Option<string>)
    ensures r.Some? ==> r.value != [] && JsLength(r.value) >= 2
    ensures r.Some? ==> IsTrimmed(r.value) && !IsGap(r.value[0])
  {
    var raw := Trim(FirstLine(body));
    if HasAiPrefix(raw) && JsLength(StripAiPrefix(raw)) >= 2 then Some(StripAiPrefix(raw)) else None
  }

  /** The reading of a message. */
  function Read(m: Message, scan: Scanner): Reading {
    Reading(scan.findLink(m.body), PromptOf(m.body), scan.coordsOf(m.body))
  }

  function Reader(scan: Scanner): Message -> Reading {
    m => Read(m, scan)
  }

  /** A message whose first line is a tag, a run of colons and spaces, and a prompt
      of two or more UTF-16 code units is read back as that prompt, whatever follows the
      line. */
  lemma RequestLineRoundTrip(tag: string, gap: string, prompt: string, rest: string)
    requires tag == "AI" || tag == "Ai" || tag == "ai"
    requires |gap| > 0 && forall c <- gap :: IsGap(c) && c != '\n'
    requires JsLength(prompt) >= 2 && IsTrimmed(prompt) && prompt[0] != ':' && '\n' !in prompt
    ensures PromptOf(tag + gap + prompt + "\n" + rest) == Some(prompt)
  {
    var line := tag + gap + prompt;
    LineOfParts(tag, gap, prompt);
    FirstLineOf(line, rest);
    TrimmedTrim(line);
    AiPrefixRoundTrip(tag, gap, prompt);
  }

  /** One character outside the Basic Multilingual Plane is two code units, so it is
      prompt enough. */
  lemma AstralPromptAccepted()
    ensures PromptOf("AI: \U{1F600}\n") == Some("\U{1F600}")
  {
    var face := "\U{1F600}";
    assert InteractionState.Utf16(face) == InteractionState.Utf16([]) + InteractionState.CodeUnits(face[0]);
    assert JsLength(face) == 2;
    assert IsTrimmed(face);
    assert forall c <- ": " :: IsGap(c) && c != '\n';
    assert "AI: \U{1F600}\n" == "AI" + ": " + face + "\n" + "";
    RequestLineRoundTrip("AI", ": ", face, "");
  }

  /** One character inside the Basic Multilingual Plane is one code unit, too short a
      prompt. */
  lemma OneUnitPromptRefused()
    ensures PromptOf("AI: x\n") == None
  {
    var line := "AI" + ": " + "x";
    assert "AI: x\n" == line + "\n" + "";
    assert InteractionState.Utf16("x") == InteractionState.Utf16([]) + InteractionState.CodeUnits('x');
    assert JsLength("x") == 1;
    assert forall c <- ": " :: IsGap(c) && c != '\n';
    LineOfParts("AI", ": ", "x");
    FirstLineOf(line, "");
    TrimmedTrim(line);
    AiPrefixRoundTrip("AI", ": ", "x");
    assert StripAiPrefix(Trim(FirstLine("AI: x\n"))) == "x";
  }

  /** The request line has no line break and no white space at either end. */
  lemma LineOfParts(tag: string, gap: string, prompt: string)
    requires tag == "AI" || tag == "Ai" || tag == "ai"
    requires forall c <- gap :: c != '\n'
    requires |prompt| > 0 && IsTrimmed(prompt) && '\n' !in prompt
    ensures '\n' !in tag + gap + prompt && IsTrimmed(tag + gap + prompt)
  {
    var line := tag + gap + prompt;
    assert line == tag + (gap + prompt);
    assert '\n' !in tag;
    assert '\n' !in gap + prompt;
    assert line[0] == tag[0] && line[|line| - 1] == prompt[|prompt| - 1];
  }

  /** The first line of `line + "\n" + rest` is `line` when `line` has no break. */
  lemma FirstLineOf(line: string, rest: string)
    requires '\n' !in line
    ensures FirstLine(line + "\n" + rest) == line
  {
    var body := line + "\n" + rest;
    assert body[|line|] == '\n' && body[..|line|] == line;
    var r := FirstLine(body);
    assert r != body;
    assert r == line;
  }

  // ---------------------------------------------------------------------------
  // what one thread does

  /** `lastMsg.star(); clearRetryCount(messageId)`. */
  function Settle(p: Pass, id: string): Pass {
    p.(starred := p.starred + {id}, entries := p.entries - {RetryKey(id)})
  }

  /** A counted failure: the retry count goes up by one; at the ceiling the message
      is also settled and the user gets the error of `kind`. */
  function Retry(p: Pass, id: string, url: string, kind: ErrorKind, now: int): Pass {
    var bumped := p.(entries := AfterIncrement(p.entries, id, now));
    if GetRetryCount(p.entries, id) + 1 >= MaxAttempts then
      Settle(bumped, id).(notices := p.notices + [Notice(url, kind)])
    else bumped
  }

  /** A result after which the message is never tried again: a success, or one of the
      two permanent failures. */
  predicate Final(r: SendResult) {
    r.success || r.reason == Some(Pipeline.Phase1Reason) || r.reason == Some(Pipeline.NoApiKeyReason)
  }

  /** How the outcome of the pipeline is booked. */
  function Conclude(p: Pass, id: string, url: string, outcome: Outcome, now: int): (r: Pass)
    ensures r.seen == p.seen && r.calls == p.calls
    ensures p.starred <= r.starred <= p.starred + {id}
  {
    match outcome
    case Returned(r) => if Final(r) then Settle(p, id) else Retry(p, id, url, MaxRetries, now)
    case Raised => Retry(p, id, url, Exception, now)
  }

  /** The link the message is answered on: the matched link, with a short link
      resolved. */
  function TargetUrl(t: Thread, m: Message, link: string, encode: string -> string): string {
    Delivery.ResolveShortLink(link, m.recipient, t.hops, encode)
  }

  /** A message that is not skipped, once it is marked as seen: the retry ceiling is
      checked first, then the link and the prompt; a request goes to the pipeline. */
  function Attend(t: Thread, m: Message, r: Reading, p: Pass, encode: string -> string, now: int): (after: Pass)
    ensures after.seen == p.seen
    ensures p.starred <= after.starred <= p.starred + {m.id}
    ensures after.calls == p.calls
      || (|after.calls| == |p.calls| + 1 && after.calls[..|p.calls|] == p.calls && after.calls[|p.calls|].id == m.id)
  {
    if GetRetryCount(p.entries, m.id) >= MaxAttempts || r.link.None? || r.prompt.None? then Settle(p, m.id)
    else
      var url := TargetUrl(t, m, r.link.value, encode);
      Conclude(p.(calls := p.calls + [Call(m.id, r.prompt.value, url, r.coords)]), m.id, url, t.outcome, now)
  }

  /** The body of the `threads.forEach` callback of `runGateway`, with `read` reading
      the messages. */
  function Handle(t: Thread, p: Pass, read: Message -> Reading, encode: string -> string, now: int): Pass {
    if |t.messages| == 0 then p
    else
      var m := t.messages[|t.messages| - 1];
      if m.id in p.starred || m.id in p.seen then p
      else Attend(t, m, read(m), p.(seen := p.seen + {m.id}), encode, now)
  }

  /** A message that is not skipped is attended to once it is marked as seen. */
  lemma HandleAttends(t: Thread, p: Pass, read: Message -> Reading, encode: string -> string, now: int)
    requires |t.messages| > 0
    requires var m := t.messages[|t.messages| - 1]; m.id !in p.starred && m.id !in p.seen
    ensures var m := t.messages[|t.messages| - 1];
      Handle(t, p, read, encode, now) == Attend(t, m, read(m), Pass(p.starred, p.entries, p.seen + {m.id}, p.calls, p.notices), encode, now)
  {
  }

  /** The same, for messages read with `scan`. */
  lemma HandleReads(t: Thread, p: Pass, scan: Scanner, now: int)
    requires |t.messages| > 0
    requires var m := t.messages[|t.messages| - 1]; m.id !in p.starred && m.id !in p.seen
    ensures var m := t.messages[|t.messages| - 1];
      Handle(t, p, Reader(scan), scan.encode, now)
      == Attend(t, m, Read(m, scan), Pass(p.starred, p.entries, p.seen + {m.id}, p.calls, p.notices), scan.encode, now)
  {
    HandleAttends(t, p, Reader(scan), scan.encode, now);
  }

  /** The threads handled in order. */
  function HandleAll(threads: seq<Thread>, p: Pass, read: Message -> Reading, encode: string -> string, now: int): Pass
    decreases |threads|
  {
    if |threads| == 0 then p
    else Handle(threads[|threads| - 1], HandleAll(threads[..|threads| - 1], p, read, encode, now), read, encode, now)
  }

  /** `cleanupOldRetries()` followed by `cleanupExpired()` of a default manager. */
  function Cleanup(entries: map<string, StoredValue>, now: int): map<string, StoredValue> {
    InteractionState.Expire(Sweep(entries, now), now, InteractionState.ExpiryMs(0))
  }

  /** `runGateway()`: nothing at all for an empty search result; otherwise the
      optional cleanup (`sweep` stands for `Math.random() < 0.1`), then every
      thread, with a fresh set of seen ids. */
  function Run(threads: seq<Thread>, starred: set<string>, entries: map<string, StoredValue>,
               sweep: bool, read: Message -> Reading, encode: string -> string, now: int): Pass
  {
    if |threads| == 0 then Pass(starred, entries, {}, [], [])
    else HandleAll(threads, Pass(starred, if sweep then Cleanup(entries, now) else entries, {}, [], []), read, encode, now)
  }

  // ---------------------------------------------------------------------------
  // the inbox and the loop

  /** The messages' star flags, which the gateway uses as its "done" mark. */
  class Inbox {
    var starred: set<string>

    constructor (starred: set<string>)
      ensures this.starred == starred
    {
      this.starred := starred;
    }

    /** `message.star()`. */
    method Star(id: string)
      modifies this
      ensures starred == old(starred) + {id}
    {
      starred := starred + {id};
    }
  }

  /** Star a message and clear its retry count. */
  method SettleMessage(inbox: Inbox, props: Properties, id: string)
    modifies inbox, props
    ensures inbox.starred == old(inbox.starred) + {id}
    ensures props.entries == old(props.entries) - {RetryKey(id)}
  {
    inbox.Star(id);
    ClearRetryCount(props, id);
  }

  /** Count a failed attempt, and at the ceiling settle the message and tell the user. */
  method RetryMessage(inbox: Inbox, props: Properties, id: string, url: string, kind: ErrorKind, now: int,
                      ghost seen: set<string>, ghost calls: seq<Call>, notices: seq<Notice>)
    returns (notices': seq<Notice>)
    modifies inbox, props
    ensures Retry(Pass(old(inbox.starred), old(props.entries), seen, calls, notices), id, url, kind, now)
      == Pass(inbox.starred, props.entries, seen, calls, notices')
  {
    notices' := notices;
    var newRetryCount := IncrementRetryCount(props, id, now);
    if newRetryCount >= MaxAttempts {
      SettleMessage(inbox, props, id);
      notices' := notices + [Notice(url, kind)];
    }
  }

  /** The prompt line of Code.js:405-418. */
  method ReadPrompt(body: string) returns (prompt: Option<string>)
    ensures prompt == PromptOf(body)
  {
    var rawPrompt := Trim(FirstLine(body));
    if !HasAiPrefix(rawPrompt) {
      return None;
    }
    var userPrompt := StripAiPrefix(rawPrompt);
    if JsLength(userPrompt) < 2 {
      return None;
    }
    return Some(userPrompt);
  }

  /** One thread of `runGateway` (Code.js:267-482): skip a starred message and one
      already seen in this run, otherwise mark it as seen and attend to it. */
  method ProcessThread(t: Thread, inbox: Inbox, props: Properties, scan: Scanner, now: int,
                       seen: set<string>, calls: seq<Call>, notices: seq<Notice>)
    returns (seen': set<string>, calls': seq<Call>, notices': seq<Notice>)
    modifies inbox, props
    ensures Handle(t, Pass(old(inbox.starred), old(props.entries), seen, calls, notices), Reader(scan), scan.encode, now)
      == Pass(inbox.starred, props.entries, seen', calls', notices')
  {
    ghost var p := Pass(inbox.starred, props.entries, seen, calls, notices);
    seen', calls', notices' := seen, calls, notices;
    if |t.messages| == 0 {
      SkipsDone(t, p, Reader(scan), scan.encode, now);
      return;
    }
    var lastMsg := t.messages[|t.messages| - 1];
    if lastMsg.id in inbox.starred || lastMsg.id in seen {
      SkipsDone(t, p, Reader(scan), scan.encode, now);
      return;
    }
    seen' := seen + {lastMsg.id};
    HandleReads(t, p, scan, now);
    calls', notices' := AttendMessage(t, lastMsg, inbox, props, scan, now, seen', calls, notices);
  }

  /** Code.js:298-479 for a message just marked as seen. */
  method AttendMessage(t: Thread, lastMsg: Message, inbox: Inbox, props: Properties, scan: Scanner, now: int,
                       ghost seen: set<string>, calls: seq<Call>, notices: seq<Notice>)
    returns (calls': seq<Call>, notices': seq<Notice>)
    modifies inbox, props
    ensures Attend(t, lastMsg, Read(lastMsg, scan), Pass(old(inbox.starred), old(props.entries), seen, calls, notices), scan.encode, now)
      == Pass(inbox.starred, props.entries, seen, calls', notices')
  {
    calls', notices' := calls, notices;
    var retryCount := GetRetryCount(props.entries, lastMsg.id);
    if retryCount >= MaxAttempts {
      SettleMessage(inbox, props, lastMsg.id);
      return;
    }
    var linkMatch := scan.findLink(lastMsg.body);
    if linkMatch.None? {
      SettleMessage(inbox, props, lastMsg.id);
      return;
    }
    var targetUrl, _ := Delivery.ResolveLink(linkMatch.value, lastMsg.recipient, t.hops, scan.encode);
    var userPrompt := ReadPrompt(lastMsg.body);
    if userPrompt.None? {
      SettleMessage(inbox, props, lastMsg.id);
      return;
    }
    var coords := scan.coordsOf(lastMsg.body);
    calls' := calls + [Call(lastMsg.id, userPrompt.value, targetUrl, coords)];
    notices' := BookOutcome(t.outcome, inbox, props, lastMsg.id, targetUrl, now, seen, calls', notices);
  }

  /** Code.js:428-478: how the outcome of `processAndSend` is booked. */
  method BookOutcome(outcome: Outcome, inbox: Inbox, props: Properties, id: string, url: string, now: int,
                     ghost seen: set<string>, ghost calls: seq<Call>, notices: seq<Notice>)
    returns (notices': seq<Notice>)
    modifies inbox, props
    ensures Conclude(Pass(old(inbox.starred), old(props.entries), seen, calls, notices), id, url, outcome, now)
      == Pass(inbox.starred, props.entries, seen, calls, notices')
  {
    notices' := notices;
    match outcome
    case Returned(result) =>
      if result.success || result.reason == Some(Pipeline.Phase1Reason) || result.reason == Some(Pipeline.NoApiKeyReason) {
        SettleMessage(inbox, props, id);
      } else {
        notices' := RetryMessage(inbox, props, id, url, MaxRetries, now, seen, calls, notices);
      }
    case Raised =>
      notices' := RetryMessage(inbox, props, id, url, Exception, now, seen, calls, notices);
  }

  /** `runGateway()` (Code.js:239-484) at time `now`; `sweep` is the outcome of the
      one-in-ten draw that triggers the cleanup. */
  method RunGateway(threads: seq<Thread>, inbox: Inbox, props: Properties, scan: Scanner, sweep: bool, now: int)
    returns (calls: seq<Call>, notices: seq<Notice>)
    modifies inbox, props
    ensures var after := Run(threads, old(inbox.starred), old(props.entries), sweep, Reader(scan), scan.encode, now);
      inbox.starred == after.starred && props.entries == after.entries
      && calls == after.calls && notices == after.notices
  {
    calls, notices := [], [];
    if |threads| == 0 {
      return;
    }
    if sweep {
      CleanupOldRetries(props, now);
      var stateManager := new InteractionState.InteractionStateManager(0, props);
      var cleaned := stateManager.CleanupExpired(now);
    }
    assert Pass(inbox.starred, props.entries, {}, [], [])
      == Pass(old(inbox.starred), if sweep then Cleanup(old(props.entries), now) else old(props.entries), {}, [], []);
    calls, notices := ProcessThreads(threads, inbox, props, scan, now);
  }

  /** The `threads.forEach` loop of `runGateway`, with a fresh set of seen ids. */
  method ProcessThreads(threads: seq<Thread>, inbox: Inbox, props: Properties, scan: Scanner, now: int)
    returns (calls: seq<Call>, notices: seq<Notice>)
    modifies inbox, props
    ensures var after := HandleAll(threads, Pass(old(inbox.starred), old(props.entries), {}, [], []), Reader(scan), scan.encode, now);
      inbox.starred == after.starred && props.entries == after.entries
      && calls == after.calls && notices == after.notices
  {
    ghost var start := Pass(inbox.starred, props.entries, {}, [], []);
    var processedIds: set<string> := {};
    calls, notices := [], [];
    var i := 0;
    while i < |threads|
      invariant 0 <= i <= |threads|
      invariant HandleAll(threads[..i], start, Reader(scan), scan.encode, now)
        == Pass(inbox.starred, props.entries, processedIds, calls, notices)
    {
      processedIds, calls, notices := ProcessThread(threads[i], inbox, props, scan, now, processedIds, calls, notices);
      assert threads[..i + 1][..i] == threads[..i];
      i := i + 1;
    }
    assert threads[..i] == threads;
  }

  // ---------------------------------------------------------------------------
  // per-message decisions

  /** A thread without messages, a starred message and a message already seen in this
      run are skipped: nothing changes. */
  lemma SkipsDone(t: Thread, p: Pass, read: Message -> Reading, encode: string -> string, now: int)
    requires |t.messages| == 0
      || t.messages[|t.messages| - 1].id in p.starred || t.messages[|t.messages| - 1].id in p.seen
    ensures Handle(t, p, read, encode, now) == p
  {
  }

  /** Clearing or incrementing one message's count leaves another's alone. */
  lemma OtherCount(entries: map<string, StoredValue>, id: string, other: string, now: int)
    requires other != id
    ensures GetRetryCount(entries - {RetryKey(id)}, other) == GetRetryCount(entries, other)
    ensures GetRetryCount(AfterIncrement(entries, id, now), other) == GetRetryCount(entries, other)
  {
    if RetryKey(other) == RetryKey(id) {
      RetryKeyInjective(other, id);
    }
    IncrementCounts(entries, id, other, now);
  }

  /** Booking an outcome touches only the message's own star and retry entry. */
  lemma ConcludeFrame(p: Pass, id: string, url: string, outcome: Outcome, now: int, other: string)
    requires other != id
    ensures var after := Conclude(p, id, url, outcome, now);
      (other in after.starred <==> other in p.starred)
      && GetRetryCount(after.entries, other) == GetRetryCount(p.entries, other)
  {
    OtherCount(p.entries, id, other, now);
    OtherCount(AfterIncrement(p.entries, id, now), id, other, now);
  }

  /** Attending to a message touches only its own star and retry entry. */
  lemma AttendFrame(t: Thread, m: Message, r: Reading, p: Pass, encode: string -> string, now: int, other: string)
    requires other != m.id
    ensures var after := Attend(t, m, r, p, encode, now);
      (other in after.starred <==> other in p.starred)
      && GetRetryCount(after.entries, other) == GetRetryCount(p.entries, other)
  {
    OtherCount(p.entries, m.id, other, now);
    if !(GetRetryCount(p.entries, m.id) >= MaxAttempts || r.link.None? || r.prompt.None?) {
      var url := TargetUrl(t, m, r.link.value, encode);
      ConcludeFrame(p.(calls := p.calls + [Call(m.id, r.prompt.value, url, r.coords)]), m.id, url, t.outcome, now, other);
    }
  }

  /** A message that is not skipped is marked as seen, and only its own star and retry
      entry can change. */
  lemma TouchesOnlyItself(t: Thread, p: Pass, read: Message -> Reading, encode: string -> string, now: int, other: string)
    requires |t.messages| > 0
    requires other != t.messages[|t.messages| - 1].id
    ensures var after := Handle(t, p, read, encode, now);
      (other in after.starred <==> other in p.starred)
      && GetRetryCount(after.entries, other) == GetRetryCount(p.entries, other)
      && (t.messages[|t.messages| - 1].id !in p.starred ==> t.messages[|t.messages| - 1].id in after.seen)
      && after.seen <= p.seen + {t.messages[|t.messages| - 1].id}
  {
    var m := t.messages[|t.messages| - 1];
    if m.id !in p.starred && m.id !in p.seen {
      HandleAttends(t, p, read, encode, now);
      AttendFrame(t, m, read(m), Pass(p.starred, p.entries, p.seen + {m.id}, p.calls, p.notices), encode, now, other);
    }
  }

  /** A message whose count is at the ceiling is settled before any work: it is
      starred, its count cleared, and neither the pipeline nor the user hears of it. */
  lemma CeilingSettles(t: Thread, p: Pass, read: Message -> Reading, encode: string -> string, now: int)
    requires |t.messages| > 0
    requires var id := t.messages[|t.messages| - 1].id;
      id !in p.starred && id !in p.seen && GetRetryCount(p.entries, id) >= MaxAttempts
    ensures var id := t.messages[|t.messages| - 1].id;
      var after := Handle(t, p, read, encode, now);
      id in after.starred && GetRetryCount(after.entries, id) == 0
      && after.calls == p.calls && after.notices == p.notices
  {
  }

  /** Traffic that is not a request (no Garmin link, or no prompt: a first line
      without the AI tag, or a prompt shorter than two characters) is settled without
      any work. */
  lemma NonRequestSettles(t: Thread, p: Pass, read: Message -> Reading, encode: string -> string, now: int)
    requires |t.messages| > 0
    requires var m := t.messages[|t.messages| - 1];
      m.id !in p.starred && m.id !in p.seen && (read(m).link.None? || read(m).prompt.None?)
    ensures var id := t.messages[|t.messages| - 1].id;
      var after := Handle(t, p, read, encode, now);
      id in after.starred && GetRetryCount(after.entries, id) == 0
      && after.calls == p.calls && after.notices == p.notices
  {
  }

  /** A request under the ceiling goes to the pipeline exactly once, with its
      prompt and its resolved link. A success or a permanent failure settles it; any
      other failure or a throw counts one more attempt, and the message is settled
      with an error to the user exactly when that count reaches the ceiling;
      otherwise it is left unstarred with the higher count. */
  lemma RequestBooked(t: Thread, p: Pass, read: Message -> Reading, encode: string -> string, now: int)
    requires |t.messages| > 0
    requires var m := t.messages[|t.messages| - 1];
      m.id !in p.starred && m.id !in p.seen && GetRetryCount(p.entries, m.id) < MaxAttempts
      && read(m).link.Some? && read(m).prompt.Some?
    ensures var m := t.messages[|t.messages| - 1];
      var r := read(m);
      var url := TargetUrl(t, m, r.link.value, encode);
      var after := Handle(t, p, read, encode, now);
      var count := GetRetryCount(p.entries, m.id) + 1;
      var kind := if t.outcome.Raised? then Exception else MaxRetries;
      after.calls == p.calls + [Call(m.id, r.prompt.value, url, r.coords)]
      && (t.outcome.Returned? && Final(t.outcome.result) ==>
            m.id in after.starred && GetRetryCount(after.entries, m.id) == 0 && after.notices == p.notices)
      && (!(t.outcome.Returned? && Final(t.outcome.result)) ==>
            (m.id in after.starred <==> count >= MaxAttempts)
            && (count >= MaxAttempts ==>
                  GetRetryCount(after.entries, m.id) == 0 && after.notices == p.notices + [Notice(url, kind)])
            && (count < MaxAttempts ==>
                  GetRetryCount(after.entries, m.id) == count && after.notices == p.notices))
  {
    var m := t.messages[|t.messages| - 1];
    HandleAttends(t, p, read, encode, now);
    IncrementCounts(p.entries, m.id, m.id, now);
  }

  // ---------------------------------------------------------------------------
  // the retry ceiling across runs

  /** How many more times the pipeline may see a message: none once it is starred,
      otherwise the attempts left below the ceiling. */
  function Potential(starred: set<string>, entries: map<string, StoredValue>, id: string): nat {
    if id in starred || GetRetryCount(entries, id) >= MaxAttempts then 0
    else MaxAttempts - GetRetryCount(entries, id)
  }

  /** How many of `calls` were for message `id`. */
  function CallsFor(calls: seq<Call>, id: string): nat
    decreases |calls|
  {
    if |calls| == 0 then 0
    else CallsFor(calls[..|calls| - 1], id) + (if calls[|calls| - 1].id == id then 1 else 0)
  }

  lemma {:induction false} CallsForAppend(a: seq<Call>, b: seq<Call>, id: string)
    ensures CallsFor(a + b, id) == CallsFor(a, id) + CallsFor(b, id)
    decreases |b|
  {
    if |b| > 0 {
      assert (a + b)[..|a + b| - 1] == a + b[..|b| - 1];
      CallsForAppend(a, b[..|b| - 1], id);
    } else {
      assert a + b == a;
    }
  }

  /** Booking an outcome of a message under the ceiling lowers its potential. */
  lemma ConcludeSpends(p: Pass, id: string, url: string, outcome: Outcome, now: int)
    requires id !in p.starred && GetRetryCount(p.entries, id) < MaxAttempts
    ensures var after := Conclude(p, id, url, outcome, now);
      Potential(after.starred, after.entries, id) < Potential(p.starred, p.entries, id)
  {
    IncrementCounts(p.entries, id, id, now);
  }

  /** Attending to a message never raises any message's potential, and a hand-over
      to the pipeline lowers it by at least one. */
  lemma AttendSpends(t: Thread, m: Message, r: Reading, q: Pass, encode: string -> string, now: int, id: string)
    requires m.id !in q.starred
    ensures var after := Attend(t, m, r, q, encode, now);
      Potential(after.starred, after.entries, id) + CallsFor(after.calls, id)
      <= Potential(q.starred, q.entries, id) + CallsFor(q.calls, id)
  {
    var after := Attend(t, m, r, q, encode, now);
    if GetRetryCount(q.entries, m.id) >= MaxAttempts || r.link.None? || r.prompt.None? {
      assert after == Settle(q, m.id);
      if m.id != id {
        OtherCount(q.entries, m.id, id, now);
      }
    } else {
      var url := TargetUrl(t, m, r.link.value, encode);
      var q' := q.(calls := q.calls + [Call(m.id, r.prompt.value, url, r.coords)]);
      assert after == Conclude(q', m.id, url, t.outcome, now);
      assert q'.calls[..|q'.calls| - 1] == q.calls;
      if m.id != id {
        ConcludeFrame(q', m.id, url, t.outcome, now, id);
      } else {
        ConcludeSpends(q', m.id, url, t.outcome, now);
      }
    }
  }

  /** Handling one thread never raises a message's potential, and each hand-over of
      the message to the pipeline lowers it by at least one. */
  lemma HandleSpends(t: Thread, p: Pass, read: Message -> Reading, encode: string -> string, now: int, id: string)
    ensures var after := Handle(t, p, read, encode, now);
      Potential(after.starred, after.entries, id) + CallsFor(after.calls, id)
      <= Potential(p.starred, p.entries, id) + CallsFor(p.calls, id)
  {
    if |t.messages| > 0 {
      var m := t.messages[|t.messages| - 1];
      if m.id !in p.starred && m.id !in p.seen {
        HandleAttends(t, p, read, encode, now);
        AttendSpends(t, m, read(m), Pass(p.starred, p.entries, p.seen + {m.id}, p.calls, p.notices), encode, now, id);
      }
    }
  }

  lemma {:induction false} HandleAllSpends(threads: seq<Thread>, p: Pass, read: Message -> Reading,
                                           encode: string -> string, now: int, id: string)
    ensures var after := HandleAll(threads, p, read, encode, now);
      Potential(after.starred, after.entries, id) + CallsFor(after.calls, id)
      <= Potential(p.starred, p.entries, id) + CallsFor(p.calls, id)
    decreases |threads|
  {
    if |threads| > 0 {
      HandleAllSpends(threads[..|threads| - 1], p, read, encode, now, id);
      HandleSpends(threads[|threads| - 1], HandleAll(threads[..|threads| - 1], p, read, encode, now), read, encode, now, id);
    }
  }

  /** One run of the gateway without the cleanup hands a message to the pipeline at
      most as often as its potential allows, and what is left is lower by that much. */
  lemma RunSpends(threads: seq<Thread>, starred: set<string>, entries: map<string, StoredValue>,
                  read: Message -> Reading, encode: string -> string, now: int, id: string)
    ensures var after := Run(threads, starred, entries, false, read, encode, now);
      Potential(after.starred, after.entries, id) + CallsFor(after.calls, id) <= Potential(starred, entries, id)
  {
    if |threads| > 0 {
      HandleAllSpends(threads, Pass(starred, entries, {}, [], []), read, encode, now, id);
    }
  }

  /** One scheduled run: the search result and the time. */
  datatype Round = Round(threads: seq<Thread>, now: int)

  /** Consecutive runs without the cleanup: the final stars and store, and every
      hand-over to the pipeline in order. */
  function Rounds(rounds: seq<Round>, starred: set<string>, entries: map<string, StoredValue>,
                  read: Message -> Reading, encode: string -> string)
    : (set<string>, map<string, StoredValue>, seq<Call>)
    decreases |rounds|
  {
    if |rounds| == 0 then (starred, entries, [])
    else
      var before := Rounds(rounds[..|rounds| - 1], starred, entries, read, encode);
      var last := rounds[|rounds| - 1];
      var after := Run(last.threads, before.0, before.1, false, read, encode, last.now);
      (after.starred, after.entries, before.2 + after.calls)
  }

  lemma {:induction false} RoundsSpend(rounds: seq<Round>, starred: set<string>, entries: map<string, StoredValue>,
                                       read: Message -> Reading, encode: string -> string, id: string)
    ensures var after := Rounds(rounds, starred, entries, read, encode);
      Potential(after.0, after.1, id) + CallsFor(after.2, id) <= Potential(starred, entries, id)
    decreases |rounds|
  {
    if |rounds| > 0 {
      var before := Rounds(rounds[..|rounds| - 1], starred, entries, read, encode);
      var last := rounds[|rounds| - 1];
      RoundsSpend(rounds[..|rounds| - 1], starred, entries, read, encode, id);
      RunSpends(last.threads, before.0, before.1, read, encode, last.now, id);
      CallsForAppend(before.2, Run(last.threads, before.0, before.1, false, read, encode, last.now).calls, id);
    }
  }

  /** `RETRY.MAX_ATTEMPTS`: however many runs without the cleanup follow, a new
      message (unstarred, with no retry entry) reaches the pipeline at most three
      times. */
  lemma AtMostThreeAttempts(rounds: seq<Round>, starred: set<string>, entries: map<string, StoredValue>,
                            read: Message -> Reading, encode: string -> string, id: string)
    requires id !in starred && RetryKey(id) !in entries
    ensures CallsFor(Rounds(rounds, starred, entries, read, encode).2, id) <= MaxAttempts
  {
    RoundsSpend(rounds, starred, entries, read, encode, id);
  }

  // ---------------------------------------------------------------------------
  // one hand-over per message and run

  /** From `p` to `q` the stars, the seen ids and the calls only grew, and every new
      call is for a message that was neither starred nor seen at `p`, is seen at `q`,
      and has no other new call. */
  predicate CalledOnce(p: Pass, q: Pass) {
    p.calls <= q.calls && p.seen <= q.seen && p.starred <= q.starred
    && (forall i :: |p.calls| <= i < |q.calls| ==>
          q.calls[i].id in q.seen && q.calls[i].id !in p.seen && q.calls[i].id !in p.starred)
    && (forall i, j :: |p.calls| <= i < j < |q.calls| ==> q.calls[i].id != q.calls[j].id)
  }

  lemma HandleOnce(t: Thread, p: Pass, read: Message -> Reading, encode: string -> string, now: int)
    ensures CalledOnce(p, Handle(t, p, read, encode, now))
  {
    if |t.messages| > 0 {
      var m := t.messages[|t.messages| - 1];
      if m.id !in p.starred && m.id !in p.seen {
        HandleAttends(t, p, read, encode, now);
        var q := Pass(p.starred, p.entries, p.seen + {m.id}, p.calls, p.notices);
        var after := Attend(t, m, read(m), q, encode, now);
        assert after.seen == q.seen && p.starred <= after.starred;
      }
    }
  }

  lemma {:induction false} HandleAllOnce(threads: seq<Thread>, p: Pass, read: Message -> Reading,
                                         encode: string -> string, now: int)
    ensures CalledOnce(p, HandleAll(threads, p, read, encode, now))
    decreases |threads|
  {
    if |threads| > 0 {
      var mid := HandleAll(threads[..|threads| - 1], p, read, encode, now);
      var q := HandleAll(threads, p, read, encode, now);
      HandleAllOnce(threads[..|threads| - 1], p, read, encode, now);
      HandleOnce(threads[|threads| - 1], mid, read, encode, now);
      assert forall i :: |p.calls| <= i < |mid.calls| ==> q.calls[i] == mid.calls[i];
    }
  }

  /** Within one run no message reaches the pipeline twice, and none that was starred
      when the run began reaches it at all. */
  lemma RunCallsOnce(threads: seq<Thread>, starred: set<string>, entries: map<string, StoredValue>,
                     sweep: bool, read: Message -> Reading, encode: string -> string, now: int)
    ensures var calls := Run(threads, starred, entries, sweep, read, encode, now).calls;
      (forall i, j :: 0 <= i < j < |calls| ==> calls[i].id != calls[j].id)
      && (forall i :: 0 <= i < |calls| ==> calls[i].id !in starred)
  {
    if |threads| > 0 {
      HandleAllOnce(threads, Pass(starred, if sweep then Cleanup(entries, now) else entries, {}, [], []), read, encode, now);
    }
  }

  /** The conversation-state cleanup of the sweep leaves every retry count alone, so
      the sweep changes a count only where `cleanupOldRetries` drops a stale entry. */
  lemma CleanupCounts(entries: map<string, StoredValue>, now: int, id: string)
    ensures GetRetryCount(Cleanup(entries, now), id) == GetRetryCount(Sweep(entries, now), id)
    ensures GetRetryCount(Cleanup(entries, now), id) in {GetRetryCount(entries, id), 0}
  {
    var swept := Sweep(entries, now);
    var k := RetryKey(id);
    if k in swept {
      assert k[0] == 'R' && InteractionState.StatePrefix[0] == 'I';
      assert !StartsWith(k, InteractionState.StatePrefix);
      InteractionState.ExpireKeeps(swept, now, InteractionState.ExpiryMs(0), k);
    }
    SweepCount(entries, now, id);
  }
}
