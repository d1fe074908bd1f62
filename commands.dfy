/** The small command parsers of Code.js: the help command, the `SIZE n` override
    and the `[code] message` text of an error sent to the user. */
module Commands {
  import opened Wrappers
  import opened Text

  // ---------------------------------------------------------------------------
  // keywords

  /** `re.test(s)` for `re = \b(K1|...|Kn)\b`: some keyword occurs between two word
      boundaries. */
  predicate HasKeyword(s: string, keywords: seq<string>) {
    exists i, k | 0 <= i <= |s| && k in keywords ::
      At(s, i, k) && WordBoundary(s, i) && WordBoundary(s, i + |k|)
  }

  /** `^(K1|...|Kn)\b`: the text starts with a keyword followed by a word boundary. */
  predicate StartsWithKeyword(s: string, keywords: seq<string>) {
    exists k | k in keywords :: StartsWith(s, k) && WordBoundary(s, |k|)
  }

  /** A keyword found at `i` is a witness of `HasKeyword`. */
  lemma KeywordAt(s: string, keywords: seq<string>, i: nat, k: string)
    requires k in keywords && At(s, i, k) && WordBoundary(s, i) && WordBoundary(s, i + |k|)
    ensures HasKeyword(s, keywords)
  {
  }

  // ---------------------------------------------------------------------------
  // isHelpCommand

  const HelpPhrases: seq<string> :=
    ["HELP", "?", "HELP ME", "COMMANDS", "LIST TOOLS", "TOOLS", "HOW TO USE",
     "HOW TO USE YOU", "WHAT CAN YOU DO"]

  /** `isHelpCommand(prompt)`: the upper-cased, trimmed prompt is one of the help
      phrases, or starts with the word HELP. */
  predicate IsHelpCommand(prompt: string) {
    var u := Trim(Upper(prompt));
    u in HelpPhrases || StartsWithKeyword(u, ["HELP"])
  }

  lemma UpperLower(s: string)
    ensures Upper(Lower(s)) == Upper(s)
  {
    assert forall i :: 0 <= i < |s| ==> UpperChar(LowerChar(s[i])) == UpperChar(s[i]);
  }

  /** The help test ignores ASCII case. */
  lemma HelpIgnoresCase(prompt: string)
    ensures IsHelpCommand(Lower(prompt)) == IsHelpCommand(prompt)
  {
    UpperLower(prompt);
  }

  /** For a trimmed prompt that starts with HELP in any case: it is help exactly when
      the HELP is a word of its own, so "help size 600" is help and "HELPFUL" is not. */
  lemma HelpPrefix(prompt: string)
    requires IsTrimmed(prompt) && AtUpper(prompt, 0, "HELP")
    ensures IsHelpCommand(prompt) <==> (|prompt| == 4 || !IsWordChar(prompt[4]))
  {
    var u := Upper(prompt);
    UpperTrimmed(prompt);
    HelpWordUpper(prompt);
    if |prompt| == 4 || !IsWordChar(prompt[4]) {
      assert WordBoundary(u, 4);
      assert StartsWithKeyword(u, ["HELP"]) by { assert "HELP" in ["HELP"]; }
    } else {
      assert !WordBoundary(u, 4);
      assert !StartsWithKeyword(u, ["HELP"]);
      NotHelpPhrase(u);
    }
  }

  lemma HelpWordUpper(prompt: string)
    requires AtUpper(prompt, 0, "HELP")
    ensures var u := Upper(prompt);
      StartsWith(u, "HELP") && u[0] == 'H' && u[1] == 'E'
      && (|u| > 4 ==> (IsWordChar(u[4]) <==> IsWordChar(prompt[4])))
  {
    var u := Upper(prompt);
    assert u[..4] == Upper(prompt[..4]);
    assert u[..4][0] == 'H' && u[..4][1] == 'E';
  }

  /** No help phrase starts with HELP followed by a word character. */
  lemma NotHelpPhrase(u: string)
    requires |u| > 4 && StartsWith(u, "HELP") && IsWordChar(u[4])
    ensures u !in HelpPhrases
  {
    assert u[..4] == "HELP";
    assert u[0] == 'H' && u[1] == 'E' && u[2] == 'L' && u[3] == 'P';
  }

  lemma UpperTrimmed(s: string)
    requires IsTrimmed(s)
    ensures Trim(Upper(s)) == Upper(s)
  {
    TrimmedTrim(Upper(s));
  }

  // ---------------------------------------------------------------------------
  // the SIZE command

  /** How a size pattern treats the word RESPONSE in front of SIZE: `(?:RESPONSE\s+)?`,
      absent, or required. */
  datatype Prefix = Optional | Absent | Required

  /** Positions of one match of a size pattern: the match is `s[start..end]` and the
      digits are `s[digits..end]`. */
  datatype SizeCommand = SizeCommand(start: nat, digits: nat, end: nat)

  /** `SIZE\s+(\d+)\b` (ignoring case) matched from index `k`: the index of the
      digits and the end of the match. Backtracking cannot help: fewer white-space
      characters leave a space where a digit is needed, fewer digits leave no word
      boundary. */
  function SizeFrom(s: string, k: nat): (r: Option<(nat, nat)>)
    ensures r.Some? ==> k + 4 < r.value.0 < r.value.1 <= |s|
    ensures r.Some? ==> forall j :: r.value.0 <= j < r.value.1 ==> IsDigit(s[j])
  {
    if !AtUpper(s, k, "SIZE") then None
    else
      var spaces := SpaceRun(s[k + 4..]);
      var digits := k + 4 + spaces;
      var n := DigitRun(s[digits..]);
      var end := digits + n;
      if spaces == 0 || n == 0 then None
      else if end < |s| && IsWordChar(s[end]) then None
      else Some((digits, end))
  }

  /** One attempt of `\b(?:RESPONSE\s+)?SIZE\s+(\d+)\b` (with the prefix as `prefix`
      says) at index `i`: the optional group is tried first, then skipped. */
  function SizeCommandAt(s: string, i: nat, prefix: Prefix): (r: Option<SizeCommand>)
    requires i <= |s|
    ensures r.Some? ==> r.value.start == i < r.value.digits < r.value.end <= |s|
    ensures r.Some? ==> forall j :: r.value.digits <= j < r.value.end ==> IsDigit(s[j])
  {
    if !WordBoundary(s, i) then None
    else
      var withResponse :=
        if prefix != Absent && AtUpper(s, i, "RESPONSE") && SpaceRun(s[i + 8..]) > 0
        then SizeFrom(s, i + 8 + SpaceRun(s[i + 8..]))
        else None;
      if withResponse.Some? then
        Some(SizeCommand(i, withResponse.value.0, withResponse.value.1))
      else if prefix == Required then None
      else
        var plain := SizeFrom(s, i);
        if plain.Some? then Some(SizeCommand(i, plain.value.0, plain.value.1)) else None
  }

  /** The leftmost match of the size pattern at or after `i`. */
  function FindSizeCommand(s: string, i: nat, prefix: Prefix): (r: Option<SizeCommand>)
    requires i <= |s|
    decreases |s| - i
    ensures r.Some? ==> i <= r.value.start <= |s| && SizeCommandAt(s, r.value.start, prefix) == r
    ensures forall j :: i <= j <= |s| && (r.None? || j < r.value.start) ==> SizeCommandAt(s, j, prefix).None?
  {
    var here := SizeCommandAt(s, i, prefix);
    if here.Some? then here
    else if i == |s| then None
    else FindSizeCommand(s, i + 1, prefix)
  }

  /** `extractSizeOverride(prompt)`: the digits of the first `SIZE n` or
      `RESPONSE SIZE n` (any case), if their value is positive. */
  function ExtractSizeOverride(prompt: string): (r: Option<nat>)
    ensures r.Some? ==> r.value > 0
    ensures r.Some? <==>
      var m := FindSizeCommand(prompt, 0, Optional);
      m.Some? && DigitsValue(prompt[m.value.digits..m.value.end]) > 0
    ensures r.Some? ==>
      var m := FindSizeCommand(prompt, 0, Optional);
      r.value == DigitsValue(prompt[m.value.digits..m.value.end])
  {
    var m := FindSizeCommand(prompt, 0, Optional);
    if m.None? then None
    else
      var value := DigitsValue(prompt[m.value.digits..m.value.end]);
      if value > 0 then Some(value) else None
  }

  /** The matched digits are the text of the positive size that was read. */
  lemma SizeOverrideDigits(prompt: string)
    requires ExtractSizeOverride(prompt).Some?
    ensures var m := FindSizeCommand(prompt, 0, Optional).value;
      var d := prompt[m.digits..m.end];
      0 < |d| && (forall i :: 0 <= i < |d| ==> IsDigit(d[i]))
      && DigitsValue(d) == ExtractSizeOverride(prompt).value
  {
    var m := FindSizeCommand(prompt, 0, Optional).value;
    assert SizeCommandAt(prompt, m.start, Optional).Some?;
  }

  /** `s` with `s[m.start..m.end]` removed, as `replace(re, "")` removes the first match. */
  function RemoveMatch(s: string, m: Option<SizeCommand>): (r: string)
    requires m.Some? ==> m.value.start <= m.value.end <= |s|
    ensures m.None? ==> r == s
    ensures m.Some? ==> |r| == |s| - (m.value.end - m.value.start)
  {
    if m.None? then s else s[..m.value.start] + s[m.value.end..]
  }

  /** The prompt as `processAndSend` leaves it after a size override: the first
      `SIZE n` is removed, then the first `RESPONSE SIZE n`, then the text is
      trimmed. */
  function StripSizeAsWritten(prompt: string): (r: string)
    ensures |r| <= |prompt|
  {
    var once := RemoveMatch(prompt, FindSizeCommand(prompt, 0, Absent));
    Trim(RemoveMatch(once, FindSizeCommand(once, 0, Required)))
  }

  /** A prompt that asks for 800 characters with the long form of the command. */
  const ResponseSizePrompt: string := "RESPONSE SIZE 800 x"

  /** Removing `SIZE n` first strands the word RESPONSE: the second replacement can
      no longer match. */
  lemma StripSizeAsWrittenKeepsResponse()
    ensures ExtractSizeOverride(ResponseSizePrompt) == Some(800)
    ensures StripSizeAsWritten(ResponseSizePrompt) == "RESPONSE  x"
  {
    ResponseSizeMatch();
    ResponseSizeValue();
    PlainSizeMatch();
    StrandedResponse();
  }

  /** The stripped prompt is the text around exactly the command whose digits gave
      the size, and no earlier position starts a command. */
  lemma StripSizeRemovesCommand(prompt: string)
    requires ExtractSizeOverride(prompt).Some?
    ensures exists m: SizeCommand :: StripsCommand(prompt, m, ExtractSizeOverride(prompt).value)
  {
    var m := FindSizeCommand(prompt, 0, Optional).value;
    assert SizeCommandAt(prompt, m.start, Optional) == Some(m);
    assert StripsCommand(prompt, m, ExtractSizeOverride(prompt).value);
  }

  /** `m` is the first size command of `prompt`, its digits read `size`, and the
      stripped prompt is what surrounds it. */
  predicate StripsCommand(prompt: string, m: SizeCommand, size: nat) {
    m.start <= m.digits <= m.end <= |prompt|
    && SizeCommandAt(prompt, m.start, Optional) == Some(m)
    && DigitsValue(prompt[m.digits..m.end]) == size
    && (forall j :: 0 <= j < m.start ==> SizeCommandAt(prompt, j, Optional).None?)
    && StripSize(prompt) == Trim(prompt[..m.start] + prompt[m.end..])
  }

  /** The prompt with the whole size command removed: the match of the same
      pattern `extractSizeOverride` reads, `RESPONSE` included, then trimmed. */
  function StripSize(prompt: string): (r: string)
    ensures |r| <= |prompt|
  {
    Trim(RemoveMatch(prompt, FindSizeCommand(prompt, 0, Optional)))
  }

  /** On the same prompt the whole command goes. */
  lemma StripSizeDropsResponse()
    ensures StripSize(ResponseSizePrompt) == "x"
  {
    ResponseSizeMatch();
    var rest := RemoveMatch(ResponseSizePrompt, Some(SizeCommand(0, 14, 17)));
    assert rest == " x";
    TrimSpaceX();
  }

  lemma TrimSpaceX()
    ensures Trim(" x") == "x"
  {
    assert " x"[1..] == "x";
    assert !IsSpace('x');
  }

  // Steps through `ResponseSizePrompt`, one fact each.

  lemma ResponseWordAt0()
    ensures AtUpper(ResponseSizePrompt, 0, "RESPONSE")
  {
    assert ResponseSizePrompt[0..8] == "RESPONSE";
  }

  lemma SizeWordAt9()
    ensures AtUpper(ResponseSizePrompt, 9, "SIZE")
  {
    assert ResponseSizePrompt[9..13] == "SIZE";
  }

  lemma OneSpaceAt(s: string, k: nat)
    requires k + 1 < |s| && IsSpace(s[k]) && !IsSpace(s[k + 1])
    ensures SpaceRun(s[k..]) == 1
  {
    assert s[k..][1..] == s[k + 1..];
  }

  lemma DigitsAt14()
    ensures DigitRun(ResponseSizePrompt[14..]) == 3
  {
    var p := ResponseSizePrompt;
    assert p[14..][1..] == p[15..] && p[15..][1..] == p[16..] && p[16..][1..] == p[17..];
    assert !IsDigit(p[17]);
  }

  lemma PlainSizeAt9()
    ensures SizeFrom(ResponseSizePrompt, 9) == Some((14, 17))
  {
    var p := ResponseSizePrompt;
    SizeWordAt9();
    OneSpaceAt(p, 13);
    DigitsAt14();
    assert !IsWordChar(p[17]);
  }

  lemma ResponseSizeMatch()
    ensures FindSizeCommand(ResponseSizePrompt, 0, Optional) == Some(SizeCommand(0, 14, 17))
  {
    ResponseCommandAt0();
  }

  lemma ResponseCommandAt0()
    ensures SizeCommandAt(ResponseSizePrompt, 0, Optional) == Some(SizeCommand(0, 14, 17))
  {
    ResponseWordAt0();
    SpaceAt8();
    PlainSizeAt9();
    BoundaryAt0();
    PrefixedAt(ResponseSizePrompt, 0, 14, 17);
  }

  lemma SpaceAt8()
    ensures SpaceRun(ResponseSizePrompt[8..]) == 1
  {
    var p := ResponseSizePrompt;
    assert p[8] == ' ' && p[9] == 'S';
    OneSpaceAt(p, 8);
  }

  lemma BoundaryAt0()
    ensures WordBoundary(ResponseSizePrompt, 0)
  {
    assert IsWordChar(ResponseSizePrompt[0]);
  }

  /** Where the `RESPONSE` prefix and a size match follow a boundary, the prefixed
      reading is the one taken. */
  lemma PrefixedAt(s: string, i: nat, digits: nat, end: nat)
    requires i + 8 <= |s| && WordBoundary(s, i) && AtUpper(s, i, "RESPONSE")
    requires SpaceRun(s[i + 8..]) > 0
    requires SizeFrom(s, i + 8 + SpaceRun(s[i + 8..])) == Some((digits, end))
    ensures SizeCommandAt(s, i, Optional) == Some(SizeCommand(i, digits, end))
  {
  }

  lemma ResponseSizeValue()
    ensures DigitsValue(ResponseSizePrompt[14..17]) == 800
  {
    assert ResponseSizePrompt[14..17] == "800";
    assert "800"[..2] == "80" && "80"[..1] == "8" && "8"[..0] == "";
  }

  lemma PlainSizeMatch()
    ensures FindSizeCommand(ResponseSizePrompt, 0, Absent) == Some(SizeCommand(9, 14, 17))
  {
    var p := ResponseSizePrompt;
    forall j | 0 <= j < 9 ensures SizeCommandAt(p, j, Absent).None? {
      NoSizeWordBefore9(j);
    }
    PlainSizeAt9();
    assert WordBoundary(p, 9);
    assert SizeCommandAt(p, 9, Absent) == Some(SizeCommand(9, 14, 17));
    FirstAt(p, 9, Absent);
  }

  lemma NoSizeWordBefore9(j: nat)
    requires j < 9
    ensures !AtUpper(ResponseSizePrompt, j, "SIZE")
  {
    var p := ResponseSizePrompt;
    assert Upper(p[j..j + 4])[0] == UpperChar(p[j]);
    assert Upper(p[j..j + 4])[1] == UpperChar(p[j + 1]);
    assert p[j] != 'S' || p[j + 1] != 'I';
  }

  /** A match at `k` with none before it is what the search from 0 finds. */
  lemma FirstAt(s: string, k: nat, prefix: Prefix)
    requires k <= |s| && SizeCommandAt(s, k, prefix).Some?
    requires forall j :: 0 <= j < k ==> SizeCommandAt(s, j, prefix).None?
    ensures FindSizeCommand(s, 0, prefix) == SizeCommandAt(s, k, prefix)
  {
  }

  lemma StrandedResponse()
    ensures RemoveMatch(ResponseSizePrompt, Some(SizeCommand(9, 14, 17))) == "RESPONSE  x"
    ensures FindSizeCommand("RESPONSE  x", 0, Required).None?
    ensures Trim("RESPONSE  x") == "RESPONSE  x"
  {
    var s := "RESPONSE  x";
    forall j | 0 <= j <= |s| ensures SizeCommandAt(s, j, Required).None? {
      if 0 < j {
        assert !AtUpper(s, j, "RESPONSE");
      } else {
        NoSizeAfterResponse();
      }
    }
    TrimmedTrim(s);
  }

  lemma NoSizeAfterResponse()
    ensures SpaceRun("RESPONSE  x"[8..]) == 2
    ensures SizeFrom("RESPONSE  x", 10).None?
  {
    var s := "RESPONSE  x";
    assert s[8..][1..] == s[9..] && s[9..][1..] == s[10..];
  }

  // ---------------------------------------------------------------------------
  // error messages

  /** The entries of `ERROR_MESSAGES`. */
  datatype ErrorKind =
    NoApiKey | AiPermanentFail | AiOverloaded | MaxRetries | SendFailed | Exception | GarminPostFailed

  function ErrorCode(k: ErrorKind): string {
    match k
    case NoApiKey => "ERR:CONFIG"
    case AiPermanentFail => "ERR:AI"
    case AiOverloaded => "ERR:BUSY"
    case MaxRetries => "ERR:RETRY"
    case SendFailed => "ERR:SEND"
    case Exception => "ERR:SYS"
    case GarminPostFailed => "ERR:GARMIN"
  }

  function ErrorMessage(k: ErrorKind): string {
    match k
    case NoApiKey => "System not configured. Admin: add GEMINI_KEY to Script Properties."
    case AiPermanentFail => "AI failed. Try: shorter query, WIKI term, or NEWS instead."
    case AiOverloaded => "AI overloaded. Wait 1-2min, resend same msg."
    case MaxRetries => "Failed 3x. Wait 5min, try simpler query or WIKI/NEWS."
    case SendFailed => "Reply failed. Resend your msg or try shorter query."
    case Exception => "System error. Resend msg. If persists, try WIKI term."
    case GarminPostFailed => "Garmin reply failed. Check link valid. Try resending original msg."
  }

  /** The text `sendErrorToUser` posts: `"[" + code + "] " + message`. */
  function ErrorText(code: string, message: string): (r: string)
    ensures |r| == |code| + |message| + 3
  {
    "[" + code + "] " + message
  }

  function ErrorFor(k: ErrorKind): string {
    ErrorText(ErrorCode(k), ErrorMessage(k))
  }

  /** Reads a `[code] message` text back into its parts. */
  function ParseErrorText(t: string): (r: Option<(string, string)>)
    ensures r.Some? ==> ErrorText(r.value.0, r.value.1) == t
  {
    if |t| == 0 || t[0] != '[' then None
    else
      var close := IndexFrom(t, "] ", 1);
      if close < 0 then None
      else
        assert t == "[" + t[1..close] + "] " + t[close + 2..] by {
          assert t[close..close + 2] == "] ";
        }
        Some((t[1..close], t[close + 2..]))
  }

  /** The error text keeps its code and message apart: a code without ']' is read back
      exactly. */
  lemma ErrorTextRoundTrip(code: string, message: string)
    requires ']' !in code
    ensures ParseErrorText(ErrorText(code, message)) == Some((code, message))
  {
    var t := ErrorText(code, message);
    var close := 1 + |code|;
    assert At(t, close, "] ");
    forall i: nat | 1 <= i < close ensures !At(t, i, "] ") {
      assert t[i] == code[i - 1];
    }
    assert IndexFrom(t, "] ", 1) == close by {
      IndexFromFirst(t, "] ", 1, close);
    }
    assert t[1..close] == code;
    assert t[close + 2..] == message;
  }

  lemma {:induction false} IndexFromFirst(s: string, pat: string, j: nat, k: nat)
    requires j <= k && At(s, k, pat)
    requires forall i: nat :: j <= i < k ==> !At(s, i, pat)
    ensures IndexFrom(s, pat, j) == k
    decreases k - j
  {
    if j < k {
      IndexFromFirst(s, pat, j + 1, k);
    }
  }
}
