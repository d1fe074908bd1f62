/** `runToolbox(userPrompt, coords)` of Code.js: keyword triggers on the prompt decide
    which context tools run; each answer, or the tool's failure, becomes a block of
    the context given to the model, and failures are summed up in a closing
    `[TOOL FAILURES]` block. */
module Toolbox {
  import opened Wrappers
  import opened Text
  import opened Commands
  import opened ToolResults
  import Paging
  import Weather

  // ---------------------------------------------------------------------------
  // triggers

  const NewsKeywords: seq<string> := ["NEWS", "HEADLINE", "HEADLINES", "CURRENT EVENTS"]
  const WeatherKeywords: seq<string> := ["WEATHER", "FORECAST", "RAIN", "STORM"]
  const AstronomyKeywords: seq<string> :=
    ["SUNRISE", "SUNSET", "MOON", "LIGHT", "DAYLIGHT", "DARK", "NIGHT", "SUN"]
  const FullWeatherKeywords: seq<string> := ["FULL-WEATHER", "FULL_WEATHER", "FULL WEATHER"]
  const DisasterKeywords: seq<string> :=
    ["DISASTERS", "DISASTER", "EARTHQUAKE", "FLOOD", "CYCLONE", "TSUNAMI", "VOLCANO", "ALERT", "EMERGENCY"]
  const GeocodeKeywords: seq<string> := ["ADDRESS", "PLACE", "WHERE", "WHEREAM I", "WHERE AM I"]

  /** The capture of `.+` once `\s+` has taken `run` characters after `WIKI`: the
      greedy run gives characters back until `.` can match the next one. */
  function WikiCapture(p: string, run: nat): (r: Option<string>)
    requires 4 + run <= |p|
    ensures r.Some? ==> exists j :: (4 < j <= 4 + run && j < |p| && !IsLineTerminator(p[j])
      && r.value == p[j..Paging.LineEnd(p, j)])
  {
    if run == 0 then None
    else if 4 + run < |p| && !IsLineTerminator(p[4 + run]) then Some(p[4 + run..Paging.LineEnd(p, 4 + run)])
    else WikiCapture(p, run - 1)
  }

  /** The trimmed term of `/^WIKI\s+(.+)/i` on the prompt, if it matches. */
  function WikiTerm(prompt: string): (term: Option<string>)
    ensures term.Some? ==> AtUpper(prompt, 0, "WIKI") && |prompt| > 5 && IsSpace(prompt[4])
  {
    if AtUpper(prompt, 0, "WIKI") then
      match WikiCapture(prompt, RunWhile(prompt, 4, IsSpace))
      case Some(capture) => Some(Trim(capture))
      case None => None
    else None
  }

  /** `WIKI <term>`, with a one-line trimmed term, asks for exactly that term. */
  lemma WikiTermOf(term: string)
    requires term != [] && IsTrimmed(term)
    requires forall i :: 0 <= i < |term| ==> !IsLineTerminator(term[i])
    ensures WikiTerm("WIKI " + term) == Some(term)
    ensures WikiTerm("wiki " + term) == Some(term)
  {
    UpperWiki();
    var upper, lower := "WIKI " + term, "wiki " + term;
    assert upper[..4] == "WIKI" && upper[5..] == term;
    assert lower[..4] == "wiki" && lower[5..] == term;
    WikiTermIn(upper, term);
    WikiTermIn(lower, term);
  }

  lemma UpperWiki()
    ensures Upper("WIKI") == "WIKI" && Upper("wiki") == "WIKI"
  {
  }

  lemma WikiTermIn(p: string, term: string)
    requires term != [] && IsTrimmed(term)
    requires forall i :: 0 <= i < |term| ==> !IsLineTerminator(term[i])
    requires |p| == 5 + |term| && Upper(p[..4]) == "WIKI" && p[4] == ' ' && p[5..] == term
    ensures WikiTerm(p) == Some(term)
  {
    assert AtUpper(p, 0, "WIKI");
    assert p[5] == term[0];
    assert !IsSpace(p[5]);
    assert RunWhile(p, 5, IsSpace) == 0;
    assert RunWhile(p, 4, IsSpace) == 1;
    assert forall i :: 5 <= i < |p| ==> p[i] == term[i - 5];
    LineEndAtEnd(p, 5);
    assert p[5..Paging.LineEnd(p, 5)] == term;
    assert WikiCapture(p, 1) == Some(term);
    TrimmedTrim(term);
  }

  lemma {:induction false} LineEndAtEnd(p: string, k: nat)
    requires k <= |p|
    requires forall i :: k <= i < |p| ==> !IsLineTerminator(p[i])
    ensures Paging.LineEnd(p, k) == |p|
    decreases |p| - k
  {
    if k < |p| {
      LineEndAtEnd(p, k + 1);
    }
  }

  /** `WIKI` glued to the next word is no command. */
  lemma WikiNeedsSpace(prompt: string)
    requires |prompt| > 4 && !IsSpace(prompt[4])
    ensures WikiTerm(prompt) == None
  {
  }

  // ---------------------------------------------------------------------------
  // inputs

  /** The coordinates found in the message; the texts are how JavaScript renders
      the two numbers. */
  datatype Coords = Coords(lat: real, lon: real, latText: string, lonText: string)

  /** `coords && coords.lat && coords.lon`: a coordinate of exactly 0 counts as
      missing. */
  predicate Located(coords: Option<Coords>) {
    coords.Some? && coords.value.lat != 0.0 && coords.value.lon != 0.0
  }

  /** The answers the tools give; `None` is a tool whose construction or call threw. */
  datatype Tools = Tools(
    wiki: string -> Option<ToolResult>,
    news: Option<ToolResult>,
    geocode: Coords -> Option<ToolResult>,
    weather: (Coords, bool) -> Option<Weather.WeatherResult>,
    gdacs: Coords -> Option<ToolResult>)

  /** A tool the toolbox consulted, with its arguments. */
  datatype ToolCall = CallWiki(term: string) | CallNews | CallGeocode(at: Coords)
    | CallWeather(at: Coords, withAstronomy: bool) | CallGdacs(at: Coords)

  /** The blocks, errors and tool calls one part of the toolbox adds. */
  datatype Section = Section(parts: seq<string>, errors: seq<string>, calls: seq<ToolCall>)

  const Nothing: Section := Section([], [], [])

  function Plus(a: Section, b: Section): Section {
    Section(a.parts + b.parts, a.errors + b.errors, a.calls + b.calls)
  }

  /** A template's `${x}`: `null` renders as "null". */
  function Shown(o: Option<string>): string {
    if o.Some? then o.value else "null"
  }

  /** Every block starts with `[` and a tool's tag, never with `[T`. */
  predicate ToolBlock(p: string) {
    |p| > 1 && p[0] == '[' && p[1] != 'T'
  }

  predicate ToolBlocks(s: Section) {
    forall i :: 0 <= i < |s.parts| ==> ToolBlock(s.parts[i])
  }


  // ---------------------------------------------------------------------------
  // blocks and error entries

  /** Which keyword sets occur in the upper-cased prompt. */
  datatype Triggers = Triggers(news: bool, geocode: bool, weather: bool, astronomy: bool, full: bool, disasters: bool)

  function TriggersOf(upper: string): Triggers {
    Triggers(HasKeyword(upper, NewsKeywords), HasKeyword(upper, GeocodeKeywords),
             HasKeyword(upper, WeatherKeywords), HasKeyword(upper, AstronomyKeywords),
             HasKeyword(upper, FullWeatherKeywords), HasKeyword(upper, DisasterKeywords))
  }

  /** A block's tag, such as `[NEWS]`: it never begins with `[T`. */
  predicate ToolTag(tag: string) {
    |tag| > 1 && tag[0] == '[' && tag[1] != 'T'
  }

  const NewsTag: string := "[NEWS]"
  const HeadlinesTag: string := "[NEWS HEADLINES]"
  const LocationTag: string := "[LOCATION]"
  const LocationNameTag: string := "[LOCATION NAME]"
  const WeatherTag: string := "[WEATHER]"
  const ForecastTag: string := "[WEATHER FORECAST]"
  const AstronomyTag: string := "[ASTRONOMY]"
  const FullWeatherTag: string := "[FULL WEATHER DATA]"
  const DisasterTag: string := "[DISASTER ALERTS]"

  function WikiTag(term: string): (tag: string)
    ensures ToolTag(tag)
  {
    "[WIKIPEDIA: " + term + "]"
  }

  lemma TagsAreToolTags()
    ensures ToolTag(NewsTag) && ToolTag(HeadlinesTag) && ToolTag(LocationTag) && ToolTag(LocationNameTag)
    ensures ToolTag(WeatherTag) && ToolTag(ForecastTag) && ToolTag(AstronomyTag) && ToolTag(FullWeatherTag)
    ensures ToolTag(DisasterTag)
  {
  }

  /** `tag + " NOT AVAILABLE - " + why`. */
  function Unavailable(tag: string, why: string): (p: string)
    requires ToolTag(tag)
    ensures ToolBlock(p)
  {
    tag + " NOT AVAILABLE - " + why
  }

  /** `tag + "\n" + text`. */
  function Titled(tag: string, text: string): (p: string)
    requires ToolTag(tag)
    ensures ToolBlock(p)
  {
    tag + "\n" + text
  }

  /** An entry of `result.errors`: the tool's name, a colon and what went wrong. */
  function Failure(tool: string, error: string): (e: string)
    ensures StartsWith(e, tool + ":")
  {
    tool + ":" + error
  }

  const ToolError: string := "Tool error"
  const ToolErrorLower: string := "tool error"
  const InitFailed: string := "Tool initialization failed"
  const NoAlerts: string := "No significant alerts within 500km of your location."
  const FullWeatherNote: string :=
    "Complete weather API response for AI analysis.\nAvailable data includes:\n"
    + "- Current conditions (temp, feels-like, humidity, wind, precipitation, pressure, visibility, UV index, weather description)\n"
    + "- 3-day forecast (daily highs/lows, hourly conditions, rain/snow chances)\n"
    + "- Astronomy (sunrise, sunset, moonrise, moonset, moon phase, moon illumination)\n"
    + "- Nearest location info\n\nRaw JSON:\n"
  const NoGpsSendLocation: string := "no GPS coordinates. Enable \"Send Location\" in Garmin message settings."
  const NoGpsWeather: string := "no GPS coordinates. Try: SEARCH weather [your location]"
  const NoGpsAstronomy: string := "no GPS coordinates. Include coords or try: SEARCH sunrise [location]"
  const NoGpsDisasters: string := "no GPS coordinates in message"

  // The explanations given for each location tool when there are no coordinates.
  const NoGpsLocationName: string := Unavailable(LocationNameTag, NoGpsSendLocation)
  const NoGpsForecast: string := Unavailable(WeatherTag, NoGpsWeather)
  const NoGpsAstro: string := Unavailable(AstronomyTag, NoGpsAstronomy)
  const NoGpsFullWeather: string := Unavailable(FullWeatherTag, NoGpsSendLocation)
  const NoGpsAlerts: string := Unavailable(DisasterTag, NoGpsDisasters)

  // ---------------------------------------------------------------------------
  // the sections

  function WikiSection(wikiTerm: Option<string>, tools: Tools): (s: Section)
    ensures ToolBlocks(s)
  {
    match wikiTerm
    case None => Nothing
    case Some(term) =>
      match tools.wiki(term)
      case None => Section([Unavailable(WikiTag(term), ToolError)], [Failure("WIKI", InitFailed)], [CallWiki(term)])
      case Some(r) =>
        if r.success then Section([Titled(WikiTag(term), Shown(r.data))], [], [CallWiki(term)])
        else Section([Unavailable(WikiTag(term), Shown(r.error))], [Failure("WIKI", Shown(r.error))], [CallWiki(term)])
  }

  function NewsSection(triggered: bool, tools: Tools): (s: Section)
    ensures ToolBlocks(s)
  {
    TagsAreToolTags();
    if !triggered then Nothing
    else match tools.news
      case None => Section([Unavailable(NewsTag, ToolError)], [Failure("NEWS", InitFailed)], [CallNews])
      case Some(r) =>
        if r.success then Section([Titled(HeadlinesTag, Shown(r.data))], [], [CallNews])
        else Section([Unavailable(NewsTag, ToolErrorLower)], [Failure("NEWS", Shown(r.error))], [CallNews])
  }

  function LocationBlock(c: Coords): (p: string)
    ensures ToolBlock(p)
  {
    TagsAreToolTags();
    Titled(LocationTag, "Coordinates: " + c.latText + ", " + c.lonText)
  }

  function GeocodeSection(c: Coords, triggered: bool, tools: Tools): (s: Section)
    ensures ToolBlocks(s)
  {
    TagsAreToolTags();
    if !triggered then Nothing
    else match tools.geocode(c)
      case None => Section([Unavailable(LocationNameTag, ToolError)], [Failure("REVERSE_GEOCODE", InitFailed)], [CallGeocode(c)])
      case Some(r) =>
        if r.success then Section([Titled(LocationNameTag, Shown(r.data))], [], [CallGeocode(c)])
        else Section([Unavailable(LocationNameTag, Shown(r.error))], [Failure("REVERSE_GEOCODE", Shown(r.error))], [CallGeocode(c)])
  }

  /** The blocks of a failed weather call: one for full weather, or one each for
      weather and astronomy as asked. */
  function WeatherFailure(t: Triggers, error: string, shown: string): (s: Section)
    ensures ToolBlocks(s) && s.calls == []
  {
    TagsAreToolTags();
    if t.full then Section([Unavailable(FullWeatherTag, shown)], [Failure("FULL_WEATHER", error)], [])
    else
      Section((if t.weather then [Unavailable(WeatherTag, shown)] else [])
              + (if t.astronomy then [Unavailable(AstronomyTag, shown)] else []),
              (if t.weather then [Failure("WEATHER", error)] else []) + (if t.astronomy then [Failure("ASTRO", error)] else []),
              [])
  }

  /** The blocks of a successful weather call: the raw forecast for full weather
      when it is there, otherwise the summaries asked for that are not empty. */
  function WeatherSuccess(t: Triggers, r: Weather.WeatherResult, stringify: Weather.Forecast -> string): (s: Section)
    ensures ToolBlocks(s) && s.errors == [] && s.calls == []
  {
    TagsAreToolTags();
    if t.full && r.rawJson.Some? then Section([Titled(FullWeatherTag, FullWeatherNote + stringify(r.rawJson.value))], [], [])
    else
      Section((if t.weather && Truthy(r.data) then [Titled(ForecastTag, r.data.value)] else [])
              + (if t.astronomy && Truthy(r.astronomy) then [Titled(AstronomyTag, r.astronomy.value)] else []),
              [], [])
  }

  /** The weather blocks: one call serves weather, astronomy and full weather, with
      astronomy asked for by either of the last two. */
  function WeatherSection(c: Coords, t: Triggers, tools: Tools, stringify: Weather.Forecast -> string): (s: Section)
    ensures ToolBlocks(s)
  {
    if !(t.weather || t.astronomy || t.full) then Nothing
    else
      var call := Section([], [], [CallWeather(c, t.astronomy || t.full)]);
      match tools.weather(c, t.astronomy || t.full)
      case None => Plus(WeatherFailure(t, InitFailed, ToolError), call)
      case Some(r) =>
        if r.success then Plus(WeatherSuccess(t, r, stringify), call)
        else Plus(WeatherFailure(t, Shown(r.error), Shown(r.error)), call)
  }

  function GdacsSection(c: Coords, triggered: bool, tools: Tools): (s: Section)
    ensures ToolBlocks(s)
  {
    TagsAreToolTags();
    if !triggered then Nothing
    else match tools.gdacs(c)
      case None => Section([Unavailable(DisasterTag, ToolError)], [Failure("GDACS", InitFailed)], [CallGdacs(c)])
      case Some(r) =>
        if r.success && Truthy(r.data) then Section([Titled(DisasterTag, r.data.value)], [], [CallGdacs(c)])
        else if r.success then Section([Titled(DisasterTag, NoAlerts)], [], [CallGdacs(c)])
        else Section([Unavailable(DisasterTag, ToolErrorLower)], [Failure("GDACS", Shown(r.error))], [CallGdacs(c)])
  }

  /** With coordinates: the location block, then geocode, weather and disasters. */
  function LocatedSection(c: Coords, t: Triggers, tools: Tools, stringify: Weather.Forecast -> string): (s: Section)
    ensures ToolBlocks(s)
  {
    Plus(Plus(Plus(Section([LocationBlock(c)], [], []), GeocodeSection(c, t.geocode, tools)),
              WeatherSection(c, t, tools, stringify)),
         GdacsSection(c, t.disasters, tools))
  }

  /** Without coordinates: an explanation for each location tool asked for, and no
      call and no error. */
  function UnlocatedSection(t: Triggers): (s: Section)
    ensures ToolBlocks(s) && s.errors == [] && s.calls == []
  {
    var parts := Noted(Noted(Noted(Noted(Noted([], t.geocode, NoGpsLocationName), t.weather, NoGpsForecast),
                                       t.astronomy, NoGpsAstro), t.full, NoGpsFullWeather), t.disasters, NoGpsAlerts);
    Section(parts, [], [])
  }

  /** `parts` with `block` pushed when `when` holds. */
  function Noted(parts: seq<string>, when: bool, block: string): (r: seq<string>)
    ensures ToolBlocks(Section(parts, [], [])) && ToolBlock(block) ==> ToolBlocks(Section(r, [], []))
  {
    if when then parts + [block] else parts
  }

  // ---------------------------------------------------------------------------
  // what each section calls and which errors it reports

  lemma WikiCalls(wikiTerm: Option<string>, tools: Tools)
    ensures WikiSection(wikiTerm, tools).calls == if wikiTerm.Some? then [CallWiki(wikiTerm.value)] else []
  {
  }

  lemma WikiErrors(wikiTerm: Option<string>, tools: Tools)
    ensures forall k :: 0 <= k < |WikiSection(wikiTerm, tools).errors| ==> StartsWith(WikiSection(wikiTerm, tools).errors[k], "WIKI:")
  {
  }

  lemma NewsCalls(triggered: bool, tools: Tools)
    ensures NewsSection(triggered, tools).calls == if triggered then [CallNews] else []
  {
  }

  lemma NewsErrors(triggered: bool, tools: Tools)
    ensures forall k :: 0 <= k < |NewsSection(triggered, tools).errors| ==> StartsWith(NewsSection(triggered, tools).errors[k], "NEWS:")
  {
  }

  /** The location tools that run at `c` for triggers `t`, in their order. */
  function LocatedCallList(c: Coords, t: Triggers): seq<ToolCall> {
    (if t.geocode then [CallGeocode(c)] else [])
    + (if t.weather || t.astronomy || t.full then [CallWeather(c, t.astronomy || t.full)] else [])
    + (if t.disasters then [CallGdacs(c)] else [])
  }

  lemma LocatedCalls(c: Coords, t: Triggers, tools: Tools, stringify: Weather.Forecast -> string)
    ensures LocatedSection(c, t, tools, stringify).calls == LocatedCallList(c, t)
  {
    GeocodeCalls(c, t.geocode, tools);
    WeatherCalls(c, t, tools, stringify);
    GdacsCalls(c, t.disasters, tools);
    var g, w, d := GeocodeSection(c, t.geocode, tools), WeatherSection(c, t, tools, stringify), GdacsSection(c, t.disasters, tools);
    assert LocatedSection(c, t, tools, stringify).calls == [] + g.calls + w.calls + d.calls;
  }

  lemma GeocodeCalls(c: Coords, triggered: bool, tools: Tools)
    ensures GeocodeSection(c, triggered, tools).calls == if triggered then [CallGeocode(c)] else []
  {
  }

  lemma WeatherCalls(c: Coords, t: Triggers, tools: Tools, stringify: Weather.Forecast -> string)
    ensures WeatherSection(c, t, tools, stringify).calls
      == if t.weather || t.astronomy || t.full then [CallWeather(c, t.astronomy || t.full)] else []
  {
  }

  lemma GdacsCalls(c: Coords, triggered: bool, tools: Tools)
    ensures GdacsSection(c, triggered, tools).calls == if triggered then [CallGdacs(c)] else []
  {
  }

  // ---------------------------------------------------------------------------
  // the failure block

  /** `const [tool, error] = e.split(':')`: the text before the first colon and the
      text between the first and the second; with no colon the second is
      `undefined`. */
  function FailureSummary(e: string): string {
    var tool := BeforeFirst(e, ":");
    var error := if Contains(e, ":") then BeforeFirst(e[|tool| + 1..], ":") else "undefined";
    tool + ": FAILED (" + error + ")"
  }

  const FailureHeader: string := "[TOOL FAILURES]"

  function FailureSummaries(errors: seq<string>): string {
    Join(seq(|errors|, i requires 0 <= i < |errors| => FailureSummary(errors[i])), ", ")
  }

  /** The closing block around the summaries of the failures. */
  function FailureBlock(failedTools: string): (p: string)
    ensures StartsWith(p, FailureHeader)
  {
    FailureHeader + "\nThe following tools failed and have NO DATA: " + failedTools
    + "\nDo NOT make up or guess this information - tell user the tool failed."
  }

  /** `tool:error` with no colon in `tool` summarises as `tool: FAILED (error)`, and
      an error that holds colons keeps only its text before the first. */
  lemma SummaryKeepsTwoParts(tool: string, error: string)
    requires !Contains(tool, ":")
    ensures FailureSummary(tool + ":" + error) == tool + ": FAILED (" + BeforeFirst(error, ":") + ")"
  {
    var e := tool + ":" + error;
    assert e[|tool|..|tool| + 1] == ":";
    assert At(e, |tool|, ":");
    assert Contains(e, ":");
    var t := BeforeFirst(e, ":");
    BeforeFirstIsFirst(e, ":");
    assert |t| <= |tool|;
    if |t| < |tool| {
      assert e[|t|..|t| + 1] == tool[|t|..|t| + 1];
      assert At(tool, |t|, ":");
    }
    assert t == tool;
    assert e[|t| + 1..] == error;
    assert FailureSummary(e) == t + ": FAILED (" + BeforeFirst(e[|t| + 1..], ":") + ")";
  }

  // ---------------------------------------------------------------------------
  // runToolbox

  /** Everything the toolbox gathers before the failure block, for the prompt's
      `WIKI` term and triggers. */
  function Gathered(wikiTerm: Option<string>, t: Triggers, coords: Option<Coords>, tools: Tools, stringify: Weather.Forecast -> string): (s: Section)
    ensures ToolBlocks(s)
  {
    Plus(Plus(WikiSection(wikiTerm, tools), NewsSection(t.news, tools)),
         if Located(coords) then LocatedSection(coords.value, t, tools, stringify) else UnlocatedSection(t))
  }

  /** The blocks of the context: the gathered ones, and the failure block when some
      tool failed. */
  function ContextParts(wikiTerm: Option<string>, t: Triggers, coords: Option<Coords>, tools: Tools, stringify: Weather.Forecast -> string): seq<string> {
    WithFailures(Gathered(wikiTerm, t, coords, tools, stringify))
  }

  /** The blocks of a section, closed by the failure block when it holds errors. */
  function WithFailures(s: Section): seq<string> {
    s.parts + if s.errors == [] then [] else [FailureBlock(FailureSummaries(s.errors))]
  }

  datatype ToolboxResult = ToolboxResult(context: string, errors: seq<string>)

  /** A tool block never starts with the failure header. */
  lemma ToolBlockIsNoFailure(p: string)
    requires ToolBlock(p)
    ensures !StartsWith(p, FailureHeader)
  {
    assert FailureHeader[1] == 'T';
    if |p| >= |FailureHeader| {
      assert p[..|FailureHeader|][1] == p[1];
    }
  }

  /** The block list ends with the failure block exactly when some tool failed, and
      no other block looks like it; every gathered section is made of tool blocks. */
  lemma FailureBlockIff(s: Section)
    requires ToolBlocks(s)
    ensures var parts := WithFailures(s);
      forall i :: 0 <= i < |parts| ==>
        (StartsWith(parts[i], FailureHeader) <==> (s.errors != [] && i == |parts| - 1))
  {
    var parts := WithFailures(s);
    forall i | 0 <= i < |parts|
      ensures StartsWith(parts[i], FailureHeader) <==> (s.errors != [] && i == |parts| - 1)
    {
      if i < |s.parts| {
        assert parts[i] == s.parts[i];
        ToolBlockIsNoFailure(s.parts[i]);
      }
    }
  }

  /** The tools `runToolbox` consults, in their order: Wikipedia for a `WIKI` term,
      news when its keywords occur, and the location tools only with coordinates. */
  function ToolCalls(wikiTerm: Option<string>, t: Triggers, coords: Option<Coords>): seq<ToolCall> {
    (if wikiTerm.Some? then [CallWiki(wikiTerm.value)] else [])
    + (if t.news then [CallNews] else [])
    + (if Located(coords) then LocatedCallList(coords.value, t) else [])
  }

  /** Which tools run depends on the prompt and the coordinates only, never on what
      the tools answer. */
  lemma GatheredCalls(wikiTerm: Option<string>, t: Triggers, coords: Option<Coords>, tools: Tools, stringify: Weather.Forecast -> string)
    ensures Gathered(wikiTerm, t, coords, tools, stringify).calls == ToolCalls(wikiTerm, t, coords)
  {
    WikiCalls(wikiTerm, tools);
    NewsCalls(t.news, tools);
    if Located(coords) {
      LocatedCalls(coords.value, t, tools, stringify);
    }
  }

  /** The triggers decide which tools run: the news tool exactly when a news
      keyword occurs and the Wikipedia tool exactly for a `WIKI` command, with its
      term. */
  lemma TriggersDecideCalls(wikiTerm: Option<string>, t: Triggers, coords: Option<Coords>)
    ensures var calls := ToolCalls(wikiTerm, t, coords);
      (CallNews in calls <==> t.news)
      && (forall term :: CallWiki(term) in calls <==> wikiTerm == Some(term))
  {
  }

  /** The geocode and disaster tools run exactly when there are coordinates and
      their keywords occur, at those coordinates. */
  lemma LocationTriggersDecideCalls(wikiTerm: Option<string>, t: Triggers, coords: Option<Coords>)
    ensures var calls := ToolCalls(wikiTerm, t, coords);
      (forall c :: CallGeocode(c) in calls <==> (Located(coords) && c == coords.value && t.geocode))
      && (forall c :: CallGdacs(c) in calls <==> (Located(coords) && c == coords.value && t.disasters))
  {
  }

  /** The weather tool runs once when there are coordinates and any weather,
      astronomy or full-weather keyword occurs, and is asked for astronomy for
      astronomy or full weather. */
  lemma WeatherTriggersDecideCall(wikiTerm: Option<string>, t: Triggers, coords: Option<Coords>)
    ensures var calls := ToolCalls(wikiTerm, t, coords);
      forall c, b :: CallWeather(c, b) in calls <==>
        (Located(coords) && c == coords.value && (t.weather || t.astronomy || t.full) && b == (t.astronomy || t.full))
  {
  }

  /** Without usable coordinates (none, or a coordinate of 0) no location tool runs,
      and only the Wikipedia and news tools can fail. */
  lemma UnlocatedOnlyWikiAndNews(wikiTerm: Option<string>, t: Triggers, coords: Option<Coords>, tools: Tools, stringify: Weather.Forecast -> string)
    requires !Located(coords)
    ensures var s := Gathered(wikiTerm, t, coords, tools, stringify);
      (forall k :: 0 <= k < |s.calls| ==> s.calls[k].CallWiki? || s.calls[k].CallNews?)
      && (forall k :: 0 <= k < |s.errors| ==> StartsWith(s.errors[k], "WIKI:") || StartsWith(s.errors[k], "NEWS:"))
  {
    WikiCalls(wikiTerm, tools);
    NewsCalls(t.news, tools);
    WikiErrors(wikiTerm, tools);
    NewsErrors(t.news, tools);
  }

  /** A coordinate of 0 is taken for no coordinates at all. */
  lemma ZeroCoordinateIsUnlocated(wikiTerm: Option<string>, t: Triggers, c: Coords, tools: Tools, stringify: Weather.Forecast -> string)
    requires c.lat == 0.0 || c.lon == 0.0
    ensures ContextParts(wikiTerm, t, Some(c), tools, stringify) == ContextParts(wikiTerm, t, None, tools, stringify)
  {
  }

  /** The context `runToolbox` gathers for a prompt: its parts, joined by blank
      lines. */
  function PromptContext(userPrompt: string, coords: Option<Coords>, tools: Tools,
                         stringify: Weather.Forecast -> string): string
  {
    Join(ContextParts(WikiTerm(userPrompt), TriggersOf(Upper(userPrompt)), coords, tools, stringify), "\n\n")
  }

  /** `runToolbox(userPrompt, coords)`; `calls` lists the tools it consulted. */
  method RunToolbox(userPrompt: string, coords: Option<Coords>, tools: Tools, stringify: Weather.Forecast -> string)
    returns (result: ToolboxResult, calls: seq<ToolCall>)
    ensures result.context == PromptContext(userPrompt, coords, tools, stringify)
    ensures var wikiTerm := WikiTerm(userPrompt);
      var t := TriggersOf(Upper(userPrompt));
      result.errors == Gathered(wikiTerm, t, coords, tools, stringify).errors
      && calls == Gathered(wikiTerm, t, coords, tools, stringify).calls
  {
    var upperPrompt := Upper(userPrompt);
    var triggers := TriggersOf(upperPrompt);
    var wikiMatch := WikiTerm(userPrompt);
    var gathered := Gather(wikiMatch, triggers, coords, tools, stringify);
    result := CloseContext(gathered);
    calls := gathered.calls;
  }

  /** The end of `runToolbox`: the failure block when a tool failed, then the
      blocks joined by blank lines. */
  method CloseContext(gathered: Section) returns (result: ToolboxResult)
    ensures result == ToolboxResult(Join(WithFailures(gathered), "\n\n"), gathered.errors)
  {
    var contextParts, errors := gathered.parts, gathered.errors;
    if |errors| > 0 {
      var failedTools := FailureSummaries(errors);
      contextParts := contextParts + [FailureBlock(failedTools)];
    }
    assert contextParts == WithFailures(gathered);
    result := ToolboxResult(Join(contextParts, "\n\n"), errors);
  }

  /** The tools in their order: Wikipedia, news, then the location tools or the
      explanations of their absence. */
  method Gather(wikiMatch: Option<string>, triggers: Triggers, coords: Option<Coords>, tools: Tools,
                stringify: Weather.Forecast -> string)
    returns (sofar: Section)
    ensures sofar == Gathered(wikiMatch, triggers, coords, tools, stringify)
  {
    var wiki := WikiStep(wikiMatch, tools);
    var news := NewsStep(triggers.news, tools);
    sofar := Plus(wiki, news);
    if coords.Some? && coords.value.lat != 0.0 && coords.value.lon != 0.0 {
      var located := LocatedStep(coords.value, triggers, tools, stringify);
      sofar := Plus(sofar, located);
    } else {
      var unlocated := UnlocatedStep(triggers);
      assert Section(unlocated, [], []) == UnlocatedSection(triggers);
      sofar := Plus(sofar, Section(unlocated, [], []));
    }
  }

  /** The `WIKI <term>` command and its block. */
  method WikiStep(wikiMatch: Option<string>, tools: Tools) returns (s: Section)
    ensures s == WikiSection(wikiMatch, tools)
  {
    s := Nothing;
    if wikiMatch.Some? {
      var term := wikiMatch.value;
      var wikiResult := tools.wiki(term);
      if wikiResult.None? {
        s := Section([Unavailable(WikiTag(term), ToolError)], [Failure("WIKI", InitFailed)], [CallWiki(term)]);
      } else if wikiResult.value.success {
        s := Section([Titled(WikiTag(term), Shown(wikiResult.value.data))], [], [CallWiki(term)]);
      } else {
        var error := Shown(wikiResult.value.error);
        s := Section([Unavailable(WikiTag(term), error)], [Failure("WIKI", error)], [CallWiki(term)]);
      }
    }
  }

  /** The news trigger and its block. */
  method NewsStep(triggered: bool, tools: Tools) returns (s: Section)
    ensures s == NewsSection(triggered, tools)
  {
    TagsAreToolTags();
    s := Nothing;
    if triggered {
      var newsResult := tools.news;
      if newsResult.None? {
        s := Section([Unavailable(NewsTag, ToolError)], [Failure("NEWS", InitFailed)], [CallNews]);
      } else if newsResult.value.success {
        s := Section([Titled(HeadlinesTag, Shown(newsResult.value.data))], [], [CallNews]);
      } else {
        s := Section([Unavailable(NewsTag, ToolErrorLower)], [Failure("NEWS", Shown(newsResult.value.error))], [CallNews]);
      }
    }
  }

  /** The location-based tools, once coordinates are known. */
  method LocatedStep(c: Coords, t: Triggers, tools: Tools, stringify: Weather.Forecast -> string)
    returns (s: Section)
    ensures s == LocatedSection(c, t, tools, stringify)
  {
    s := Section([LocationBlock(c)], [], []);
    var geocode := GeocodeStep(c, t.geocode, tools);
    s := Plus(s, geocode);
    var weather := WeatherStep(c, t, tools, stringify);
    s := Plus(s, weather);
    var gdacs := GdacsStep(c, t.disasters, tools);
    s := Plus(s, gdacs);
  }

  method GeocodeStep(c: Coords, triggered: bool, tools: Tools) returns (s: Section)
    ensures s == GeocodeSection(c, triggered, tools)
  {
    TagsAreToolTags();
    s := Nothing;
    if triggered {
      var locationResult := tools.geocode(c);
      if locationResult.None? {
        s := Section([Unavailable(LocationNameTag, ToolError)], [Failure("REVERSE_GEOCODE", InitFailed)], [CallGeocode(c)]);
      } else if locationResult.value.success {
        s := Section([Titled(LocationNameTag, Shown(locationResult.value.data))], [], [CallGeocode(c)]);
      } else {
        var error := Shown(locationResult.value.error);
        s := Section([Unavailable(LocationNameTag, error)], [Failure("REVERSE_GEOCODE", error)], [CallGeocode(c)]);
      }
    }
  }

  method GdacsStep(c: Coords, triggered: bool, tools: Tools) returns (s: Section)
    ensures s == GdacsSection(c, triggered, tools)
  {
    TagsAreToolTags();
    s := Nothing;
    if triggered {
      var disasterResult := tools.gdacs(c);
      if disasterResult.None? {
        s := Section([Unavailable(DisasterTag, ToolError)], [Failure("GDACS", InitFailed)], [CallGdacs(c)]);
      } else if disasterResult.value.success && Truthy(disasterResult.value.data) {
        s := Section([Titled(DisasterTag, disasterResult.value.data.value)], [], [CallGdacs(c)]);
      } else if disasterResult.value.success {
        s := Section([Titled(DisasterTag, NoAlerts)], [], [CallGdacs(c)]);
      } else {
        s := Section([Unavailable(DisasterTag, ToolErrorLower)], [Failure("GDACS", Shown(disasterResult.value.error))], [CallGdacs(c)]);
      }
    }
  }

  /** The combined weather and astronomy call. */
  method WeatherStep(c: Coords, t: Triggers, tools: Tools, stringify: Weather.Forecast -> string)
    returns (s: Section)
    ensures s == WeatherSection(c, t, tools, stringify)
  {
    s := Nothing;
    if t.weather || t.astronomy || t.full {
      var includeAstronomy := t.astronomy || t.full;
      var weatherResult := tools.weather(c, includeAstronomy);
      if weatherResult.None? {
        s := WeatherFailureStep(t, InitFailed, ToolError);
      } else if weatherResult.value.success {
        s := WeatherSuccessStep(t, weatherResult.value, stringify);
      } else {
        var error := Shown(weatherResult.value.error);
        s := WeatherFailureStep(t, error, error);
      }
      assert s.parts + [] == s.parts && s.errors + [] == s.errors;
      s := Section(s.parts, s.errors, [CallWeather(c, includeAstronomy)]);
    }
  }

  /** The blocks of a successful weather call. */
  method WeatherSuccessStep(t: Triggers, r: Weather.WeatherResult, stringify: Weather.Forecast -> string)
    returns (s: Section)
    ensures s == WeatherSuccess(t, r, stringify)
  {
    TagsAreToolTags();
    s := Nothing;
    if t.full && r.rawJson.Some? {
      s := Section([Titled(FullWeatherTag, FullWeatherNote + stringify(r.rawJson.value))], [], []);
    } else {
      if t.weather && Truthy(r.data) {
        s := Section(s.parts + [Titled(ForecastTag, r.data.value)], [], []);
      }
      if t.astronomy && Truthy(r.astronomy) {
        s := Section(s.parts + [Titled(AstronomyTag, r.astronomy.value)], [], []);
      }
    }
  }

  /** The blocks of a failed or unavailable weather call. */
  method WeatherFailureStep(t: Triggers, error: string, shown: string) returns (s: Section)
    ensures s == WeatherFailure(t, error, shown)
  {
    TagsAreToolTags();
    s := Nothing;
    if t.full {
      s := Section([Unavailable(FullWeatherTag, shown)], [Failure("FULL_WEATHER", error)], []);
    } else {
      if t.weather {
        s := Section([Unavailable(WeatherTag, shown)], [Failure("WEATHER", error)], []);
      }
      if t.astronomy {
        s := Section(s.parts + [Unavailable(AstronomyTag, shown)], s.errors + [Failure("ASTRO", error)], []);
      }
    }
  }

  /** The explanations given when there are no coordinates. */
  method UnlocatedStep(t: Triggers) returns (parts: seq<string>)
    ensures parts == UnlocatedSection(t).parts
  {
    parts := [];
    if t.geocode {
      parts := parts + [NoGpsLocationName];
    }
    assert parts == Noted([], t.geocode, NoGpsLocationName);
    ghost var before := parts;
    if t.weather {
      parts := parts + [NoGpsForecast];
    }
    assert parts == Noted(before, t.weather, NoGpsForecast);
    before := parts;
    if t.astronomy {
      parts := parts + [NoGpsAstro];
    }
    assert parts == Noted(before, t.astronomy, NoGpsAstro);
    before := parts;
    if t.full {
      parts := parts + [NoGpsFullWeather];
    }
    assert parts == Noted(before, t.full, NoGpsFullWeather);
    before := parts;
    if t.disasters {
      parts := parts + [NoGpsAlerts];
    }
    assert parts == Noted(before, t.disasters, NoGpsAlerts);
  }
}
