/** WikipediaTool.gs.js: the page-summary request and how its reply becomes a tool
    result. */
module Wikipedia {
  import opened Wrappers
  import opened Text
  import opened ToolResults

  const DefaultBaseUrl: string := "https://en.wikipedia.org/api/rest_v1/page/summary"
  const DefaultMaxExtractChars: int := 500
  const DefaultUserAgent: string := "SatComGateway/14.1 (satellite-emergency-assistant)"

  /** `WikipediaConfig(baseUrl, maxExtractChars, userAgent)` after its defaults: an
      empty string or a zero stands for a falsy argument. */
  datatype Config = Config(baseUrl: string, maxExtractChars: int, userAgent: string)

  function MakeConfig(baseUrl: string, maxExtractChars: int, userAgent: string): (c: Config)
    ensures c.baseUrl != "" && c.maxExtractChars != 0 && c.userAgent != ""
    ensures baseUrl != "" ==> c.baseUrl == baseUrl
    ensures maxExtractChars != 0 ==> c.maxExtractChars == maxExtractChars
  {
    Config(if baseUrl == "" then DefaultBaseUrl else baseUrl,
           if maxExtractChars == 0 then DefaultMaxExtractChars else maxExtractChars,
           if userAgent == "" then DefaultUserAgent else userAgent)
  }

  /** The fields of the summary JSON that the tool reads; "" stands for a missing
      or falsy `extract`. */
  datatype Summary = Summary(kind: string, extract: string)

  /** The request URL: the trimmed query, percent-encoded by `encode`
      (`encodeURIComponent`), after the base URL. */
  function RequestUrl(config: Config, query: string, encode: string -> string): (url: string)
    ensures StartsWith(url, config.baseUrl + "/") && url[|config.baseUrl| + 1..] == encode(Trim(query))
  {
    config.baseUrl + "/" + encode(Trim(query))
  }

  /** The extract, cut to `max` characters plus "..." when it is longer. */
  function ShortenExtract(extract: string, max: int): (r: string)
    ensures |extract| <= max ==> r == extract
    ensures |extract| > max ==> r == Take(extract, max) + "..."
  {
    if |extract| > max then Take(extract, max) + "..." else extract
  }

  /** `fetch(query)` once the request is answered: a thrown exception (including a
      body `JSON.parse` rejects) gives `EXCEPTION:`, 404 gives `NOT_FOUND`, any
      other code but 200 gives `HTTP_<code>`, a disambiguation page gives
      `DISAMBIGUATION`, and otherwise the (shortened) extract is the data. */
  function FetchSummary(config: Config, reply: Reply<Summary>): (r: ToolResult)
    ensures WellFormed(r)
    ensures r.success ==> r.data.Some?
  {
    match reply
    case Threw(message) => Fail(ExceptionError(message))
    case Replied(code, body) =>
      if code == 404 then Fail("NOT_FOUND")
      else if code != 200 then Fail(HttpError(code))
      else match body
        case Malformed(message) => Fail(ExceptionError(message))
        case Parsed(json) =>
          if json.kind == "disambiguation" then Fail("DISAMBIGUATION")
          else Ok(ShortenExtract(json.extract, config.maxExtractChars))
  }

  /** The failures, by status code and page type. */
  lemma FetchFailures(config: Config, code: int, body: Body<Summary>)
    ensures FetchSummary(config, Replied(404, body)) == ToolResult(false, None, Some("NOT_FOUND"))
    ensures code != 200 && code != 404 ==>
      FetchSummary(config, Replied(code, body)) == ToolResult(false, None, Some("HTTP_" + IntToString(code)))
    ensures body.Parsed? && body.value.kind == "disambiguation" ==>
      FetchSummary(config, Replied(200, body)) == ToolResult(false, None, Some("DISAMBIGUATION"))
  {
  }

  /** A summary page always succeeds. Its data is the whole extract when that fits,
      and otherwise a prefix of it followed by "..." and no longer than the maximum
      plus three; a page without an extract gives "". */
  lemma ExtractBound(config: Config, json: Summary)
    requires json.kind != "disambiguation"
    ensures var r := FetchSummary(config, Replied(200, Parsed(json)));
      r.success && r.data.Some?
      && (r.data.value == json.extract
          || (|r.data.value| >= 3 && r.data.value[|r.data.value| - 3..] == "..."
              && json.extract[..|r.data.value| - 3] == r.data.value[..|r.data.value| - 3]
              && (config.maxExtractChars >= 0 ==> |r.data.value| <= config.maxExtractChars + 3)))
    ensures json.extract == "" ==> FetchSummary(config, Replied(200, Parsed(json))) == Ok("") || config.maxExtractChars < 0
  {
    var d := ShortenExtract(json.extract, config.maxExtractChars);
    if |json.extract| > config.maxExtractChars {
      var t := Take(json.extract, config.maxExtractChars);
      assert d[..|d| - 3] == t;
    }
  }
}
