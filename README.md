# garmin-ai-gateway in Dafny

A model of the message-processing core of garmin-ai-gateway. This Google Apps Script gateway lets a Garmin inReach satellite messenger talk to the Gemini model.

The gateway works like this:

1. It polls a Gmail inbox for messages of the form `AI <prompt>`.
2. It follows the message's reply link, resolving an `inreachlink.com` short link to the `explore.garmin.com` page it redirects to.
3. It gathers context from a few keyword-triggered tools: Wikipedia, news headlines, reverse geocoding, weather and astronomy, and GDACS disaster alerts.
4. It drives two Gemini calls. The first analyses the prompt. The second compresses the answer to a size budget.
5. It strips the markdown from the reply, shortens it, and cuts it into at most ten numbered pages of at most 155 characters.
6. It posts the pages to Garmin's reply endpoint.

Two records are kept in the script property store, across runs that share no memory:

- a retry ledger: `RETRY_<id>` holds `{count, timestamp}`, and a message gets at most three attempts;
- a conversation record per sender: `INTERACTION_<key>` holds the last interaction id, and it expires after 24 hours.

Code that works by changing things step by step is modelled in imperative Dafny, and the proofs connect it to functions:

- one class per object whose fields the source updates: `Store.Properties`, `InteractionState.InteractionStateManager` and `Gateway.Inbox`;
- one method per loop or sequence of updates, carrying the invariants the proof needs;
- each method proved against a function of its inputs, or of the old state.

Pure transformations are functions, with lemmas for what the source promises.

The modules follow the program:

- `Text`: the JavaScript string built-ins the code relies on (`trim`, `\s`, `indexOf`, `lastIndexOf`, `split`, `join`, ASCII case mapping, number to string), written out over `seq<char>`.
- `Paging`: `findSplitPoint`, `splitForPaging` and `paginateAndSend` (Code.js:930-1024).
- `Shaping`: `truncateSmart` and `cleanOutput` (Code.js:1315-1344).
- `Commands`: `isHelpCommand`, `extractSizeOverride`, the `SIZE` stripping of `processAndSend`, and the `[code] message` text of `sendErrorToUser`.
- `Store`: the property store, a class over a map.
- `RetryLedger`: the retry ledger (Code.js:1241-1313).
- `InteractionState`: `InteractionStateManager.gs.js`, including `simpleHash` as 32-bit arithmetic.
- `GeminiClient`: `buildPayload`, `extractText`, `isErrorRetryable` and the result mapping of `call`.
- `ToolResults`, `Wikipedia`, `News`, `Geocode`, `Weather`, `Gdacs`: the context tools, each working on a parsed reply.
- `Toolbox`: `runToolbox` (Code.js:651-864).
- `Delivery`: the short-link redirect walk (Code.js:343-402) and `postToGarmin` (Code.js:1104-1224).
- `Pipeline`: `processAndSend` (Code.js:490-641).
- `Gateway`: `runGateway` (Code.js:239-484), with lemmas across runs. Among them, a message reaches the pipeline at most three times.

Services are taken as inputs:

- HTTP replies are `Reply` values.
- The outcome of a post to Garmin is an oracle `delivered(k)`.
- The Gemini exchange is a function from request to transport outcome.
- The pipeline's outcome is given per thread.

## Model

| member | source | states |
|---|---|---|
| Text.Trim | Code.js:986 | `trim()` leaves no white space at either end and never lengthens the text |
| Text.TrimBothEnds | Code.js:986 | trimming is stripping the front white space, then the back |
| Text.SqueezeTrim | Code.js:986 | trimming removes white space and nothing else |
| Text.DigitsValueOfNat | Code.js:1430 | `parseInt(String(n), 10)` gives `n` back |
| Paging.SentenceMatchFromSpec | Code.js:1004 | the search for a sentence end followed by white space or the end of the text finds the leftmost match. It lies on a single line, starts at the line's start, and runs greedily to the line's last sentence end. No match is found exactly when no sentence end occurs |
| Paging.SentenceOnLine | Code.js:1004 | a line that holds a sentence end yields the match up to its last one |
| Paging.SentencePastLine | Code.js:1004 | a line without a sentence end is skipped together with its terminator |
| Paging.LastSentenceEnd | Code.js:1004 | the greedy `.*` stops at the last sentence end before the line end, with none after it |
| Paging.FindSplitPoint | Code.js:1001-1024 | the split point is never past `limit` and always past half of it |
| Paging.SplitForPaging | Code.js:984-999 | the chunk list is exactly `SplitSpec`: the trimmed text cut at the split point, each piece trimmed, until the rest fits |
| Paging.ChunkStep | Code.js:988-992 | one round of the loop keeps the invariant that chunks so far plus the chunks of what remains are the whole result |
| Paging.LastChunk | Code.js:994-998 | once the loop ends, a non-empty remainder is the last chunk |
| Paging.CutFront | Code.js:989-991 | the piece before the split point is the next chunk, and the rest is strictly shorter |
| Paging.ChunksOfInBudget | Code.js:984-999 | every chunk is non-empty, trimmed and at most `maxChunkLen` long |
| Paging.ChunksOfSqueeze | Code.js:984-999 | ignoring white space, the chunks put together are the remainder |
| Paging.SplitProperties | Code.js:984-999 | splitting loses nothing but white space and keeps every chunk in budget |
| Paging.CapInBudget | Code.js:943-950 | the cap keeps at most ten chunks, each still within the chunk budget (the marker included) |
| Paging.PageChunksInBudget | Code.js:941-950 | the chunks that are sent are at most ten, each non-empty and at most 149 characters |
| Paging.PagePrefixLength | Code.js:956 | the `"i/total "` prefix takes at most six characters for page numbers up to ten |
| Paging.PagesFit | Code.js:941-957 | at most ten pages, each within the 155-character safe size of one Garmin message |
| Paging.PagesKeepShortText | Code.js:941-950 | with at most ten chunks nothing is dropped or marked, and the pages carry the whole text apart from white space |
| Paging.MarkerOnlyWhenDropped | Code.js:943-950 | the `" [...]"` marker appears if and only if chunks were dropped and the last kept one is shorter than 144 characters |
| Paging.CapChunks | Code.js:943-950 | the in-place cap yields exactly `Cap(chunks)` |
| Paging.PaginateAndSend | Code.js:930-982 | a text that fits is posted once, with `SEND_FAILED` on failure. A longer one posts its pages in order and stops at the first failed post. The result always counts the pages and characters |
| Paging.SendPages | Code.js:955-981 | the posted payloads are a prefix of the numbered pages. Every post but the last succeeded. Success means every page went out; otherwise the reason is `CHUNK_i_FAILED` for the failed page `i` |
| Shaping.OverSeventyPercent | Code.js:1334 | JavaScript's `n > limit * 0.7` on doubles: it holds when `10 * n > 7 * limit`, and only when `10 * n >= 7 * limit`; equality passes only at a multiple of 10 |
| Shaping.Pow2Floor | Code.js:1339 | the largest power of two not above `x`, which sets the spacing of doubles at `7 * limit / 10` |
| Shaping.SeventyPercentOfDoubles | Code.js:1334 | a 490-character sentence passes at a limit of 700, since `700 * 0.7` rounds to just below 490; the 70 of 100 and the 7 of 10 do not pass |
| Shaping.TruncateSmart | Code.js:1328-1344 | a text within the limit comes back unchanged. A longer one comes back no longer than `limit + 2`, or as `"..."` when `limit < 3` |
| Shaping.TruncateSmartShapes | Code.js:1328-1344 | a truncated text takes exactly one of three shapes: a sentence match that ends in `.`, `!` or `?` and whose length passes `limit * 0.7` as doubles compute it; the text before a space whose index passes the same test, plus `"..."`; or the first `limit - 3` characters plus `"..."` |
| Shaping.SentenceShape | Code.js:1333-1336 | the sentence branch returns a match that ends in a sentence end and whose length passes `limit * 0.7` as doubles compute it |
| Shaping.SpaceShape | Code.js:1338-1341 | the space branch cuts at a space of the text whose index passes `limit * 0.7` as doubles compute it, and appends `"..."` |
| Shaping.CutShape | Code.js:1343 | otherwise the first `limit - 3` characters, then `"..."` |
| Shaping.TruncateSmartSingleLine | Code.js:1328-1344 | on one line of text the result is a prefix of the text, possibly followed by `"..."` |
| Shaping.TruncateSmartDropsEarlierLines | Code.js:1333 | `/.*[.!?]/` does not cross a newline, so a later line can be returned: `"a\ncdefghi.jk"` with limit 10 gives `"cdefghi."` |
| Shaping.TruncateSmartOvershoots | Code.js:1338-1340 | the space branch can return `limit + 2` characters: `"abcdefghi jk"` with limit 10 gives `"abcdefghi..."` |
| Shaping.RemoveAll | Code.js:1319-1322 | a global literal replace by `""` never lengthens the text and keeps only characters of it |
| Shaping.RemoveAllChar | Code.js:1320 | removing every `*` leaves none |
| Shaping.RemoveHeadings | Code.js:1321 | `replace(/#{1,6}\s/g, "")` never lengthens the text and keeps only characters of it |
| Shaping.SqueezeBlankLines | Code.js:1323 | `replace(/\n{3,}/g, "\n\n")` never lengthens the text and keeps only characters of it |
| Shaping.CollapseSpaces | Code.js:1325 | `replace(/\s{2,}/g, " ")` never lengthens the text, keeps characters of it or spaces, and keeps the first character's kind |
| Shaping.CollapseSpacesSingle | Code.js:1325 | after collapsing no two white-space characters are adjacent |
| Shaping.CollapseSpacesTrimmed | Code.js:1324-1325 | collapsing a trimmed text keeps it trimmed |
| Shaping.CollapseSpacesLast | Code.js:1325 | collapsing keeps the last character, or turns white space there into one space |
| Shaping.CleanOutput | Code.js:1315-1326 | the cleaned text is never longer than the input |
| Shaping.CleanOutputProperties | Code.js:1315-1326 | the cleaned text holds no `*` and no backtick, is trimmed, has no double white space, and is no longer than the input |
| Shaping.TrimSub | Code.js:1324 | trimming keeps only characters of the input |
| Shaping.CleanOutputKeepsPlain | Code.js:1315-1326 | a text with no `*`, backtick or `#`, trimmed and without double white space, comes back unchanged |
| Shaping.CleanOutputLeavesHeadingMarker | Code.js:1321-1322 | backticks go after headings, so `"#\` x"` becomes `"# x"` and keeps its marker, while `"# x"` becomes `"x"` |
| Commands.HelpIgnoresCase | Code.js:1366-1388 | the help test gives the same answer for a prompt and its lower-case form |
| Commands.HelpPrefix | Code.js:1383 | a trimmed prompt starting with HELP in any case is help exactly when HELP is a whole word, so `"help size 600"` is and `"HELPFUL"` is not |
| Commands.SizeFrom | Code.js:1428 | a `SIZE\s+(\d+)\b` match sits past the keyword and its spaces, and its capture is all digits |
| Commands.SizeCommandAt | Code.js:1428 | a match at `i` starts at `i` with a digit capture inside the text; the optional `RESPONSE\s+` is tried first |
| Commands.FindSizeCommand | Code.js:1428 | the search returns the leftmost match; no earlier position matches |
| Commands.ExtractSizeOverride | Code.js:1426-1436 | the override is present exactly when the first match's digits read a positive number, and then it is that number |
| Commands.SizeOverrideDigits | Code.js:1428-1432 | the override is the value of the non-empty digit capture of the first match |
| Commands.RemoveMatch | Code.js:536 | removing a match shortens the text by the match's length, and removing no match changes nothing |
| Commands.StripSizeAsWritten | Code.js:536 | the two replacements, `SIZE n` first and then `RESPONSE SIZE n`, never lengthen the prompt |
| Commands.StripSizeAsWrittenKeepsResponse | Code.js:536 | on `"RESPONSE SIZE 800 x"` the override is 800, but the prompt is left as `"RESPONSE  x"` |
| Commands.StripSize | Code.js:536 | the prompt without its size command never grows |
| Commands.StripSizeRemovesCommand | Code.js:525-536 | the stripped prompt is exactly the trimmed text around the first command match, whose digits gave the override; no earlier position starts a command |
| Commands.StripSizeDropsResponse | Code.js:536 | on `"RESPONSE SIZE 800 x"` the corrected strip leaves `"x"` |
| Commands.ErrorText | Code.js:874-895 | the posted error text is `"[" + code + "] " + message`, three characters longer than its parts |
| Commands.ParseErrorText | Code.js:874-895 | the reader gives back parts that rebuild the text |
| Commands.ErrorTextRoundTrip | Code.js:874-895 | a code without `]` and its message are read back exactly from the error text |
| Store.Properties.SetProperty | Code.js:1270 | `setProperty` overwrites one key and leaves every other key as it was |
| Store.Properties.DeleteProperty | Code.js:1281 | `deleteProperty` removes one key (a missing key is no error) and leaves the rest |
| RetryLedger.RetryKey | Code.js:1243 | the key of a message is `RETRY_` plus its id |
| RetryLedger.RetryKeyInjective | Code.js:1243 | two messages never share a retry key |
| RetryLedger.GetRetryCount | Code.js:1241-1254 | the count is 0 for a missing, empty or unparseable entry and for a count of zero or none; otherwise it is the stored count |
| RetryLedger.IncrementRetryCount | Code.js:1259-1273 | returns the old count plus one and stores it with the current time under the message's key, and only there |
| RetryLedger.ClearRetryCount | Code.js:1278-1282 | deletes the message's key and nothing else |
| RetryLedger.IncrementCounts | Code.js:1259-1273 | an increment raises this message's count by one and leaves every other message's count alone |
| RetryLedger.ThreeIncrements | Code.js:1259-1273 | three increments of a fresh message return 1, 2 and 3 |
| RetryLedger.ClearResets | Code.js:1278-1282 | clearing reads back as 0 and leaves every other entry untouched |
| RetryLedger.CleanupOldRetries | Code.js:1288-1313 | the loop over a snapshot of the keys leaves exactly `Sweep` of the old store |
| RetryLedger.SweepDeletesOnlyStale | Code.js:1294-1307 | a key survives the sweep exactly when it is not a stale (older than seven days, or unparseable) `RETRY_` entry; surviving values are unchanged and other keys are never touched |
| RetryLedger.SweepCount | Code.js:1288-1313 | after a sweep a message's count is what it was, or 0 |
| RetryLedger.SweepKeepsRecentIncrement | Code.js:1291-1298 | a count written less than seven days ago survives the sweep |
| InteractionState.ExpiryMs | InteractionStateManager.gs.js:12-15 | the expiry is the number of hours in milliseconds, with 24 hours when the number given is zero |
| InteractionState.GetStateKey | InteractionStateManager.gs.js:160-162 | the state key is `INTERACTION_` followed by the sender key, which can be read back |
| InteractionState.StateKeyInjective | InteractionStateManager.gs.js:160-162 | two senders never share a state key |
| InteractionState.NewWordStartsConversation | InteractionStateManager.gs.js:115 | a trimmed prompt starting with NEW, RESET or FRESH (any case) followed by a non-word character asks for a new conversation |
| InteractionState.NewPrefixIsNotReset | InteractionStateManager.gs.js:102-120 | a word that merely starts with NEW (NEWS, NEWLY, NEW2) does not reset the conversation |
| InteractionState.NewsIsNotNew | InteractionStateManager.gs.js:102-120 | `"news"` does not reset the conversation |
| InteractionState.LookupStored | InteractionStateManager.gs.js:39-65 | reading a stored state either leaves the store alone or deletes this sender's key, nothing else |
| InteractionState.ResetClears | InteractionStateManager.gs.js:32-36 | a reset prompt yields no id and deletes the sender's state, even when it has not expired |
| InteractionState.LookupAges | InteractionStateManager.gs.js:39-65 | with no reset: no state gives no id and changes nothing; an age over the expiry deletes the state; an age of exactly the expiry still continues; an unparseable state is deleted |
| InteractionState.SetThenGet | InteractionStateManager.gs.js:30-83 | an id stored at `t` comes back from any non-reset lookup within the expiry, and the lookup leaves the store as it was |
| InteractionState.ExpireKeeps | InteractionStateManager.gs.js:126-154 | the cleanup keeps exactly the keys that are not expired or unreadable `INTERACTION_` states, with their values unchanged |
| InteractionState.InteractionStateManager.GetInteractionId | InteractionStateManager.gs.js:30-66 | the returned id and the new store are `Lookup` of the old store |
| InteractionState.InteractionStateManager.SetInteractionId | InteractionStateManager.gs.js:74-83 | overwrites this sender's state with the id and the current time, and nothing else |
| InteractionState.InteractionStateManager.ClearInteractionId | InteractionStateManager.gs.js:90-93 | deletes this sender's state and nothing else |
| InteractionState.InteractionStateManager.CleanupExpired | InteractionStateManager.gs.js:126-154 | the store becomes `Expire` of the old one, and the count returned is the number of keys deleted |
| InteractionState.Utf16 | InteractionStateManager.gs.js:191 | `charCodeAt` reads UTF-16 code units, each below 2^16, at least one per character |
| InteractionState.HashOf | InteractionStateManager.gs.js:189-194 | the hash stays within 32 bits |
| InteractionState.HashIsPoly | InteractionStateManager.gs.js:189-194 | the wrapped hash is the polynomial in 31 over the code units, reduced modulo 2^32 |
| InteractionState.AbsSigned | InteractionStateManager.gs.js:195 | `Math.abs` of the signed 32-bit hash is at most 2^31 |
| InteractionState.SenderHash | InteractionStateManager.gs.js:188-196 | the hashed key starts with `SENDER_` and has at least one base-36 digit |
| InteractionState.SimpleHash | InteractionStateManager.gs.js:188-196 | the loop with `(hash << 5) - hash + char` and the 32-bit conversion yields `SenderHash` |
| InteractionState.ShiftStep | InteractionStateManager.gs.js:192-193 | one step of the shift-and-subtract loop, wrapped at 32 bits, equals multiplying by 31 and adding the unit |
| InteractionState.SenderKeyShape | InteractionStateManager.gs.js:171-182 | a reply address gives a `SENDER_` hash that is the same for every URL with the same decoded address. Without an address, the key is the `extId` value or `UNKNOWN` |
| GeminiClient.ModelName | GeminiInteractionsClient.gs.js:15-19 | an empty model tag falls back to `gemini-flash-latest` |
| GeminiClient.BuildUrl | GeminiInteractionsClient.gs.js:146-148 | the URL is the base URL, `/interactions?key=`, then exactly the API key |
| GeminiClient.InputText | GeminiInteractionsClient.gs.js:156-161 | with a system prompt the input wraps it in the instruction markers before `User query: `; without one it is the user's message |
| GeminiClient.KnownToolsMembers | GeminiInteractionsClient.gs.js:182-197 | the tool filter keeps exactly the known names (`google_search`, `url_context`, `code_execution`) and never adds any |
| GeminiClient.UnknownToolsDropped | GeminiInteractionsClient.gs.js:199-201 | when no requested tool is known, the payload has no tools field |
| GeminiClient.BuildPayload | GeminiInteractionsClient.gs.js:154-205 | the payload carries the model, the wrapped input, TEXT output and `store`. Tokens default to 2048 when zero and temperature to 0.4 when absent. The previous id is sent only when non-empty, and the tools field lists the known tools only when there are any |
| GeminiClient.OutputTexts | GeminiInteractionsClient.gs.js:217-225 | the texts taken from the outputs are all non-empty |
| GeminiClient.PartTexts | GeminiInteractionsClient.gs.js:239-245 | the texts taken from a candidate's parts are all non-empty |
| GeminiClient.CandidateTexts | GeminiInteractionsClient.gs.js:233-251 | only the first candidate's parts are read, and their texts are non-empty |
| GeminiClient.ExtractedTextNonEmpty | GeminiInteractionsClient.gs.js:212-263 | `extractText` returns a non-empty text, or nothing exactly when no source (outputs, candidate parts, `text`, `response.text`) holds text |
| GeminiClient.OutputsTakePrecedence | GeminiInteractionsClient.gs.js:214-230 | a text-bearing output always appears in the extracted text, whatever later sources hold |
| GeminiClient.ExtractText | GeminiInteractionsClient.gs.js:212-263 | the loops collect exactly `ExtractedText(json)` |
| GeminiClient.RetryableIff | GeminiInteractionsClient.gs.js:269-291 | a message is retryable exactly when its lower-cased text holds a temporary marker, whatever permanent marker it also holds |
| GeminiClient.RetryableIgnoresCase | GeminiInteractionsClient.gs.js:272 | the classification is the same for a message and its upper- or lower-case form |
| GeminiClient.RetryableWinsOverPermanent | GeminiInteractionsClient.gs.js:275-285 | a message holding `503` is retryable even when it also says `invalid` |
| GeminiClient.CallOutcome | GeminiInteractionsClient.gs.js:58-139 | success holds exactly when there is no error, and then with a non-empty text. A failure carries no text. An interaction id is only returned from a parsed reply without an API error |
| GeminiClient.CallErrorPaths | GeminiInteractionsClient.gs.js:58-139 | an unparsable body is a permanent failure. An API error carries its message, or `Unknown error`, classified by `isErrorRetryable`. A reply without text fails permanently but keeps its id. An exception is retryable exactly when its message looks transient |
| GeminiClient.Call | GeminiInteractionsClient.gs.js:38-140 | the request goes to `buildUrl()` with the built payload, and the result is `CallOutcome` of the exchange's answer |
| ToolResults.HttpError | WikipediaTool.gs.js:51 | the HTTP error code starts with `HTTP_` and the status follows it |
| ToolResults.ExceptionError | WikipediaTool.gs.js:74 | the exception error is `EXCEPTION:` followed by exactly the exception's message |
| Wikipedia.MakeConfig | WikipediaTool.gs.js:8-12 | every setting is filled in, and a given base URL or maximum is kept |
| Wikipedia.RequestUrl | WikipediaTool.gs.js:31 | the request URL is the base URL, `/`, then the encoded trimmed query |
| Wikipedia.ShortenExtract | WikipediaTool.gs.js:64-67 | an extract within the maximum is kept; a longer one becomes its first `max` characters plus `...` |
| Wikipedia.FetchSummary | WikipediaTool.gs.js:30-78 | every result is well formed (an error exactly when it failed, no data on failure), and a success carries data |
| Wikipedia.FetchFailures | WikipediaTool.gs.js:44-62 | 404 gives `NOT_FOUND`, any other code but 200 gives `HTTP_<code>`, and a disambiguation page gives `DISAMBIGUATION` |
| Wikipedia.ExtractBound | WikipediaTool.gs.js:64-69 | a summary page always succeeds. Its data is the whole extract, or a prefix of it followed by `...` and at most the maximum plus three long. A page without an extract gives `""` |
| News.MakeConfig | NewsTool.gs.js:9-12 | every setting is filled in, and a given feed URL or maximum is kept |
| News.CleanTitle | NewsTool.gs.js:82-89 | a cleaned title is at most 80 characters |
| News.CleanTitleShape | NewsTool.gs.js:82-89 | the title is cut at its last ` - ` (when that is not at index 0), and no separator follows the cut. The part kept stays when at most 80 long, and otherwise becomes its first 77 characters plus `...` |
| News.CleanTitleKeepsPlain | NewsTool.gs.js:82-89 | a title of at most 80 characters without a late separator is kept as it is |
| News.HeadlineAsWrittenLacksBullet | NewsTool.gs.js:91 | the bullet as stored in the file (`â€¢ `) puts no `•` into a headline |
| News.CleanTitleFrom | NewsTool.gs.js:82-89 | every character of a cleaned title comes from the title or from `...` |
| News.Headline | NewsTool.gs.js:91 | a headline starts with the bullet `• ` and is at most 82 characters |
| News.Headlines | NewsTool.gs.js:77-92 | one headline for each of the first `maxHeadlines` titles, in feed order |
| News.FetchHeadlines | NewsTool.gs.js:47-109 | an exception or unparsable feed gives `EXCEPTION:`, a code other than 200 `HTTP_<code>`, a missing channel `INVALID_RSS`, no item `NO_HEADLINES`; otherwise the headlines joined by newlines |
| News.EmptyTitleMakesLine | NewsTool.gs.js:79 | an item without a title still makes a line, the bullet alone |
| Geocode.RequestUrlShape | ReverseGeocodeTool.gs.js:33-41 | the request is the reverse URL, `?`, the coordinates, then `format=json&addressdetails=1&zoom=14` |
| Geocode.FirstPresent | ReverseGeocodeTool.gs.js:74 | the value chosen among the alternatives is a non-empty one, and there is none exactly when all are empty |
| Geocode.PartsPrecedence | ReverseGeocodeTool.gs.js:69-85 | at most three parts. The most specific name comes first: village, then town, then city, then state. There are no parts exactly when every name field is empty |
| Geocode.DescribeFallbacks | ReverseGeocodeTool.gs.js:87-101 | with no part and no feature the display name is the line. With a feature the line ends in `)` |
| Geocode.GatherParts | ReverseGeocodeTool.gs.js:69-85 | the pushes build exactly `LocationParts(addr)` |
| Geocode.GatherFeatures | ReverseGeocodeTool.gs.js:93-96 | the pushes build exactly `Features(addr)` |
| Geocode.DescribePlace | ReverseGeocodeTool.gs.js:68-101 | the location line is exactly `Describe(json)` |
| Geocode.FetchPlace | ReverseGeocodeTool.gs.js:32-112 | an exception or unparsable body gives `EXCEPTION:`, a code other than 200 `HTTP_<code>`, a truthy `error` `NOT_FOUND`, and otherwise the location line is the data |
| Weather.MaxRainIsMaximum | WeatherTool.gs.js:78-84 | the day's rain figure is at least 0 and at least every entry's chance, and it is one of those chances unless it is 0 |
| Weather.DayLines | WeatherTool.gs.js:61-86 | one line per day, the i-th being that day's line |
| Weather.AstronomyLines | WeatherTool.gs.js:89-93 | no more astronomy lines than days looked at |
| Weather.LineBounds | WeatherTool.gs.js:52-95 | at most four data lines, with the days after the current conditions in order. At most two astronomy lines, and none unless asked for |
| Weather.AstronomyFirstTwoDays | WeatherTool.gs.js:89 | changing the third day never changes the astronomy lines |
| Weather.DayRain | WeatherTool.gs.js:78-84 | the loop computes `MaxRain` |
| Weather.BuildDayLines | WeatherTool.gs.js:60-95 | the loop over the first three days builds the day lines, and the astronomy lines when asked for |
| Weather.FetchWeather | WeatherTool.gs.js:31-112 | an exception or unparsable body gives `EXCEPTION:` and a code other than 200 `HTTP_<code>`. Otherwise the lines joined by newlines are the data, the astronomy is given only when there is some, and the raw forecast is kept |
| Gdacs.MakeConfig | GdacsTool.gs.js:6-10 | the radius defaults to 500 and the minimum level to Orange, and given values are kept |
| Gdacs.NearbyAlertsKept | GdacsTool.gs.js:55-80 | every kept alert comes from an item that passes the level test and lies within the radius, and its title is at most 100 characters |
| Gdacs.LevelFilter | GdacsTool.gs.js:63-64 | a minimum of Red leaves only Red alerts; a minimum of Orange leaves no Green one |
| Gdacs.FilterNearbyAlerts | GdacsTool.gs.js:55-80 | the loop keeps exactly `NearbyAlerts`, in feed order |
| Gdacs.SortSortsAndPermutes | GdacsTool.gs.js:42 | the sort orders by distance and neither loses nor adds an alert |
| Gdacs.InsertSorted | GdacsTool.gs.js:42 | inserting into a sorted list keeps it sorted and adds exactly that alert |
| Gdacs.SortIsStable | GdacsTool.gs.js:42 | the sort is stable: the alerts at any one distance keep their order |
| Gdacs.TopLines | GdacsTool.gs.js:44-46 | at most three lines, and no more than there are alerts |
| Gdacs.TopLinesNearest | GdacsTool.gs.js:42-46 | the lines are those of the nearest alerts, at most three. No alert left out is nearer than one shown. The sorted list is a permutation of the nearby ones |
| Gdacs.FetchNearby | GdacsTool.gs.js:18-53 | an exception gives `EXCEPTION:`, a code other than 200 `HTTP_<code>`, and a parser failure passes its error on. No nearby alert gives success without data; otherwise the nearest three lines, joined, are the data |
| Toolbox.WikiTerm | Code.js:664-666 | a `WIKI` term is only found after `WIKI` (any case) and a white-space character at the start of the prompt |
| Toolbox.WikiTermOf | Code.js:113 | `WIKI <term>` and `wiki <term>`, with a trimmed one-line term, give exactly that term |
| Toolbox.WikiNeedsSpace | Code.js:113 | `WIKI` glued to the next word is no command |
| Toolbox.Failure | Code.js:674 | an entry of the error list starts with the tool's name and a colon |
| Toolbox.SummaryKeepsTwoParts | Code.js:855-858 | `tool:error` is summarised as `tool: FAILED (error)`. Of an error that holds colons only the text before its first colon is kept |
| Toolbox.FailureBlockIff | Code.js:854-860 | the blocks end with the failure block exactly when some tool failed, and no other block starts like it |
| Toolbox.GatheredCalls | Code.js:663-852 | the tools consulted depend only on the prompt and the coordinates, never on what the tools answer |
| Toolbox.UnlocatedOnlyWikiAndNews | Code.js:827-852 | without usable coordinates only the Wikipedia and news tools run, and only they can fail |
| Toolbox.RunToolbox | Code.js:651-864 | the context is the prompt's blocks joined by blank lines, and the errors and the tools consulted are those the prompt and coordinates decide |
| Toolbox.CloseContext | Code.js:854-862 | the failure block is added exactly when there are errors, then the blocks are joined by blank lines |
| Toolbox.Gather | Code.js:663-852 | the steps in order build exactly the gathered blocks, errors and calls |
| Toolbox.WikiStep | Code.js:663-682 | the Wikipedia step builds exactly its section: the extract, or the failure and its error |
| Toolbox.NewsStep | Code.js:688-706 | the news step builds exactly its section |
| Toolbox.LocatedStep | Code.js:709-826 | with coordinates, the location block and then the geocode, weather and disaster sections |
| Toolbox.GeocodeStep | Code.js:715-733 | the place-name step builds exactly its section |
| Toolbox.WeatherStep | Code.js:735-804 | one weather call serves weather, astronomy and full weather, and builds exactly their section |
| Toolbox.WeatherSuccessStep | Code.js:750-772 | a successful weather call gives the raw forecast for full weather, otherwise the summaries asked for |
| Toolbox.WeatherFailureStep | Code.js:773-803 | a failed weather call gives one failure for full weather, or one each for weather and astronomy as asked |
| Toolbox.GdacsStep | Code.js:806-826 | the disaster step builds exactly its section, with its own note when no alert is near |
| Toolbox.UnlocatedStep | Code.js:827-852 | without coordinates, one explanation for each location tool asked for |
| Delivery.LocationOf | Code.js:366 | the redirect target, when present, is not empty |
| Delivery.Moves | Code.js:361-389 | one move per answer, the k-th decided by the k-th answer |
| Delivery.WalkBounded | Code.js:349-353 | the walk fetches between one and five URLs, starting with the one it is given |
| Delivery.WalkArrives | Code.js:372-379 | the walk ends at a page only where one of its first five moves arrives there |
| Delivery.WalkFinds | Code.js:365-379 | a page found is a message page with an `extId`, taken from the `Location` of one of the first five answers, which was a redirect |
| Delivery.NextMove | Code.js:361-389 | one pass of the redirect loop computes the move of the `count`-th answer |
| Delivery.FollowRedirects | Code.js:348-390 | the loop ends where the walk ends and fetches exactly the walk's URLs |
| Delivery.ResolveLink | Code.js:343-402 | the link is resolved as `ResolveShortLink` says, and only a short link is followed |
| Delivery.PlainLinkUntouched | Code.js:344 | a link that is not a short link is kept as it is |
| Delivery.ResolvedShape | Code.js:343-396 | the link is the short link itself, or the message page the walk found, with the address appended only when the page has no `adr=` |
| Delivery.NoRedirectKeepsLink | Code.js:386-389 | a first answer that is no redirect stops the walk after one fetch and keeps the short link |
| Delivery.PageUrl | Code.js:1114 | the page URL is the text before the first `&adr=`, or the whole URL without one |
| Delivery.Origin | Code.js:1163 | the origin starts with `https://` and has a host |
| Delivery.PostPlan | Code.js:1110-1164 | a post is planned only with a reply address. It goes to the origin plus the endpoint suffix, with the page URL as referer and the message unchanged |
| Delivery.PostToGarmin | Code.js:1104-1224 | in simulation nothing is posted and the result is true. Otherwise the planned post is made, and the result is whether Garmin accepted it |
| Delivery.PlanSources | Code.js:1117-1153 | the page's reply address wins. Without form values the post needs `extId=` and `adr=` in the link, and then uses them |
| Delivery.AdrRoundTrip | Code.js:393-394 | appending `&adr=` to a page without one is undone by both readers. The page URL comes back, and the first `adr=` value is the encoded address |
| Pipeline.ReplaceFirst | Code.js:559 | only the first occurrence of the pattern is replaced, and the text around it is kept |
| Pipeline.Budget | Code.js:525-534 | the budget is the defaults without an override. With one, both lengths are the override capped at 2000 |
| Pipeline.PromptFor | Code.js:536 | without an override the prompt is unchanged, and the prompt never grows |
| Pipeline.FinalText | Code.js:605-640 | the paged text is within the budget plus the ellipsis' slack |
| Pipeline.CompressedReplyWins | Code.js:621-634 | when Phase 2 succeeds the analysis has no say in the final text, and a reply that fits the budget once cleaned is paged as it is, once cleaned |
| Pipeline.FinalTextClean | Code.js:630-636 | a final text within the budget is free of `*` and backquotes, trimmed, and without doubled white space |
| Pipeline.ShortAnalysisSurvives | Code.js:618-630 | when Phase 2 fails, an analysis within the budget is paged once cleaned, uncut |
| Pipeline.Continued | Code.js:565-567 | a previous interaction id is sent only when truthy |
| Pipeline.Looked | Code.js:549-556 | without a sender nothing is looked up and the state is unchanged |
| Pipeline.Analyze | Code.js:549-589 | Phase 1: the sender's id is looked up. The analysis call carries the tool context and continues that id |
| Pipeline.Compress | Code.js:605-640 | Phase 2 calls without tools or conversation state, and the final text is as `FinalText` says |
| Pipeline.Answer | Code.js:547-641 | a retryable Phase 1 failure posts nothing. A permanent one posts the error message. A success remembers the new id, runs Phase 2 and pages the final text |
| Pipeline.ProcessAndSend | Code.js:490-641 | without a key one error is posted and nothing else happens, and a help request pages the help text. Any other prompt is answered with its budget and tool context |
| Pipeline.Sized | Code.js:524-537 | the loop-free size step gives the budget and the prompt without the command |
| Pipeline.GatherContext | Code.js:540 | only the toolbox's context reaches the phases |
| Gateway.FirstLine | Code.js:404 | the first line holds no line break and is the body up to its first break |
| Gateway.StripAiPrefix | Code.js:412 | the stripped prompt is trimmed, at least three shorter, and does not start with a space |
| Gateway.AiPrefixRoundTrip | Code.js:406-412 | writing the tag and a gap in front of a trimmed prompt is undone by stripping |
| Gateway.JsLength | Code.js:414 | JavaScript's `length`, the count of UTF-16 code units, lies between the number of characters and twice that |
| Gateway.PromptOf | Code.js:404-419 | a prompt is trimmed, not empty, at least two UTF-16 code units long, and does not start with a space or a colon |
| Gateway.AstralPromptAccepted | Code.js:414 | a prompt of one character outside the Basic Multilingual Plane is long enough, being two code units |
| Gateway.OneUnitPromptRefused | Code.js:414-419 | a prompt of one ASCII character is too short and the message is settled without an answer |
| Gateway.RequestLineRoundTrip | Code.js:404-419 | a body whose first line is the tag, a gap and a prompt gives back exactly that prompt |
| Gateway.Conclude | Code.js:430-478 | booking an outcome stars at most the message itself and calls nobody |
| Gateway.Attend | Code.js:298-479 | attending stars at most the message itself, and hands it to the pipeline at most once |
| Gateway.HandleAttends | Code.js:274-298 | a message that is not skipped is attended to once marked as seen |
| Gateway.Inbox.Star | Code.js:303 | the message becomes starred and nothing else does |
| Gateway.SettleMessage | Code.js:303-304 | the message is starred and its retry entry removed |
| Gateway.RetryMessage | Code.js:445-453 | a failed attempt is counted, and at the ceiling the message is settled and the user told |
| Gateway.ReadPrompt | Code.js:404-419 | the prompt line is read as `PromptOf` says, with the length test on UTF-16 code units |
| Gateway.ProcessThread | Code.js:267-482 | one thread changes the stars, the store and the calls as `Handle` says |
| Gateway.AttendMessage | Code.js:298-479 | a message just marked as seen changes things as `Attend` says |
| Gateway.BookOutcome | Code.js:430-478 | the outcome is booked as `Conclude` says |
| Gateway.RunGateway | Code.js:239-484 | one run changes the stars and the store, and makes the calls and notices, as `Run` says |
| Gateway.ProcessThreads | Code.js:265-483 | the thread loop works as `HandleAll` says, with a fresh set of seen ids |
| Gateway.SkipsDone | Code.js:274-292 | a thread without messages, a starred message and one already seen in this run change nothing |
| Gateway.OtherCount | Code.js:1259-1282 | clearing or counting one message's attempts leaves every other message's count alone |
| Gateway.TouchesOnlyItself | Code.js:267-482 | handling a thread changes only its last message's star and retry count |
| Gateway.CeilingSettles | Code.js:301-306 | a message at the ceiling is starred and its count cleared, and neither the pipeline nor the user hears of it |
| Gateway.NonRequestSettles | Code.js:317-419 | a message without a link or without a prompt is settled without any work |
| Gateway.RequestBooked | Code.js:430-478 | a request goes once to the pipeline. Success or a permanent failure settles it. Another failure counts an attempt, and at the ceiling the message is settled and the user told; below it stays unstarred |
| Gateway.RunSpends | Code.js:239-484 | a run without the cleanup hands a message to the pipeline no more often than its attempts left |
| Gateway.AtMostThreeAttempts | Code.js:298-478 | over any number of runs without the cleanup, a new message reaches the pipeline at most three times |
| Gateway.RunCallsOnce | Code.js:264-293 | within one run no message reaches the pipeline twice, and none starred at the start reaches it |
| Gateway.CleanupCounts | Code.js:252-262 | the sweep changes a retry count only by dropping a stale entry, which leaves 0 |

## Left out

- The Gmail search (its query, and its cap of 10 threads per run) is not modelled. The threads it returns are an input.
- Flagging a message is modelled as membership in the `starred` set of `Gateway.Inbox`.
- Three regular expressions, and `encodeURIComponent`, are `Scanner` functions given by the caller, not written out:
  - the Garmin link match of Code.js:314;
  - the To-address match of Code.js:333, whose result is the message's `recipient`;
  - `extractCoordinates` (Code.js:897-923).
- `decodeURIComponent` is a parameter, with `None` where it throws.
- Exceptions thrown by the Gmail and property services are not modelled, and neither is the per-thread `catch` (Code.js:479-482), which would only log them.
- The pipeline's outcome is an oracle per thread. `Gateway` does not compose `Pipeline.ProcessAndSend` with itself, so the conversation-state writes of a pipeline run do not reach the gateway's store.
- `handleFailure`, the `console` and `debug` logging, and the toolbox's logging of tool calls are left out: they only log or alert.
- The result of `sendErrorToUser` is ignored by the source. The gateway records each such call as a `Notice` and does not model the post it makes.
- `Math.random() < 0.1` (Code.js:253) is the `sweep` argument of `Gateway.RunGateway`.
- All clock reads in one run are the single time `now`.
- `Gateway.AtMostThreeAttempts`: holds for runs without the cleanup sweep. The sweep deletes retry entries older than seven days, after which a stale message can be tried again.
- The help text and the two phase prompts are parameters (`Env`), not the literal templates of Code.js.
- A `$` pattern in a replacement string of JavaScript's `replace` is not interpreted. The contexts and lengths are inserted literally.
- A tool that throws while it is being created is a `None` tool in `Toolbox.Tools`. The model answers it with the "Tool initialization failed" error and the unavailable block of `runToolbox`. Creating the state manager is taken never to throw, so its `catch` (Code.js:503-506), which goes on without conversation state, is not modelled.
- `Utilities.sleep` between pages and the HTTP timeouts are left out: they only pace the calls.
- Floating point is not modelled. `haversineDistance` is the parameter `distanceTo`, and coordinates are `real` values alongside their JavaScript renderings.
- `toUpperCase` and `toLowerCase` are modelled for ASCII letters only.
- XML parsing of the RSS feeds is not modelled. A parsed feed is a datatype, and a parser failure is `Malformed`.
- JSON parsing is not modelled. A reply body is `Parsed` or `Malformed`.
- `JSON.stringify` of the raw forecast is the parameter `stringify`.
- The HTML scraping of `extractGarminFormValues` (Code.js:1037-1102) is the parameter `scrape`, which gives the form values or `None`.
- `Gdacs.SortByDistance`: the JavaScript sort is modelled as a functional stable insertion sort on a sequence, not as the engine's in-place sort. Its stability is proved.
- `Paging.SplitForPaging`: requires `maxChunkLen > 0`. The source's only caller passes 149, `LIMITS.CHUNK_PAYLOAD` (Code.js:28, 941), and with 0 the source loop would not end.

- Pipeline.PromptFor, Pipeline.Sized: use the corrected strip of the Code.js:536 finding, which also removes the `RESPONSE` word. The source as written leaves `RESPONSE  x` for `RESPONSE SIZE 800 x`. That is `Commands.StripSizeAsWritten`.
- Pipeline.ProcessAndSend: the prompt it hands to the toolbox and to Phase 1 is the corrected strip's, as for `Pipeline.PromptFor`.
- News.FetchHeadlines, News.Headlines: build each line with the corrected bullet `"• "` of the NewsTool.gs.js:91 finding. The source as written puts `"â€¢ "` in front, which is `News.HeadlineAsWritten`.
- News.EmptyTitleMakesLine: states the corrected bullet alone. As written the line is `"â€¢ "`.
- Lengths and indices count Unicode scalar values, while JavaScript's `length`, `substring`, `lastIndexOf` and `indexOf` count UTF-16 code units. They differ only for characters outside the Basic Multilingual Plane, such as emoji. The bounds this shifts for such text are: the page split and the page count of `Paging.SplitForPaging` and `Paging.PagesFit`; the cut of `Shaping.TruncateSmart`; the 80-character title cap of `News.CleanTitle`; the extract cap of `Wikipedia.ShortenExtract`; and the title cut of the GDACS alert lines. `Gateway.PromptOf` and `Gateway.ReadPrompt` are the exception: their two-character floor counts code units.
- Shaping.OverSeventyPercent: the rounding argument behind it holds for limits below 2^48. The source's limits are at most 2000.

## Findings

| source | as written | input that shows it | evidently intended | confidence | as-written member | corrected member |
|---|---|---|---|---|---|---|
| Code.js:536 | the `SIZE n` pattern is removed first and the `RESPONSE SIZE n` pattern second; the first removal takes `SIZE 800` out of `RESPONSE SIZE 800`, so the second never matches | `RESPONSE SIZE 800 x` leaves `RESPONSE  x` | the whole size command, with its `RESPONSE` word, is removed, leaving `x` | not executed | Commands.StripSizeAsWrittenKeepsResponse | Commands.StripSizeRemovesCommand |
| NewsTool.gs.js:91 | the bullet literal is `"â€¢ "`, the UTF-8 bytes of `•` read as Windows-1252 | any title: the headline starts with `â`, not `•` | each headline starts with `• `, as NewsTool.test.gs.js:107 expects | not executed | News.HeadlineAsWrittenLacksBullet | News.Headline |
