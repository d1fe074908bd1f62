/** Getting a reply to the Garmin device (Code.js): the walk from an
    `inreachlink.com` short link to the `explore.garmin.com` page it redirects to,
    and `postToGarmin`, which turns that page's link into the form post that
    delivers one message. */
module Delivery {
  import opened Wrappers
  import opened Text

  // ---------------------------------------------------------------------------
  // the redirect walk

  const MaxRedirects: nat := 5

  /** The answer to one fetch made with redirects off: it threw, or it came back
      with a status code and its `Location` and `location` headers. */
  datatype Hop = FetchThrew | Answer(code: int, location: Option<string>, lowerLocation: Option<string>)

  /** `headers['Location'] || headers['location']`, when truthy. */
  function LocationOf(h: Hop): (r: Option<string>)
    requires h.Answer?
    ensures r.Some? ==> r.value != ""
  {
    if Truthy(h.location) then h.location else if Truthy(h.lowerLocation) then h.lowerLocation else None
  }

  /** A redirect status of section 15.4 of RFC 9110: 300 to 399. */
  predicate IsRedirect(h: Hop) {
    h.Answer? && 300 <= h.code < 400
  }

  /** A location that is the message page: it names `explore.garmin.com` and has
      an `extId=` parameter. */
  predicate IsMessagePage(location: string) {
    Contains(location, "explore.garmin.com") && FirstParam(location, "extId=", IsValueChar).Some?
  }

  /** How the walk ends: at the message page, by a stop (no redirect, no location,
      or five redirects), or by an exception. */
  datatype WalkEnd = Found(url: string) | Stopped | Failed

  /** What the `count`-th answer makes the walk do. */
  datatype Move = Throws | Halts | Arrives(page: string) | Follows(next: string)

  /** The `count`-th answer of `responses` (a fetch past the end throws): an
      exception, a stop (no redirect, or no location), the message page, or the
      next URL to fetch. */
  function MoveAt(responses: seq<Hop>, count: nat): Move {
    if count >= |responses| || responses[count].FetchThrew? then Throws
    else
      var h := responses[count];
      if !IsRedirect(h) || LocationOf(h).None? then Halts
      else if IsMessagePage(LocationOf(h).value) then Arrives(LocationOf(h).value)
      else Follows(LocationOf(h).value)
  }

  /** The moves the answers make, one per answer. */
  function Moves(responses: seq<Hop>): (moves: seq<Move>)
    ensures |moves| == |responses|
    ensures forall k :: 0 <= k < |responses| ==> moves[k] == MoveAt(responses, k)
  {
    seq(|responses|, k requires 0 <= k < |responses| => MoveAt(responses, k))
  }

  /** The `count`-th move; a fetch past the last answer throws. */
  function MoveOf(moves: seq<Move>, count: nat): Move {
    if count < |moves| then moves[count] else Throws
  }

  /** The walk from `current`, the `count`-th URL fetched, making `moves`: how it
      ends and the URLs it fetches. */
  function Walk(current: string, moves: seq<Move>, count: nat): (r: (WalkEnd, seq<string>))
    decreases MaxRedirects - count
  {
    if count >= MaxRedirects then (Stopped, [])
    else match MoveOf(moves, count)
      case Throws => (Failed, [current])
      case Halts => (Stopped, [current])
      case Arrives(page) => (Found(page), [current])
      case Follows(next) =>
        var rest := Walk(next, moves, count + 1);
        (rest.0, [current] + rest.1)
  }

  /** The walk fetches at most five URLs, starting with the one it is given. */
  lemma {:induction false} WalkBounded(current: string, moves: seq<Move>, count: nat)
    requires count < MaxRedirects
    ensures var fetched := Walk(current, moves, count).1;
      1 <= |fetched| <= MaxRedirects - count && fetched[0] == current
    decreases MaxRedirects - count
  {
    if MoveOf(moves, count).Follows? && count + 1 < MaxRedirects {
      WalkBounded(MoveOf(moves, count).next, moves, count + 1);
    }
  }

  /** The walk ends at a page only where one of its first five moves arrives there. */
  lemma {:induction false} WalkArrives(current: string, moves: seq<Move>, count: nat)
    requires Walk(current, moves, count).0.Found?
    ensures exists k :: count <= k < MaxRedirects && MoveOf(moves, k) == Arrives(Walk(current, moves, count).0.url)
    decreases MaxRedirects - count
  {
    var m := MoveOf(moves, count);
    if m.Follows? {
      WalkArrives(m.next, moves, count + 1);
    }
  }

  /** The page the walk finds is a message page, taken from the `Location` of one
      of the first five answers, which was a redirect. */
  lemma WalkFinds(current: string, responses: seq<Hop>)
    requires Walk(current, Moves(responses), 0).0.Found?
    ensures var url := Walk(current, Moves(responses), 0).0.url;
      IsMessagePage(url)
      && exists k :: 0 <= k < MaxRedirects && k < |responses| && IsRedirect(responses[k])
           && LocationOf(responses[k]) == Some(url)
  {
    WalkArrives(current, Moves(responses), 0);
    var url := Walk(current, Moves(responses), 0).0.url;
    var k :| 0 <= k < MaxRedirects && MoveOf(Moves(responses), k) == Arrives(url);
    assert MoveAt(responses, k) == Arrives(url);
  }

  /** The link `runGateway` posts to, given the link found in the mail: a short
      link that redirects to the message page is replaced by that page, with
      `&adr=` and the encoded recipient address appended when the page has no
      `adr=` yet; any other link, and a walk that finds nothing or throws, leaves
      the link as it was. */
  function ResolveShortLink(targetUrl: string, replyAddress: Option<string>, responses: seq<Hop>,
                            encode: string -> string): string
  {
    if !Contains(targetUrl, "inreachlink.com") then targetUrl
    else match Walk(targetUrl, Moves(responses), 0).0
      case Found(location) =>
        if Truthy(replyAddress) && !Contains(location, "adr=") then location + "&adr=" + encode(replyAddress.value)
        else location
      case Stopped => targetUrl
      case Failed => targetUrl
  }

  /** One pass of the redirect loop of `runGateway` (Code.js:361-389): how the
      answer to the `count`-th fetch moves the walk on. */
  method NextMove(responses: seq<Hop>, count: nat) returns (m: Move)
    ensures m == MoveAt(responses, count)
  {
    if count >= |responses| || responses[count].FetchThrew? {
      return Throws;
    }
    var response := responses[count];
    var statusCode := response.code;
    if statusCode >= 300 && statusCode < 400 {
      var location := LocationOf(response);
      if location.Some? {
        var extIdMatch := FirstParam(location.value, "extId=", IsValueChar);
        if Contains(location.value, "explore.garmin.com") && extIdMatch.Some? {
          m := Arrives(location.value);
        } else {
          m := Follows(location.value);
        }
      } else {
        m := Halts;
      }
    } else {
      m := Halts;
    }
  }

  /** The `while` loop of `runGateway` that follows the redirects of a short link
      one fetch at a time (Code.js:348-390); `fetched` lists the URLs it fetches,
      in order. */
  method FollowRedirects(targetUrl: string, responses: seq<Hop>) returns (end: WalkEnd, fetched: seq<string>)
    ensures end == Walk(targetUrl, Moves(responses), 0).0 && fetched == Walk(targetUrl, Moves(responses), 0).1
  {
    var currentUrl := targetUrl;
    var redirectCount := 0;
    var done := false;
    end, fetched := Stopped, [];
    ghost var moves := Moves(responses);
    ghost var whole := Walk(targetUrl, moves, 0);
    assert fetched + whole.1 == whole.1;
    while redirectCount < MaxRedirects && !done
      invariant 0 <= redirectCount <= MaxRedirects
      invariant !done ==> end == Stopped && whole.0 == Walk(currentUrl, moves, redirectCount).0
      invariant !done ==> whole.1 == fetched + Walk(currentUrl, moves, redirectCount).1
      invariant done ==> whole.0 == end && whole.1 == fetched
      decreases MaxRedirects - redirectCount, if done then 0 else 1
    {
      ghost var rest := Walk(currentUrl, moves, redirectCount);
      ghost var before := fetched;
      var move := NextMove(responses, redirectCount);
      assert move == MoveOf(moves, redirectCount);
      fetched := fetched + [currentUrl];
      match move
      case Throws =>
        end, done := Failed, true;
      case Halts =>
        done := true;
      case Arrives(page) =>
        currentUrl := page;
        end, done := Found(page), true;
      case Follows(next) =>
        currentUrl := next;
        redirectCount := redirectCount + 1;
        AppendAssociates(before, [rest.1[0]], Walk(currentUrl, moves, redirectCount).1);
    }
    if !done {
      assert fetched + Walk(currentUrl, moves, redirectCount).1 == fetched;
    }
  }

  lemma AppendAssociates<T>(a: seq<T>, b: seq<T>, c: seq<T>)
    ensures a + (b + c) == (a + b) + c
  {
  }

  /** The short-link step of `runGateway` (Code.js:343-402): the redirect walk,
      then the recipient address appended to the page it found. */
  method ResolveLink(targetUrl: string, replyAddress: Option<string>, responses: seq<Hop>,
                     encode: string -> string)
    returns (finalUrl: string, fetched: seq<string>)
    ensures finalUrl == ResolveShortLink(targetUrl, replyAddress, responses, encode)
    ensures fetched == if Contains(targetUrl, "inreachlink.com") then Walk(targetUrl, Moves(responses), 0).1 else []
  {
    finalUrl, fetched := targetUrl, [];
    if !Contains(targetUrl, "inreachlink.com") {
      return;
    }
    var end;
    end, fetched := FollowRedirects(targetUrl, responses);
    if end.Found? {
      finalUrl := end.url;
      if Truthy(replyAddress) && !Contains(finalUrl, "adr=") {
        finalUrl := finalUrl + "&adr=" + encode(replyAddress.value);
      }
    }
  }

  /** A link that is not a short link is taken as it is, without any fetch. */
  lemma PlainLinkUntouched(targetUrl: string, replyAddress: Option<string>, responses: seq<Hop>, encode: string -> string)
    requires !Contains(targetUrl, "inreachlink.com")
    ensures ResolveShortLink(targetUrl, replyAddress, responses, encode) == targetUrl
  {
  }

  /** The resolved link is the short link itself, or a message page found by the
      walk, with the address appended only to a page without one. */
  lemma ResolvedShape(targetUrl: string, replyAddress: Option<string>, responses: seq<Hop>, encode: string -> string)
    ensures var r := ResolveShortLink(targetUrl, replyAddress, responses, encode);
      r == targetUrl
      || exists location :: (Walk(targetUrl, Moves(responses), 0).0 == Found(location) && IsMessagePage(location)
           && (r == location || (!Contains(location, "adr=") && r == location + "&adr=" + encode(replyAddress.value))))
  {
    if Contains(targetUrl, "inreachlink.com") && Walk(targetUrl, Moves(responses), 0).0.Found? {
      WalkFinds(targetUrl, responses);
    }
  }

  /** A first answer that is no redirect stops the walk after one fetch, keeping
      the short link. */
  lemma NoRedirectKeepsLink(targetUrl: string, replyAddress: Option<string>, responses: seq<Hop>, encode: string -> string)
    requires |responses| > 0 && responses[0].Answer? && !IsRedirect(responses[0])
    ensures ResolveShortLink(targetUrl, replyAddress, responses, encode) == targetUrl
    ensures Walk(targetUrl, Moves(responses), 0).1 == [targetUrl]
  {
  }

  // ---------------------------------------------------------------------------
  // postToGarmin

  const EndpointSuffix: string := "/TextMessage/TxtMsg"

  /** The hidden form values of the message page (`extractGarminFormValues`, which
      is not part of this model). */
  datatype FormValues = FormValues(guid: string, messageId: string, replyAddress: Option<string>)

  /** The form post: its URL, its `Referer` header and its JSON payload. */
  datatype PostRequest = PostRequest(postUrl: string, referer: string, guid: string, replyAddress: string,
                                     messageId: string, replyMessage: string)

  /** The fields of the answer's JSON that decide the verdict, each `=== true`. */
  datatype GarminFlags = GarminFlags(successUpper: bool, successLower: bool, error: bool)

  /** `url.split('&adr=')[0]`: the page without the address this gateway appends. */
  function PageUrl(url: string): (page: string)
    ensures Contains(url, "&adr=") ==> At(url, |page|, "&adr=") && url[..|page|] == page
    ensures !Contains(url, "&adr=") ==> page == url
  {
    BeforeFirst(url, "&adr=")
  }

  predicate IsGuidChar(c: char) {
    ('a' <= c <= 'z') || ('A' <= c <= 'Z') || ('0' <= c <= '9') || c == '-' || c == '_'
  }

  predicate IsHostChar(c: char) {
    c != '/'
  }

  /** `url.match(/https:\/\/[^\/]+/)[0]`: the first `https://` with a host. */
  function Origin(url: string): (r: Option<string>)
    ensures r.Some? ==> StartsWith(r.value, "https://") && |r.value| > 8
  {
    match FirstParam(url, "https://", IsHostChar)
    case Some(host) => Some("https://" + host)
    case None => None
  }

  /** The post `postToGarmin(url, message)` makes, given the page's form values
      (`None` when they could not be read), the time in milliseconds and
      `decodeURIComponent` as `decode` (`None` when it throws); `None` is a return
      of `false` before any post. */
  function PostPlan(url: string, message: string, page: Option<FormValues>, nowMs: nat,
                    decode: string -> Option<string>): (r: Option<PostRequest>)
    ensures r.Some? ==> r.value.replyAddress != "" && r.value.referer == PageUrl(url)
    ensures r.Some? ==> r.value.replyMessage == message
    ensures r.Some? ==> Origin(url).Some? && r.value.postUrl == Origin(url).value + EndpointSuffix
  {
    var extId := FirstParam(url, "extId=", IsGuidChar);
    var adr := FirstParam(url, "adr=", IsValueChar);
    var form :=
      if page.Some? then page
      else if extId.None? || adr.None? then None
      else match decode(adr.value)
        case None => None
        case Some(address) => Some(FormValues(extId.value, NatToString(nowMs / 1000), Some(address)));
    if form.None? then None
    else
      var replyAddress :=
        if Truthy(form.value.replyAddress) then form.value.replyAddress
        else if adr.Some? then decode(adr.value)
        else None;
      if !Truthy(replyAddress) || Origin(url).None? then None
      else Some(PostRequest(Origin(url).value + EndpointSuffix, PageUrl(url), form.value.guid, replyAddress.value,
                            form.value.messageId, message))
  }

  /** Whether the answer to the post counts as delivered: status 200, and then a
      body that is no JSON, or JSON with `Success` or `success` true, or without
      `error` true. */
  predicate Accepted(reply: Reply<GarminFlags>) {
    match reply
    case Threw(_) => false
    case Replied(code, body) =>
      code == 200 && match body
        case Malformed(_) => true
        case Parsed(flags) => flags.successUpper || flags.successLower || !flags.error
  }

  /** `postToGarmin(url, message)`, with `scrape` as `extractGarminFormValues` and
      `post` as the form post; `sent` is the post made, if any. */
  method PostToGarmin(simulate: bool, url: string, message: string, scrape: string -> Option<FormValues>,
                      nowMs: nat, decode: string -> Option<string>, post: PostRequest -> Reply<GarminFlags>)
    returns (delivered: bool, sent: Option<PostRequest>)
    ensures simulate ==> delivered && sent.None?
    ensures !simulate ==> sent == PostPlan(url, message, scrape(PageUrl(url)), nowMs, decode)
    ensures !simulate ==> delivered == (sent.Some? && Accepted(post(sent.value)))
  {
    if simulate {
      return true, None;
    }
    var pageUrl := PageUrl(url);
    var request := PostPlan(url, message, scrape(pageUrl), nowMs, decode);
    if request.None? {
      return false, None;
    }
    sent := request;
    var response := post(request.value);
    match response
    case Threw(_) =>
      delivered := false;
    case Replied(code, body) =>
      if code != 200 {
        delivered := false;
      } else {
        match body
        case Malformed(_) =>
          delivered := true;
        case Parsed(responseJson) =>
          if responseJson.successUpper || responseJson.successLower {
            delivered := true;
          } else if responseJson.error {
            delivered := false;
          } else {
            delivered := true;
          }
      }
  }

  /** The page's own reply address is used when it has one; without readable form
      values the post needs `extId=` and `adr=` in the link. */
  lemma PlanSources(url: string, message: string, page: Option<FormValues>, nowMs: nat, decode: string -> Option<string>)
    ensures page.Some? && Truthy(page.value.replyAddress) && Origin(url).Some? ==>
      PostPlan(url, message, page, nowMs, decode)
        == Some(PostRequest(Origin(url).value + EndpointSuffix, PageUrl(url), page.value.guid,
                            page.value.replyAddress.value, page.value.messageId, message))
    ensures page.None? && (FirstParam(url, "extId=", IsGuidChar).None? || FirstParam(url, "adr=", IsValueChar).None?) ==>
      PostPlan(url, message, page, nowMs, decode).None?
    ensures Origin(url).None? ==> PostPlan(url, message, page, nowMs, decode).None?
  {
  }

  /** What the walk appends, the post reads back: on a page with no `adr=`, the
      page URL drops the appended address again and the `adr=` parameter is the
      encoded address. */
  lemma AdrRoundTrip(location: string, encoded: string)
    requires !Contains(location, "adr=")
    requires encoded != [] && forall i :: 0 <= i < |encoded| ==> IsValueChar(encoded[i])
    ensures PageUrl(location + "&adr=" + encoded) == location
    ensures FirstParam(location + "&adr=" + encoded, "adr=", IsValueChar) == Some(encoded)
  {
    var url := location + "&adr=" + encoded;
    var n := |location|;
    assert url[n..n + 5] == "&adr=";
    forall j | 0 <= j < n
      ensures !At(url, j, "&adr=")
    {
      NoEarlyAmpAdr(location, encoded, j);
    }
    assert At(url, n, "&adr=");
    assert Contains(url, "&adr=");
    assert IndexOf(url, "&adr=") == n;
    assert url[..n] == location;
    FirstAdr(location, encoded);
  }

  /** No `&adr=` of the extended link starts inside `location`. */
  lemma NoEarlyAmpAdr(location: string, encoded: string, j: nat)
    requires !Contains(location, "adr=")
    requires j < |location|
    ensures !At(location + "&adr=" + encoded, j, "&adr=")
  {
    var url := location + "&adr=" + encoded;
    var n := |location|;
    if j + 5 <= n {
      assert !At(location, j + 1, "adr=");
      assert url[j..j + 5][1..] == location[j + 1..j + 5];
    } else if j + 5 <= |url| {
      assert url[j..j + 5][n - j] == '&';
      assert "&adr="[n - j] != '&';
    }
  }

  /** No `adr=` of the extended link starts before the appended one. */
  lemma NoEarlyAdr(location: string, encoded: string, j: nat)
    requires !Contains(location, "adr=")
    requires j <= |location|
    ensures !At(location + "&adr=" + encoded, j, "adr=")
  {
    var url := location + "&adr=" + encoded;
    var n := |location|;
    if j + 4 <= n {
      assert !At(location, j, "adr=");
      assert url[j..j + 4] == location[j..j + 4];
    } else if j + 4 <= |url| {
      assert url[j..j + 4][n - j] == '&';
      assert "adr="[n - j] != '&';
    }
  }

  lemma {:induction false} RunToEnd(url: string, k: nat, encoded: string)
    requires k <= |url| && url[k..] == encoded
    requires forall i :: 0 <= i < |encoded| ==> IsValueChar(encoded[i])
    ensures RunWhile(url, k, IsValueChar) == |url| - k
    decreases |url| - k
  {
    if k < |url| {
      assert url[k] == encoded[0];
      assert url[k + 1..] == encoded[1..];
      RunToEnd(url, k + 1, encoded[1..]);
    }
  }

  /** The first `adr=` of the extended link is the appended one. */
  lemma FirstAdr(location: string, encoded: string)
    requires !Contains(location, "adr=")
    requires encoded != [] && forall i :: 0 <= i < |encoded| ==> IsValueChar(encoded[i])
    ensures FirstParam(location + "&adr=" + encoded, "adr=", IsValueChar) == Some(encoded)
  {
    var url := location + "&adr=" + encoded;
    var k := |location| + 5;
    assert url[k..] == encoded;
    RunToEnd(url, k, encoded);
    assert url[k - 4..k] == "adr=";
    assert ParamAt(url, k - 4, "adr=", IsValueChar);
    NoEarlyParam(location, encoded);
    ParamFromFirst(url, "adr=", 0, k - 4, IsValueChar);
    assert k - 4 + |"adr="| == k;
    assert url[k..k + RunWhile(url, k, IsValueChar)] == encoded;
    assert ParamFrom(url, "adr=", 0, IsValueChar) == Some(encoded);
    assert FirstParam(url, "adr=", IsValueChar) == ParamFrom(url, "adr=", 0, IsValueChar);
  }

  /** No `adr=` match of the extended link starts before the appended one. */
  lemma NoEarlyParam(location: string, encoded: string)
    requires !Contains(location, "adr=")
    ensures forall j :: 0 <= j < |location| + 1 ==> !ParamAt(location + "&adr=" + encoded, j, "adr=", IsValueChar)
  {
    forall j | 0 <= j < |location| + 1
      ensures !ParamAt(location + "&adr=" + encoded, j, "adr=", IsValueChar)
    {
      NoEarlyAdr(location, encoded, j);
    }
  }
}
