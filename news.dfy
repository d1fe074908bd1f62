/** NewsTool.gs.js: the headline list built from the items of an RSS feed. */
module News {
  import opened Wrappers
  import opened Text
  import opened ToolResults

  const DefaultRssUrl: string := "https://news.google.com/rss"
  const DefaultMaxHeadlines: int := 5
  const MaxTitleLength: nat := 80
  const SourceSeparator: string := " - "

  /** `NewsConfig(rssUrl, maxHeadlines)` after its defaults; "" and 0 stand for
      falsy arguments. */
  datatype Config = Config(rssUrl: string, maxHeadlines: int)

  function MakeConfig(rssUrl: string, maxHeadlines: int): (c: Config)
    ensures c.rssUrl != "" && c.maxHeadlines != 0
    ensures rssUrl != "" ==> c.rssUrl == rssUrl
    ensures maxHeadlines != 0 ==> c.maxHeadlines == maxHeadlines
  {
    Config(if rssUrl == "" then DefaultRssUrl else rssUrl,
           if maxHeadlines == 0 then DefaultMaxHeadlines else maxHeadlines)
  }

  /** The parsed feed: the `title` texts of the channel's items, in feed order ("" for
      an item without a title), or `None` when the root has no `channel`. */
  datatype Feed = Feed(channel: Option<seq<string>>)

  /** A title without its trailing " - Source" (cut at the last separator, when that
      is not at index 0), then shortened to 77 characters plus "..." when longer
      than 80. */
  function CleanTitle(title: string): (r: string)
    ensures |r| <= MaxTitleLength
  {
    var dashIdx := LastIndexOf(title, SourceSeparator);
    var cut := if dashIdx > 0 then title[..dashIdx] else title;
    if |cut| > 80 then Take(cut, 77) + "..." else cut
  }

  /** What the cleanup keeps: the title up to its last separator (or all of it), and
      of that at most 77 characters followed by "..." when it is over 80. */
  lemma CleanTitleShape(title: string)
    ensures var dashIdx := LastIndexOf(title, SourceSeparator);
      var cut := if dashIdx > 0 then title[..dashIdx] else title;
      (dashIdx > 0 ==> At(title, dashIdx, SourceSeparator) && !Contains(title[dashIdx + 1..], SourceSeparator))
      && (|cut| <= 80 ==> CleanTitle(title) == cut)
      && (|cut| > 80 ==> |CleanTitle(title)| == 80 && CleanTitle(title) == cut[..77] + "...")
  {
    var dashIdx := LastIndexOf(title, SourceSeparator);
    if dashIdx > 0 {
      var rest := title[dashIdx + 1..];
      forall i | 0 <= i <= |rest| ensures !At(rest, i, SourceSeparator) {
        if At(rest, i, SourceSeparator) {
          assert title[dashIdx + 1 + i..dashIdx + 1 + i + 3] == rest[i..i + 3];
          assert At(title, dashIdx + 1 + i, SourceSeparator);
        }
      }
    }
  }

  /** A title that holds no separator after its first character and is at most 80
      long is kept as it is. */
  lemma CleanTitleKeepsPlain(title: string)
    requires |title| <= 80
    requires forall i :: 0 < i <= |title| ==> !At(title, i, SourceSeparator)
    ensures CleanTitle(title) == title
  {
  }

  /** The bullet of NewsTool.gs.js:91 as the file stores it: the three characters
      that the UTF-8 bytes of U+2022 read as Windows-1252, then a space. */
  const BulletAsWritten: string := "â€¢ "

  /** The bullet the news tests look for. */
  const Bullet: string := "• "

  function HeadlineAsWritten(title: string): string {
    BulletAsWritten + CleanTitle(title)
  }

  /** A headline as written does not hold the bullet character. */
  lemma HeadlineAsWrittenLacksBullet(title: string)
    requires forall i :: 0 <= i < |title| ==> title[i] != '•'
    ensures forall i :: 0 <= i < |HeadlineAsWritten(title)| ==> HeadlineAsWritten(title)[i] != '•'
  {
    var t := CleanTitle(title);
    assert forall i :: 0 <= i < |t| ==> t[i] != '•' by {
      CleanTitleFrom(title);
    }
  }

  /** Every character of a cleaned title comes from the title or from "...". */
  lemma CleanTitleFrom(title: string)
    ensures forall i :: 0 <= i < |CleanTitle(title)| ==> CleanTitle(title)[i] in title || CleanTitle(title)[i] == '.'
  {
    var dashIdx := LastIndexOf(title, SourceSeparator);
    var cut := if dashIdx > 0 then title[..dashIdx] else title;
    assert forall i :: 0 <= i < |cut| ==> cut[i] == title[i];
  }

  /** One line of the list: the bullet and the cleaned title. */
  function Headline(title: string): (line: string)
    ensures |line| >= 2 && line[..2] == Bullet && line[0] == '•' && |line| <= MaxTitleLength + 2
  {
    Bullet + CleanTitle(title)
  }

  /** The lines for the first `max` titles, in feed order. */
  function Headlines(titles: seq<string>, max: int): (lines: seq<string>)
    ensures |lines| == if max <= 0 then 0 else if max < |titles| then max else |titles|
    ensures forall i :: 0 <= i < |lines| ==> lines[i] == Headline(titles[i])
  {
    var n := if max <= 0 then 0 else if max < |titles| then max else |titles|;
    seq(n, i requires 0 <= i < n => Headline(titles[i]))
  }

  /** `fetch()` once the feed is answered. */
  method FetchHeadlines(config: Config, reply: Reply<Feed>) returns (result: ToolResult)
    ensures WellFormed(result)
    ensures reply.Threw? ==> result == Fail(ExceptionError(reply.message))
    ensures reply.Replied? && reply.code != 200 ==> result == Fail(HttpError(reply.code))
    ensures reply.Replied? && reply.code == 200 && reply.body.Malformed? ==>
      result == Fail(ExceptionError(reply.body.message))
    ensures reply.Replied? && reply.code == 200 && reply.body.Parsed? && reply.body.value.channel.None? ==>
      result == Fail("INVALID_RSS")
    ensures reply.Replied? && reply.code == 200 && reply.body.Parsed? && reply.body.value.channel.Some? ==>
      var lines := Headlines(reply.body.value.channel.value, config.maxHeadlines);
      result == if lines == [] then Fail("NO_HEADLINES") else Ok(Join(lines, "\n"))
  {
    match reply
    case Threw(message) =>
      return Fail(ExceptionError(message));
    case Replied(code, body) =>
      if code != 200 {
        return Fail(HttpError(code));
      }
      match body
      case Malformed(message) =>
        return Fail(ExceptionError(message));
      case Parsed(feed) =>
        if feed.channel.None? {
          return Fail("INVALID_RSS");
        }
        var items := feed.channel.value;
        var n := if config.maxHeadlines < |items| then config.maxHeadlines else |items|;
        var headlines: seq<string> := [];
        var i := 0;
        while i < n
          invariant 0 <= i <= if n < 0 then 0 else n
          invariant headlines == Headlines(items, config.maxHeadlines)[..i]
        {
          var title := items[i];
          var dashIdx := LastIndexOf(title, SourceSeparator);
          if dashIdx > 0 {
            title := title[..dashIdx];
          }
          if |title| > 80 {
            title := Take(title, 77) + "...";
          }
          assert Bullet + title == Headline(items[i]);
          assert Headlines(items, config.maxHeadlines)[..i + 1]
            == Headlines(items, config.maxHeadlines)[..i] + [Headline(items[i])];
          headlines := headlines + [Bullet + title];
          i := i + 1;
        }
        assert headlines == Headlines(items, config.maxHeadlines);
        if |headlines| == 0 {
          return Fail("NO_HEADLINES");
        }
        return Ok(Join(headlines, "\n"));
  }

  /** An empty title still makes a line: a bullet alone. */
  lemma EmptyTitleMakesLine(titles: seq<string>, max: int)
    requires max > 0 && |titles| > 0 && titles[0] == ""
    ensures Headlines(titles, max)[0] == Bullet
  {
  }
}
