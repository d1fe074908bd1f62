/** The pagination engine of Code.js: `findSplitPoint`, `splitForPaging` and
    `paginateAndSend`. A reply longer than one Garmin message is cut into at
    most ten numbered pages of the form `"i/total " + chunk`. */
module Paging {
  import opened Wrappers
  import opened Text

  /** The longest text one Garmin message carries safely. */
  const GarminSafeMax: nat := 155
  /** The chunk budget used for splitting, leaving room for the `"i/total "` prefix. */
  const ChunkPayload: nat := 149
  const MaxPages: nat := 10
  /** Appended to the last kept page when pages were dropped. */
  const TruncationMarker: string := " [...]"

  // ---------------------------------------------------------------------------
  // The regular expressions /.*[.!?](?=\s|$)/ and /.*[.!?]/, first match

  /** Index `q` holds `.`, `!` or `?`; with the lookahead `(?=\s|$)` it must also be
      followed by white space or by the end of the input. */
  predicate SentenceEnd(s: string, q: nat, lookahead: bool)
    requires q < |s|
  {
    (s[q] == '.' || s[q] == '!' || s[q] == '?')
    && (!lookahead || q + 1 == |s| || IsSpace(s[q + 1]))
  }

  /** The first line terminator at or after `p`, or the end of `s`. */
  function LineEnd(s: string, p: nat): (e: nat)
    requires p <= |s|
    decreases |s| - p
    ensures p <= e <= |s|
    ensures e == |s| || IsLineTerminator(s[e])
    ensures forall i :: p <= i < e ==> !IsLineTerminator(s[i])
  {
    if p == |s| || IsLineTerminator(s[p]) then p else LineEnd(s, p + 1)
  }

  /** The last sentence end in `lo..hi`, if any. */
  function LastSentenceEnd(s: string, lo: nat, hi: nat, lookahead: bool): (r: Option<nat>)
    requires lo <= hi <= |s|
    decreases hi - lo
    ensures r.Some? ==> lo <= r.value < hi && SentenceEnd(s, r.value, lookahead)
    ensures r.Some? ==> forall q :: r.value < q < hi ==> !SentenceEnd(s, q, lookahead)
    ensures r.None? ==> forall q :: lo <= q < hi ==> !SentenceEnd(s, q, lookahead)
  {
    if lo == hi then None
    else if SentenceEnd(s, hi - 1, lookahead) then Some(hi - 1)
    else LastSentenceEnd(s, lo, hi - 1, lookahead)
  }

  /** What `s.match(re)` finds when the search starts at `p`, as the match's start and
      length. `.` stops at line terminators, so the match is the greedy run from the
      first line (from `p` on) that holds a sentence end, to that line's last one. */
  function SentenceMatchFrom(s: string, p: nat, lookahead: bool): (r: Option<(nat, nat)>)
    requires p <= |s|
    decreases |s| - p
    ensures r.Some? ==> p <= r.value.0 && 0 < r.value.1 && r.value.0 + r.value.1 <= |s|
  {
    if p == |s| then None
    else
      var e := LineEnd(s, p);
      var last := LastSentenceEnd(s, p, e, lookahead);
      if last.Some? then Some((p, last.value - p + 1))
      else if e == |s| then None
      else SentenceMatchFrom(s, e + 1, lookahead)
  }

  /** No sentence end in `lo..hi`. */
  predicate NoSentenceEnd(s: string, lo: nat, hi: nat, lookahead: bool)
    requires hi <= |s|
  {
    forall q :: lo <= q < hi ==> !SentenceEnd(s, q, lookahead)
  }

  lemma NoSentenceEndJoin(s: string, lo: nat, mid: nat, hi: nat, lookahead: bool)
    requires lo <= mid <= hi <= |s|
    requires NoSentenceEnd(s, lo, mid, lookahead) && NoSentenceEnd(s, mid, hi, lookahead)
    ensures NoSentenceEnd(s, lo, hi, lookahead)
  {
  }

  /** `st, len` is the first match of the sentence pattern when the search starts at
      `p`: it ends in a sentence end, it lies within one line and starts that line (or
      at `p`), no earlier position holds a sentence end, and the match is greedy: no
      later sentence end lies on the same line. */
  predicate IsSentenceMatch(s: string, p: nat, st: nat, len: nat, lookahead: bool) {
    p <= st && 0 < len && st + len <= |s| && SentenceEnd(s, st + len - 1, lookahead)
    && (st == p || IsLineTerminator(s[st - 1]))
    && (forall i :: st <= i < st + len ==> !IsLineTerminator(s[i]))
    && NoSentenceEnd(s, p, st, lookahead)
    && NoSentenceEnd(s, st + len, LineEnd(s, st), lookahead)
  }

  /** The search from `p` finds the leftmost, greedy, single-line match, and finds
      none exactly when no position from `p` on holds a sentence end. */
  predicate SearchFinds(s: string, p: nat, lookahead: bool)
    requires p <= |s|
  {
    var r := SentenceMatchFrom(s, p, lookahead);
    (r.Some? ==> IsSentenceMatch(s, p, r.value.0, r.value.1, lookahead))
    && (r.None? <==> NoSentenceEnd(s, p, |s|, lookahead))
  }

  /** The search is right from every starting point. */
  lemma {:induction false} SentenceMatchFromSpec(s: string, p: nat, lookahead: bool)
    requires p <= |s|
    decreases |s| - p
    ensures SearchFinds(s, p, lookahead)
  {
    if p < |s| {
      var e := LineEnd(s, p);
      if LastSentenceEnd(s, p, e, lookahead).Some? {
        SentenceOnLine(s, p, lookahead);
      } else if e < |s| {
        SentenceMatchFromSpec(s, e + 1, lookahead);
        SentencePastLine(s, p, lookahead);
      } else {
        assert SentenceMatchFrom(s, p, lookahead).None?;
      }
    }
  }

  /** A line that holds a sentence end yields the match from `p` to its last one. */
  lemma SentenceOnLine(s: string, p: nat, lookahead: bool)
    requires p < |s| && LastSentenceEnd(s, p, LineEnd(s, p), lookahead).Some?
    ensures SearchFinds(s, p, lookahead)
  {
    var e := LineEnd(s, p);
    var q := LastSentenceEnd(s, p, e, lookahead).value;
    assert SentenceMatchFrom(s, p, lookahead) == Some((p, q - p + 1));
    assert p + (q - p + 1) - 1 == q;
    assert IsSentenceMatch(s, p, p, q - p + 1, lookahead);
    assert !NoSentenceEnd(s, p, |s|, lookahead) by {
      assert SentenceEnd(s, q, lookahead);
    }
  }

  /** A line without a sentence end is passed over, together with its terminator. */
  lemma SentencePastLine(s: string, p: nat, lookahead: bool)
    requires p < |s| && LineEnd(s, p) < |s|
    requires LastSentenceEnd(s, p, LineEnd(s, p), lookahead).None?
    requires SearchFinds(s, LineEnd(s, p) + 1, lookahead)
    ensures SearchFinds(s, p, lookahead)
  {
    var e := LineEnd(s, p);
    assert NoSentenceEnd(s, p, e, lookahead);
    assert NoSentenceEnd(s, e, e + 1, lookahead) by { assert IsLineTerminator(s[e]); }
    NoSentenceEndJoin(s, p, e, e + 1, lookahead);
    var r := SentenceMatchFrom(s, e + 1, lookahead);
    assert SentenceMatchFrom(s, p, lookahead) == r;
    if r.Some? {
      NoSentenceEndJoin(s, p, e + 1, r.value.0, lookahead);
    } else {
      NoSentenceEndJoin(s, p, e + 1, |s|, lookahead);
    }
  }

  /** `s.match(re)`: the whole-input search. */
  function SentenceMatch(s: string, lookahead: bool): (r: Option<(nat, nat)>)
    ensures r.Some? ==> 0 < r.value.1 && r.value.0 + r.value.1 <= |s|
  {
    SentenceMatchFrom(s, 0, lookahead)
  }

  // ---------------------------------------------------------------------------
  // findSplitPoint

  /** `findSplitPoint(text, limit)`: where to cut the front of `text`, looking only at
      its first `limit` characters and preferring, in turn, the length of the sentence
      match, the character after the last ", " / "; " / ": ", the last space, each
      only when past half the limit, and else a hard cut at `limit`. */
  function FindSplitPoint(text: string, limit: nat): (sp: nat)
    ensures sp <= limit
    ensures limit > 0 ==> limit < 2 * sp
  {
    var searchRange := Take(text, limit);
    var sentence := SentenceMatch(searchRange, true);
    if sentence.Some? && 2 * sentence.value.1 > limit then
      sentence.value.1
    else
      var clauseIdx := Max3(LastIndexOf(searchRange, ", "), LastIndexOf(searchRange, "; "),
                            LastIndexOf(searchRange, ": "));
      if 2 * clauseIdx > limit then
        clauseIdx + 1
      else
        var spaceIdx := LastIndexOf(searchRange, " ");
        if 2 * spaceIdx > limit then spaceIdx else limit
  }

  function Max3(a: int, b: int, c: int): (m: int)
    ensures m == a || m == b || m == c
    ensures a <= m && b <= m && c <= m
  {
    if a >= b && a >= c then a else if b >= c then b else c
  }

  // ---------------------------------------------------------------------------
  // splitForPaging

  /** The chunks `splitForPaging` produces from an already trimmed remainder. */
  function ChunksOf(remaining: string, maxChunkLen: nat): seq<string>
    requires maxChunkLen > 0
    decreases |remaining|
  {
    if |remaining| > maxChunkLen then
      var sp := FindSplitPoint(remaining, maxChunkLen);
      [Trim(remaining[..sp])] + ChunksOf(Trim(remaining[sp..]), maxChunkLen)
    else if |remaining| > 0 then [remaining]
    else []
  }

  /** `splitForPaging(text, maxChunkLen)`, as a function of its inputs. */
  function SplitSpec(text: string, maxChunkLen: nat): seq<string>
    requires maxChunkLen > 0
  {
    ChunksOf(Trim(text), maxChunkLen)
  }

  function Concat(parts: seq<string>): string {
    if parts == [] then "" else parts[0] + Concat(parts[1..])
  }

  /** `splitForPaging`: cut the trimmed text at `findSplitPoint` until what remains
      fits, trimming every piece. A `maxChunkLen` of 0 makes the source loop forever
      (the split point is then 0), so it is excluded. */
  method SplitForPaging(text: string, maxChunkLen: nat) returns (chunks: seq<string>)
    requires maxChunkLen > 0
    ensures chunks == SplitSpec(text, maxChunkLen)
  {
    chunks := [];
    var remaining := Trim(text);
    ghost var whole := ChunksOf(remaining, maxChunkLen);
    assert whole == SplitSpec(text, maxChunkLen);
    assert chunks + whole == whole;
    while |remaining| > maxChunkLen
      invariant chunks + ChunksOf(remaining, maxChunkLen) == whole
      decreases |remaining|
    {
      var piece, rest := CutFront(remaining, maxChunkLen);
      ChunkStep(chunks, piece, remaining, rest, maxChunkLen, whole);
      chunks := chunks + [piece];
      remaining := rest;
    }
    LastChunk(chunks, remaining, maxChunkLen, whole);
    if |remaining| > 0 {
      chunks := chunks + [remaining];
    }
  }

  /** The loop invariant of `splitForPaging` survives one cut. */
  lemma ChunkStep(chunks: seq<string>, piece: string, remaining: string, rest: string, maxChunkLen: nat,
                  whole: seq<string>)
    requires maxChunkLen > 0
    requires ChunksOf(remaining, maxChunkLen) == [piece] + ChunksOf(rest, maxChunkLen)
    requires chunks + ChunksOf(remaining, maxChunkLen) == whole
    ensures (chunks + [piece]) + ChunksOf(rest, maxChunkLen) == whole
  {
    SeqAssoc(chunks, piece, ChunksOf(rest, maxChunkLen));
  }

  /** What is left once the loop of `splitForPaging` ends is the last chunk, if any. */
  lemma LastChunk(chunks: seq<string>, remaining: string, maxChunkLen: nat, whole: seq<string>)
    requires 0 < maxChunkLen && |remaining| <= maxChunkLen
    requires chunks + ChunksOf(remaining, maxChunkLen) == whole
    ensures (if |remaining| > 0 then chunks + [remaining] else chunks) == whole
  {
    ChunksOfShort(remaining, maxChunkLen);
    assert chunks + [] == chunks;
  }

  /** One round of the loop in `splitForPaging`: the trimmed piece before the split
      point and the trimmed rest after it. */
  method CutFront(remaining: string, maxChunkLen: nat) returns (piece: string, rest: string)
    requires 0 < maxChunkLen < |remaining|
    ensures ChunksOf(remaining, maxChunkLen) == [piece] + ChunksOf(rest, maxChunkLen)
    ensures |rest| < |remaining|
  {
    var splitPoint := FindSplitPoint(remaining, maxChunkLen);
    piece := Trim(remaining[..splitPoint]);
    rest := Trim(remaining[splitPoint..]);
    ChunksOfStep(remaining, maxChunkLen);
  }

  lemma ChunksOfShort(remaining: string, maxChunkLen: nat)
    requires 0 < maxChunkLen && |remaining| <= maxChunkLen
    ensures ChunksOf(remaining, maxChunkLen) == if |remaining| > 0 then [remaining] else []
  {
  }

  lemma SeqAssoc<T>(a: seq<T>, x: T, b: seq<T>)
    ensures a + ([x] + b) == (a + [x]) + b
  {
  }

  /** A chunk as `splitForPaging` promises it: non-empty, trimmed, within budget. */
  predicate InBudget(chunk: string, maxChunkLen: nat) {
    0 < |chunk| <= maxChunkLen && IsTrimmed(chunk)
  }

  /** One unfolding of `ChunksOf` on a remainder that is too long. */
  lemma ChunksOfStep(remaining: string, maxChunkLen: nat)
    requires 0 < maxChunkLen < |remaining|
    ensures var sp := FindSplitPoint(remaining, maxChunkLen);
      ChunksOf(remaining, maxChunkLen)
        == [Trim(remaining[..sp])] + ChunksOf(Trim(remaining[sp..]), maxChunkLen)
  {
  }

  lemma ConcatCons(x: string, xs: seq<string>)
    ensures Concat([x] + xs) == x + Concat(xs)
  {
    assert ([x] + xs)[1..] == xs;
  }

  /** Every chunk of a trimmed remainder is non-empty, trimmed and at most
      `maxChunkLen` long. */
  lemma {:induction false} ChunksOfInBudget(remaining: string, maxChunkLen: nat)
    requires maxChunkLen > 0
    requires IsTrimmed(remaining)
    ensures forall c <- ChunksOf(remaining, maxChunkLen) :: InBudget(c, maxChunkLen)
    decreases |remaining|
  {
    if |remaining| > maxChunkLen {
      var sp := FindSplitPoint(remaining, maxChunkLen);
      var head := remaining[..sp];
      TrimKeepsFirst(head);
      assert InBudget(Trim(head), maxChunkLen);
      ChunksOfStep(remaining, maxChunkLen);
      ChunksOfInBudget(Trim(remaining[sp..]), maxChunkLen);
    }
  }

  /** Apart from white space, the chunks put together are exactly the remainder. */
  lemma {:induction false} ChunksOfSqueeze(remaining: string, maxChunkLen: nat)
    requires maxChunkLen > 0
    ensures Squeeze(Concat(ChunksOf(remaining, maxChunkLen))) == Squeeze(remaining)
    decreases |remaining|
  {
    if |remaining| > maxChunkLen {
      var sp := FindSplitPoint(remaining, maxChunkLen);
      var head, tail := remaining[..sp], remaining[sp..];
      var piece, rest := Trim(head), Trim(tail);
      var restChunks := ChunksOf(rest, maxChunkLen);
      ChunksOfStep(remaining, maxChunkLen);
      ChunksOfSqueeze(rest, maxChunkLen);
      ConcatCons(piece, restChunks);
      SqueezeAppend(piece, Concat(restChunks));
      SqueezeTrim(head);
      SqueezeTrim(tail);
      SqueezeSplit(remaining, sp);
    } else if |remaining| > 0 {
      ConcatCons(remaining, []);
      assert remaining + "" == remaining;
    }
  }

  /** `splitForPaging` loses nothing but white space and keeps every chunk in budget. */
  lemma SplitProperties(text: string, maxChunkLen: nat)
    requires maxChunkLen > 0
    ensures forall c <- SplitSpec(text, maxChunkLen) :: InBudget(c, maxChunkLen)
    ensures Squeeze(Concat(SplitSpec(text, maxChunkLen))) == Squeeze(text)
  {
    ChunksOfInBudget(Trim(text), maxChunkLen);
    ChunksOfSqueeze(Trim(text), maxChunkLen);
    SqueezeTrim(text);
  }

  // ---------------------------------------------------------------------------
  // paginateAndSend

  /** The chunks that are sent: at most `MaxPages`; when chunks were dropped, the
      marker goes on the last one kept if it is shorter than `ChunkPayload - 5`. */
  function Cap(chunks: seq<string>): seq<string> {
    if |chunks| > MaxPages then
      var kept := chunks[..MaxPages];
      var last := kept[MaxPages - 1];
      if |last| < ChunkPayload - 5 then kept[..MaxPages - 1] + [last + TruncationMarker] else kept
    else chunks
  }

  function PageChunks(text: string): seq<string> {
    Cap(SplitSpec(text, ChunkPayload))
  }

  /** `"i/total "`. */
  function PagePrefix(index: nat, total: nat): string {
    NatToString(index) + "/" + NatToString(total) + " "
  }

  /** Each chunk with its `"i/total "` prefix, numbered from 1. */
  function Numbered(chunks: seq<string>): (pages: seq<string>)
    ensures |pages| == |chunks|
  {
    seq(|chunks|, i requires 0 <= i < |chunks| => PagePrefix(i + 1, |chunks|) + chunks[i])
  }

  /** The payloads of the paging branch, in the order they are posted. */
  function Pages(text: string): seq<string> {
    Numbered(PageChunks(text))
  }

  /** Capping keeps at most ten chunks and keeps them within the chunk budget. */
  lemma CapInBudget(chunks: seq<string>)
    requires forall c <- chunks :: InBudget(c, ChunkPayload)
    ensures |Cap(chunks)| <= MaxPages
    ensures forall c <- Cap(chunks) :: 0 < |c| <= ChunkPayload
  {
    if |chunks| > MaxPages {
      var kept := chunks[..MaxPages];
      assert forall c <- kept :: c in chunks;
      var last := kept[MaxPages - 1];
      if |last| < ChunkPayload - 5 {
        var capped := kept[..MaxPages - 1] + [last + TruncationMarker];
        assert Cap(chunks) == capped;
        assert forall c <- capped :: c in chunks || c == last + TruncationMarker;
      }
    }
  }

  lemma PageChunksInBudget(text: string)
    ensures |PageChunks(text)| <= MaxPages
    ensures forall c <- PageChunks(text) :: 0 < |c| <= ChunkPayload
  {
    SplitProperties(text, ChunkPayload);
    CapInBudget(SplitSpec(text, ChunkPayload));
  }

  /** `"i/total "` takes at most six characters when both numbers are at most ten. */
  lemma PagePrefixLength(index: nat, total: nat)
    requires index <= MaxPages && total <= MaxPages
    ensures |PagePrefix(index, total)| <= GarminSafeMax - ChunkPayload
  {
  }

  /** At most ten pages, each of which fits one Garmin message. */
  lemma PagesFit(text: string)
    ensures |Pages(text)| <= MaxPages
    ensures forall page <- Pages(text) :: |page| <= GarminSafeMax
  {
    var chunks := PageChunks(text);
    var pages := Pages(text);
    PageChunksInBudget(text);
    forall page | page in pages
      ensures |page| <= GarminSafeMax
    {
      var i :| 0 <= i < |pages| && pages[i] == page;
      assert chunks[i] in chunks;
      PagePrefixLength(i + 1, |chunks|);
    }
  }

  /** With at most ten chunks nothing is dropped or marked: apart from white space the
      pages' chunks are the whole text. */
  lemma PagesKeepShortText(text: string)
    requires |SplitSpec(text, ChunkPayload)| <= MaxPages
    ensures PageChunks(text) == SplitSpec(text, ChunkPayload)
    ensures Squeeze(Concat(PageChunks(text))) == Squeeze(text)
  {
    SplitProperties(text, ChunkPayload);
  }

  /** The marker appears only when chunks were dropped and the last kept one is short. */
  lemma MarkerOnlyWhenDropped(text: string)
    ensures var chunks := SplitSpec(text, ChunkPayload);
      PageChunks(text) != chunks[..if |chunks| > MaxPages then MaxPages else |chunks|]
      <==> |chunks| > MaxPages && |chunks[MaxPages - 1]| < ChunkPayload - 5
  {
    var chunks := SplitSpec(text, ChunkPayload);
    if |chunks| > MaxPages && |chunks[MaxPages - 1]| < ChunkPayload - 5 {
      var pc := PageChunks(text);
      assert |pc[MaxPages - 1]| == |chunks[MaxPages - 1]| + 6;
    }
  }

  datatype SendResult = SendResult(success: bool, reason: Option<string>, pages: nat, chars: nat)

  /** What posting `pages` in order, stopping at the first failed post, leaves behind:
      `posted` is the pages posted so far, every post but the last one succeeded, and
      the call succeeds exactly when every page went out; otherwise the reason names
      the page, counted from 1, whose post failed. */
  predicate PostedInOrder(pages: seq<string>, delivered: nat -> bool, posted: seq<string>, result: SendResult) {
    |posted| <= |pages| && posted == pages[..|posted|]
    && (forall k :: 0 <= k < |posted| - 1 ==> delivered(k))
    && (result.success <==> |posted| == |pages| && forall k :: 0 <= k < |pages| ==> delivered(k))
    && (result.success ==> result.reason == None)
    && (!result.success ==>
          0 < |posted| && !delivered(|posted| - 1)
          && result.reason == Some("CHUNK_" + NatToString(|posted|) + "_FAILED"))
  }

  /** The cap of `paginateAndSend` applied to the chunk list in place: keep the first
      `MaxPages` and mark the last one kept when it is short enough. */
  method CapChunks(chunks: seq<string>) returns (capped: seq<string>)
    ensures capped == Cap(chunks)
  {
    capped := chunks;
    if |capped| > MaxPages {
      capped := capped[..MaxPages];
      var lastIdx := |capped| - 1;
      if |capped[lastIdx]| < ChunkPayload - 5 {
        capped := capped[lastIdx := capped[lastIdx] + TruncationMarker];
      }
    }
  }

  /** `paginateAndSend(url, text)`. `delivered(k)` is the outcome of the k-th post to
      Garmin made by this call; `posted` lists what was posted, in order. Text that
      fits one message goes out as it is; otherwise the pages go out in order 1..total,
      stopping at the first failed post. */
  method PaginateAndSend(text: string, delivered: nat -> bool) returns (result: SendResult, posted: seq<string>)
    ensures |text| <= GarminSafeMax ==>
      posted == [text]
      && result == SendResult(delivered(0), if delivered(0) then None else Some("SEND_FAILED"), 1, |text|)
    ensures |text| > GarminSafeMax ==>
      result.pages == |Pages(text)| && result.chars == |text|
      && PostedInOrder(Pages(text), delivered, posted, result)
  {
    if |text| <= GarminSafeMax {
      var ok := delivered(0);
      posted := [text];
      result := SendResult(ok, if ok then None else Some("SEND_FAILED"), 1, |text|);
      return;
    }
    var chunks := SplitForPaging(text, ChunkPayload);
    chunks := CapChunks(chunks);
    result, posted := SendPages(chunks, |text|, delivered);
  }

  /** The loop of `paginateAndSend`: post `"i/total " + chunks[i-1]` for i = 1..total,
      stopping at the first failed post. The pacing delay between pages is not
      modelled. */
  method SendPages(chunks: seq<string>, chars: nat, delivered: nat -> bool) returns (result: SendResult, posted: seq<string>)
    ensures result.pages == |chunks| && result.chars == chars
    ensures PostedInOrder(Numbered(chunks), delivered, posted, result)
  {
    ghost var pages := Numbered(chunks);
    var total := |chunks|;
    posted := [];
    var i := 0;
    while i < total
      invariant 0 <= i <= total
      invariant posted == pages[..i]
      invariant forall k :: 0 <= k < i ==> delivered(k)
    {
      var payload := PagePrefix(i + 1, total) + chunks[i];
      assert payload == pages[i];
      var ok := delivered(i);
      PrefixSnoc(pages, i);
      posted := posted + [payload];
      if !ok {
        result := SendResult(false, Some("CHUNK_" + NatToString(i + 1) + "_FAILED"), total, chars);
        return;
      }
      i := i + 1;
    }
    assert posted == pages;
    result := SendResult(true, None, total, chars);
  }

  lemma PrefixSnoc<T>(s: seq<T>, i: nat)
    requires i < |s|
    ensures s[..i] + [s[i]] == s[..i + 1]
  {
  }
}
