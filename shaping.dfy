/** The two text-shaping helpers of Code.js: `truncateSmart`, which shortens a reply
    to a character budget, and `cleanOutput`, which strips markdown from a model reply
    before it is paged. */
module Shaping {
  import opened Wrappers
  import opened Text
  import opened Paging

  const Ellipsis: string := "..."

  // ---------------------------------------------------------------------------
  // truncateSmart

  /** `x` is a power of two. */
  predicate PowerOfTwo(x: nat)
    decreases x
  {
    x == 1 || (x > 1 && x % 2 == 0 && PowerOfTwo(x / 2))
  }

  /** The largest power of two not above `x`. */
  function Pow2Floor(x: nat): (p: nat)
    requires x >= 1
    ensures PowerOfTwo(p) && p <= x < 2 * p
  {
    if x == 1 then 1 else 2 * Pow2Floor(x / 2)
  }

  /** JavaScript's `n > limit * 0.7`, where `0.7` and the product are IEEE doubles.
      The double nearest 0.7 lies `1 / (5 * 2^52)` below it, so `limit * 0.7` lies
      `limit / (5 * 2^52)` below `7 * limit / 10` before rounding. Off a multiple of 10
      no integer is that close, and the test is `10 * n > 7 * limit`. At
      `limit == 10 * k` the product rounds below `7 * k` exactly when that distance
      exceeds half the spacing of doubles at `7 * k`: when `4 * k` is above the
      largest power of two not above `7 * k`. Then `n == 7 * k` passes as well, as
      490 does at a limit of 700 (`700 * 0.7` is 489.99999999999994). */
  function OverSeventyPercent(n: int, limit: nat): (r: bool)
    ensures 10 * n > 7 * limit ==> r
    ensures r ==> 10 * n >= 7 * limit && (limit == 0 ==> n > 0)
    ensures r && 10 * n == 7 * limit ==> limit % 10 == 0
  {
    10 * n > 7 * limit
    || (limit > 0 && limit % 10 == 0 && 10 * n == 7 * limit
        && 4 * (limit / 10) > Pow2Floor(7 * (limit / 10)))
  }

  /** At a limit of 700 a 490-character sentence passes, while the 70 of 100 and the
      7 of 10 do not, since `100 * 0.7` and `10 * 0.7` are exactly 70 and 7. */
  lemma SeventyPercentOfDoubles()
    ensures OverSeventyPercent(490, 700)
    ensures !OverSeventyPercent(70, 100) && !OverSeventyPercent(7, 10)
  {
    Pow2Floor490();
    Pow2Floor70();
    assert Pow2Floor(7) == 2 * Pow2Floor(3) == 4 * Pow2Floor(1) == 4;
  }

  lemma Pow2Floor490()
    ensures Pow2Floor(490) == 256
  {
    assert Pow2Floor(3) == 2;
    assert Pow2Floor(7) == 4;
    assert Pow2Floor(15) == 8;
    assert Pow2Floor(30) == 16;
    assert Pow2Floor(61) == 32;
    assert Pow2Floor(122) == 64;
    assert Pow2Floor(245) == 128;
  }

  lemma Pow2Floor70()
    ensures Pow2Floor(70) == 64
  {
    assert Pow2Floor(2) == 2;
    assert Pow2Floor(4) == 4;
    assert Pow2Floor(8) == 8;
    assert Pow2Floor(17) == 16;
    assert Pow2Floor(35) == 32;
  }

  /** `truncateSmart(text, limit)`. Text within the limit is returned as it is.
      Otherwise, looking only at the first `limit` characters: the match of
      `/.*[.!?]/` when its length passes `> limit * 0.7`, else the text before the
      last space plus "..." when that space's index passes the same test, else a hard
      cut to `limit - 3` characters plus "...". */
  function TruncateSmart(text: string, limit: nat): (r: string)
    ensures |text| <= limit ==> r == text
    ensures |text| > limit ==> |r| <= limit + 2 || (limit < 3 && r == Ellipsis)
  {
    if |text| <= limit then text
    else
      var truncated := Take(text, limit);
      var sentence := SentenceMatch(truncated, false);
      if sentence.Some? && OverSeventyPercent(sentence.value.1, limit) then
        truncated[sentence.value.0..sentence.value.0 + sentence.value.1]
      else
        var lastSpace := LastIndexOf(truncated, " ");
        if OverSeventyPercent(lastSpace, limit) then
          truncated[..lastSpace] + Ellipsis
        else
          Take(truncated, limit - 3) + Ellipsis
  }

  /** The three shapes a truncated text can take. */
  lemma TruncateSmartShapes(text: string, limit: nat)
    requires |text| > limit
    ensures var r := TruncateSmart(text, limit);
      // the sentence match: past `limit * 0.7`, within the limit, ending
      // in a sentence end of the text
      (OverSeventyPercent(|r|, limit) && |r| <= limit && 0 < |r|
       && (r[|r| - 1] == '.' || r[|r| - 1] == '!' || r[|r| - 1] == '?'))
      // the text before a space whose index is past `limit * 0.7`, plus "..."
      || (exists k :: OverSeventyPercent(k, limit) && 0 <= k < limit && text[k] == ' ' && r == text[..k] + Ellipsis)
      // a hard cut
      || (limit >= 3 && r == text[..limit - 3] + Ellipsis)
      || (limit < 3 && r == Ellipsis)
  {
    var truncated := Take(text, limit);
    var sentence := SentenceMatch(truncated, false);
    if sentence.Some? && OverSeventyPercent(sentence.value.1, limit) {
      SentenceShape(text, limit);
    } else if OverSeventyPercent(LastIndexOf(truncated, " "), limit) {
      SpaceShape(text, limit);
    } else {
      CutShape(text, limit);
    }
  }

  lemma SentenceShape(text: string, limit: nat)
    requires |text| > limit
    requires var m := SentenceMatch(Take(text, limit), false); m.Some? && OverSeventyPercent(m.value.1, limit)
    ensures var r := TruncateSmart(text, limit);
      OverSeventyPercent(|r|, limit) && |r| <= limit && 0 < |r|
      && (r[|r| - 1] == '.' || r[|r| - 1] == '!' || r[|r| - 1] == '?')
  {
    var truncated := Take(text, limit);
    var m := SentenceMatch(truncated, false);
    SentenceBranch(truncated, limit);
    assert TruncateSmart(text, limit) == truncated[m.value.0..m.value.0 + m.value.1];
  }

  lemma SpaceShape(text: string, limit: nat)
    requires |text| > limit
    requires var m := SentenceMatch(Take(text, limit), false); !(m.Some? && OverSeventyPercent(m.value.1, limit))
    requires OverSeventyPercent(LastIndexOf(Take(text, limit), " "), limit)
    ensures var k := LastIndexOf(Take(text, limit), " ");
      OverSeventyPercent(k, limit) && 0 <= k < limit && text[k] == ' ' && TruncateSmart(text, limit) == text[..k] + Ellipsis
  {
    SpaceBranch(text, limit);
  }

  lemma CutShape(text: string, limit: nat)
    requires |text| > limit
    requires var m := SentenceMatch(Take(text, limit), false); !(m.Some? && OverSeventyPercent(m.value.1, limit))
    requires !OverSeventyPercent(LastIndexOf(Take(text, limit), " "), limit)
    ensures limit >= 3 ==> TruncateSmart(text, limit) == text[..limit - 3] + Ellipsis
    ensures limit < 3 ==> TruncateSmart(text, limit) == Ellipsis
  {
  }

  /** The space branch: the cut sits at a space of the text past `limit * 0.7`. */
  lemma SpaceBranch(text: string, limit: nat)
    requires |text| > limit
    requires OverSeventyPercent(LastIndexOf(Take(text, limit), " "), limit)
    ensures var k := LastIndexOf(Take(text, limit), " ");
      OverSeventyPercent(k, limit) && 0 <= k < limit && text[k] == ' '
      && Take(text, limit)[..k] + Ellipsis == text[..k] + Ellipsis
  {
    var truncated := Take(text, limit);
    var k := LastIndexOf(truncated, " ");
    assert truncated[k] == ' ' by { assert At(truncated, k, " "); }
  }

  /** The sentence branch: the match ends in a sentence end and is long enough. */
  lemma SentenceBranch(truncated: string, limit: nat)
    requires |truncated| == limit
    requires var m := SentenceMatch(truncated, false); m.Some? && OverSeventyPercent(m.value.1, limit)
    ensures var m := SentenceMatch(truncated, false);
      var r := truncated[m.value.0..m.value.0 + m.value.1];
      OverSeventyPercent(|r|, limit) && |r| <= limit && 0 < |r|
      && (r[|r| - 1] == '.' || r[|r| - 1] == '!' || r[|r| - 1] == '?')
  {
    SentenceMatchFromSpec(truncated, 0, false);
  }

  /** On a single line of text the sentence match starts at the beginning, so the
      result is always the text's own beginning, possibly followed by "...". */
  lemma TruncateSmartSingleLine(text: string, limit: nat)
    requires forall i :: 0 <= i < |text| ==> !IsLineTerminator(text[i])
    ensures var r := TruncateSmart(text, limit);
      (|r| <= |text| && r == text[..|r|])
      || (exists k :: 0 <= k <= |text| && r == text[..k] + Ellipsis)
  {
    if |text| > limit {
      var truncated := Take(text, limit);
      var sentence := SentenceMatch(truncated, false);
      if sentence.Some? && OverSeventyPercent(sentence.value.1, limit) {
        SentenceMatchFromSpec(truncated, 0, false);
        assert sentence.value.0 == 0;
      } else {
        var lastSpace := LastIndexOf(truncated, " ");
        if OverSeventyPercent(lastSpace, limit) {
          assert text[..lastSpace] == truncated[..lastSpace];
        } else {
          var cut := Take(truncated, limit - 3);
          assert cut == text[..|cut|];
        }
      }
    }
  }

  /** When the first sentence end lies on a later line, the sentence branch returns
      that line alone and what came before it is dropped: with a limit of 10,
      "a\ncdefghi.jk" becomes "cdefghi.". */
  lemma TruncateSmartDropsEarlierLines()
    ensures TruncateSmart("a\ncdefghi.jk", 10) == "cdefghi."
  {
    var text := "a\ncdefghi.jk";
    var truncated := Take(text, 10);
    assert truncated == "a\ncdefghi.";
    assert LineEnd(truncated, 0) == 1 by {
      assert !IsLineTerminator(truncated[0]) && IsLineTerminator(truncated[1]);
    }
    assert LastSentenceEnd(truncated, 0, 1, false) == None by {
      assert !SentenceEnd(truncated, 0, false);
    }
    assert SentenceMatchFrom(truncated, 0, false) == SentenceMatchFrom(truncated, 2, false);
    assert LineEnd(truncated, 2) == 10;
    assert SentenceEnd(truncated, 9, false);
    assert LastSentenceEnd(truncated, 2, 10, false) == Some(9);
    assert SentenceMatch(truncated, false) == Some((2, 8));
    assert truncated[2..10] == "cdefghi.";
  }

  // ---------------------------------------------------------------------------
  // cleanOutput

  /** `s.replace(/<pat>/g, "")` for a literal pattern: occurrences are removed left to
      right, without overlap. */
  function RemoveAll(s: string, pat: string): (r: string)
    requires |pat| > 0
    ensures |r| <= |s|
    ensures forall i :: 0 <= i < |r| ==> r[i] in s
    decreases |s|
  {
    if |s| == 0 then s
    else if At(s, 0, pat) then
      var rest := RemoveAll(s[|pat|..], pat);
      assert forall i :: 0 <= i < |rest| ==> rest[i] in s by {
        forall i | 0 <= i < |rest| ensures rest[i] in s {
          assert rest[i] in s[|pat|..];
        }
      }
      rest
    else
      var rest := RemoveAll(s[1..], pat);
      assert forall i :: 0 <= i < |rest| ==> rest[i] in s by {
        forall i | 0 <= i < |rest| ensures rest[i] in s {
          assert rest[i] in s[1..];
        }
      }
      [s[0]] + rest
  }

  /** Removing a one-character pattern leaves no occurrence of that character. */
  lemma {:induction false} RemoveAllChar(s: string, c: char)
    ensures c !in RemoveAll(s, [c])
    decreases |s|
  {
    if |s| > 0 {
      RemoveAllChar(s[1..], c);
      if !At(s, 0, [c]) {
        assert s[0] != c by { assert s[0..1] == [s[0]]; }
      }
    }
  }

  /** The number of consecutive '#' at the start of `s`. */
  function HashRun(s: string): (n: nat)
    ensures n <= |s|
    ensures forall i :: 0 <= i < n ==> s[i] == '#'
    ensures n == |s| || s[n] != '#'
  {
    if |s| > 0 && s[0] == '#' then 1 + HashRun(s[1..]) else 0
  }

  /** `s.replace(/#{1,6}\s/g, "")`. At a '#', the regular expression takes the run of
      '#' greedily; it matches only when that run holds at most six and is followed by
      white space, so a longer run loses only its last six '#' with the white space. */
  function RemoveHeadings(s: string): (r: string)
    ensures |r| <= |s|
    ensures forall i :: 0 <= i < |r| ==> r[i] in s
    decreases |s|
  {
    if |s| == 0 then s
    else
      var run := HashRun(s);
      if 0 < run <= 6 && run < |s| && IsSpace(s[run]) then
        var rest := RemoveHeadings(s[run + 1..]);
        assert forall i :: 0 <= i < |rest| ==> rest[i] in s by {
          forall i | 0 <= i < |rest| ensures rest[i] in s {
            assert rest[i] in s[run + 1..];
          }
        }
        rest
      else
        var rest := RemoveHeadings(s[1..]);
        assert forall i :: 0 <= i < |rest| ==> rest[i] in s by {
          forall i | 0 <= i < |rest| ensures rest[i] in s {
            assert rest[i] in s[1..];
          }
        }
        [s[0]] + rest
  }

  /** The number of consecutive `c` at the start of `s`. */
  function RunOf(s: string, c: char): (n: nat)
    ensures n <= |s|
    ensures forall i :: 0 <= i < n ==> s[i] == c
    ensures n == |s| || s[n] != c
  {
    if |s| > 0 && s[0] == c then 1 + RunOf(s[1..], c) else 0
  }

  /** `s.replace(/\n{3,}/g, "\n\n")`: every run of three or more newlines becomes two. */
  function SqueezeBlankLines(s: string): (r: string)
    ensures |r| <= |s|
    ensures forall i :: 0 <= i < |r| ==> r[i] in s
    decreases |s|
  {
    if |s| == 0 then s
    else
      var run := RunOf(s, '\n');
      if run >= 3 then
        var rest := SqueezeBlankLines(s[run..]);
        assert forall i :: 0 <= i < |rest| ==> rest[i] in s by {
          forall i | 0 <= i < |rest| ensures rest[i] in s {
            assert rest[i] in s[run..];
          }
        }
        assert s[0] == '\n';
        "\n\n" + rest
      else
        var rest := SqueezeBlankLines(s[1..]);
        assert forall i :: 0 <= i < |rest| ==> rest[i] in s by {
          forall i | 0 <= i < |rest| ensures rest[i] in s {
            assert rest[i] in s[1..];
          }
        }
        [s[0]] + rest
  }

  /** `s.replace(/\s{2,}/g, " ")`: every run of two or more white-space characters
      becomes one space; a lone white-space character is kept as it is. */
  function CollapseSpaces(s: string): (r: string)
    ensures |r| <= |s|
    ensures forall i :: 0 <= i < |r| ==> r[i] in s || r[i] == ' '
    ensures |s| > 0 ==> |r| > 0 && (IsSpace(r[0]) <==> IsSpace(s[0]))
    ensures |s| > 0 && !IsSpace(s[0]) ==> r[0] == s[0]
    decreases |s|
  {
    if |s| == 0 then s
    else
      var run := SpaceRun(s);
      if run >= 2 then
        var rest := CollapseSpaces(s[run..]);
        assert forall i :: 0 <= i < |rest| ==> rest[i] in s || rest[i] == ' ' by {
          forall i | 0 <= i < |rest| ensures rest[i] in s || rest[i] == ' ' {
            assert rest[i] in s[run..] || rest[i] == ' ';
          }
        }
        " " + rest
      else
        var rest := CollapseSpaces(s[1..]);
        assert forall i :: 0 <= i < |rest| ==> rest[i] in s || rest[i] == ' ' by {
          forall i | 0 <= i < |rest| ensures rest[i] in s || rest[i] == ' ' {
            assert rest[i] in s[1..] || rest[i] == ' ';
          }
        }
        [s[0]] + rest
  }

  /** No two neighbouring characters are both white space. */
  predicate NoDoubleSpace(s: string) {
    forall i :: 0 < i < |s| ==> !(IsSpace(s[i - 1]) && IsSpace(s[i]))
  }

  lemma {:induction false} CollapseSpacesSingle(s: string)
    ensures NoDoubleSpace(CollapseSpaces(s))
    decreases |s|
  {
    if |s| > 0 {
      var run := SpaceRun(s);
      if run >= 2 {
        CollapseSpacesSingle(s[run..]);
      } else {
        CollapseSpacesSingle(s[1..]);
        var rest := CollapseSpaces(s[1..]);
        if IsSpace(s[0]) && |s| > 1 {
          assert !IsSpace(s[1]);
        }
      }
    }
  }

  /** Collapsing keeps a trimmed text trimmed. */
  lemma {:induction false} CollapseSpacesTrimmed(s: string)
    requires IsTrimmed(s)
    ensures IsTrimmed(CollapseSpaces(s))
  {
    if |s| > 0 {
      CollapseSpacesLast(s);
      assert IsSpace(' ');
    }
  }

  /** Collapsing keeps the last character, or turns a white-space one into a space. */
  lemma {:induction false} CollapseSpacesLast(s: string)
    requires |s| > 0
    ensures var r := CollapseSpaces(s);
      |r| > 0 && (r[|r| - 1] == s[|s| - 1] || (r[|r| - 1] == ' ' && IsSpace(s[|s| - 1])))
    decreases |s|
  {
    var run := SpaceRun(s);
    var r := CollapseSpaces(s);
    if run >= 2 {
      var t := s[run..];
      var rest := CollapseSpaces(t);
      assert r == " " + rest;
      if run < |s| {
        CollapseSpacesLast(t);
        assert r[|r| - 1] == rest[|rest| - 1];
        assert s[|s| - 1] == t[|t| - 1];
      } else {
        assert IsSpace(s[|s| - 1]);
        assert rest == [];
      }
    } else {
      var t := s[1..];
      var rest := CollapseSpaces(t);
      assert r == [s[0]] + rest;
      if |s| > 1 {
        CollapseSpacesLast(t);
        assert r[|r| - 1] == rest[|rest| - 1];
        assert s[|s| - 1] == t[|t| - 1];
      } else {
        assert rest == [];
      }
    }
  }

  /** `cleanOutput(text)`: remove "**", then every '*', headings markers `#{1,6}\s`,
      and every '`'; squeeze blank lines; trim; collapse runs of white space. */
  function CleanOutput(text: string): (r: string)
    ensures |r| <= |text|
  {
    if text == "" then ""
    else
      var noBold := RemoveAll(text, "**");
      var noStars := RemoveAll(noBold, "*");
      var noHeadings := RemoveHeadings(noStars);
      var noTicks := RemoveAll(noHeadings, "`");
      var blankLines := SqueezeBlankLines(noTicks);
      CollapseSpaces(Trim(blankLines))
  }

  /** The cleaned text holds no '*' and no '`', is trimmed, has no two white-space
      characters in a row and is never longer than the input. */
  lemma CleanOutputProperties(text: string)
    ensures var r := CleanOutput(text);
      '*' !in r && '`' !in r && IsTrimmed(r) && NoDoubleSpace(r) && |r| <= |text|
  {
    var noStars := RemoveAll(RemoveAll(text, "**"), "*");
    RemoveAllChar(RemoveAll(text, "**"), '*');
    var noHeadings := RemoveHeadings(noStars);
    assert '*' !in noHeadings;
    var noTicks := RemoveAll(noHeadings, "`");
    RemoveAllChar(noHeadings, '`');
    assert '*' !in noTicks;
    var blankLines := SqueezeBlankLines(noTicks);
    assert '*' !in blankLines && '`' !in blankLines;
    var trimmed := Trim(blankLines);
    TrimSub(blankLines);
    assert '*' !in trimmed && '`' !in trimmed;
    var r := CollapseSpaces(trimmed);
    CollapseSpacesSingle(trimmed);
    CollapseSpacesTrimmed(trimmed);
  }

  /** Trimming keeps only characters of the input. */
  lemma TrimSub(s: string)
    ensures forall i :: 0 <= i < |Trim(s)| ==> Trim(s)[i] in s
  {
    var t := TrimStart(s);
    TrimBothEnds(s);
    forall i | 0 <= i < |Trim(s)| ensures Trim(s)[i] in s {
      assert Trim(s)[i] == t[i];
      assert t[i] == s[|s| - |t| + i];
    }
  }

  // ---------------------------------------------------------------------------
  // text that is already clean is left alone

  /** Text without markup characters, without two white-space characters in a row
      and without white space at either end. */
  predicate IsPlain(s: string) {
    '*' !in s && '`' !in s && '#' !in s && IsTrimmed(s) && NoDoubleSpace(s)
  }

  lemma {:induction false} RemoveAllAbsent(s: string, pat: string)
    requires |pat| > 0 && pat[0] !in s
    ensures RemoveAll(s, pat) == s
    decreases |s|
  {
    if |s| > 0 {
      assert !At(s, 0, pat) by { assert s[0] != pat[0]; }
      RemoveAllAbsent(s[1..], pat);
    }
  }

  lemma {:induction false} RemoveHeadingsAbsent(s: string)
    requires '#' !in s
    ensures RemoveHeadings(s) == s
    decreases |s|
  {
    if |s| > 0 {
      assert HashRun(s) == 0;
      RemoveHeadingsAbsent(s[1..]);
    }
  }

  lemma {:induction false} SqueezeBlankLinesAbsent(s: string)
    requires NoDoubleSpace(s)
    ensures SqueezeBlankLines(s) == s
    decreases |s|
  {
    if |s| > 0 {
      if |s| > 1 {
        assert !(IsSpace(s[0]) && IsSpace(s[1]));
      }
      assert RunOf(s, '\n') < 3;
      SqueezeBlankLinesAbsent(s[1..]);
    }
  }

  lemma {:induction false} CollapseSpacesAbsent(s: string)
    requires NoDoubleSpace(s)
    ensures CollapseSpaces(s) == s
    decreases |s|
  {
    if |s| > 0 {
      if |s| > 1 {
        assert !(IsSpace(s[0]) && IsSpace(s[1]));
      }
      assert SpaceRun(s) < 2;
      CollapseSpacesAbsent(s[1..]);
    }
  }

  /** Cleaning plain text gives it back unchanged. */
  lemma CleanOutputKeepsPlain(s: string)
    requires IsPlain(s)
    ensures CleanOutput(s) == s
  {
    if s != "" {
      RemoveAllAbsent(s, "**");
      RemoveAllAbsent(s, "*");
      RemoveHeadingsAbsent(s);
      RemoveAllAbsent(s, "`");
      SqueezeBlankLinesAbsent(s);
      TrimmedTrim(s);
      CollapseSpacesAbsent(s);
    }
  }

  /** Cleaning is not idempotent: a '#' separated from the white space after it by a
      '`' survives the heading step, and once the '`' is gone a heading marker
      remains. */
  lemma CleanOutputLeavesHeadingMarker()
    ensures CleanOutput("#` x") == "# x"
    ensures CleanOutput("# x") == "x"
  {
    CleanTickedHeading();
    CleanHeading();
  }

  lemma CleanTickedHeading()
    ensures CleanOutput("#` x") == "# x"
  {
    var s := "#` x";
    RemoveAllAbsent(s, "**");
    RemoveAllAbsent(s, "*");
    TickedHeadingKept();
    TickRemoved();
    var t := "# x";
    HashSpaceXIsPlain();
    SqueezeBlankLinesAbsent(t);
    TrimmedTrim(t);
    CollapseSpacesAbsent(t);
  }

  lemma CleanHeading()
    ensures CleanOutput("# x") == "x"
  {
    var t := "# x";
    RemoveAllAbsent(t, "**");
    RemoveAllAbsent(t, "*");
    HeadingRemoved();
    RemoveAllAbsent("x", "`");
    assert NoDoubleSpace("x");
    SqueezeBlankLinesAbsent("x");
    TrimmedTrim("x");
    CollapseSpacesAbsent("x");
  }

  lemma TickedHeadingKept()
    ensures RemoveHeadings("#` x") == "#` x"
  {
    var s := "#` x";
    assert HashRun(s) == 1 && !IsSpace(s[1]);
    assert s[1..] == "` x";
    RemoveHeadingsAbsent("` x");
  }

  lemma TickRemoved()
    ensures RemoveAll("#` x", "`") == "# x"
  {
    var s := "#` x";
    assert !At(s, 0, "`") by { assert s[0] == '#'; }
    assert s[1..] == "` x";
    assert At("` x", 0, "`");
    assert "` x"[1..] == " x";
    RemoveAllAbsent(" x", "`");
  }

  lemma HashSpaceXIsPlain()
    ensures NoDoubleSpace("# x") && IsTrimmed("# x")
  {
    var t := "# x";
    assert t[0] == '#' && t[2] == 'x';
    assert !IsSpace(t[0]) && !IsSpace(t[2]);
  }

  lemma HeadingRemoved()
    ensures RemoveHeadings("# x") == "x"
  {
    var t := "# x";
    assert HashRun(t) == 1 && IsSpace(t[1]);
    assert t[2..] == "x";
    RemoveHeadingsAbsent("x");
  }

  /** `truncateSmart` can return more than `limit` characters: the text before a late
      space plus "..." overshoots by up to two. */
  lemma TruncateSmartOvershoots()
    ensures TruncateSmart("abcdefghi jk", 10) == "abcdefghi..."
  {
    var truncated := Take("abcdefghi jk", 10);
    assert truncated == "abcdefghi ";
    NoSentenceInLetters();
    LastSpaceOfLetters();
    assert truncated[..9] == "abcdefghi";
  }

  lemma NoSentenceInLetters()
    ensures SentenceMatch("abcdefghi ", false) == None
  {
    var t := "abcdefghi ";
    assert NoSentenceEnd(t, 0, 10, false) by {
      forall q | 0 <= q < 10 ensures !SentenceEnd(t, q, false) {}
    }
    SentenceMatchFromSpec(t, 0, false);
  }

  lemma LastSpaceOfLetters()
    ensures LastIndexOf("abcdefghi ", " ") == 9
  {
    assert At("abcdefghi ", 9, " ");
  }
}
