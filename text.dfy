/** String operations of JavaScript that the gateway relies on, each written out
    over `seq<char>`: white space and line terminators as JavaScript defines them,
    `trim`, ASCII case mapping, `indexOf`/`lastIndexOf`, `substring`, `join`
    and number-to-text conversion. */
module Text {
  import opened Wrappers

  /** The characters a regular expression's `.` does not match. */
  predicate IsLineTerminator(c: char) {
    c == '\n' || c == '\r' || c == '\U{2028}' || c == '\U{2029}'
  }

  /** JavaScript white space: what `\s` matches and what `trim` removes. */
  predicate IsSpace(c: char) {
    c == ' ' || c == '\t' || c == '\n' || c == '\r' || c == '\U{000B}' || c == '\U{000C}'
    || c == '\U{00A0}' || c == '\U{FEFF}' || c == '\U{1680}' || ('\U{2000}' <= c <= '\U{200A}')
    || c == '\U{2028}' || c == '\U{2029}' || c == '\U{202F}' || c == '\U{205F}' || c == '\U{3000}'
  }

  /** A character matched by `\w`; `\b` sits between a word and a non-word character. */
  predicate IsWordChar(c: char) {
    ('a' <= c <= 'z') || ('A' <= c <= 'Z') || ('0' <= c <= '9') || c == '_'
  }

  predicate IsDigit(c: char) {
    '0' <= c <= '9'
  }

  /** `\b` at position `i` of `s`: exactly one of the neighbours is a word character. */
  predicate WordBoundary(s: string, i: nat)
    requires i <= |s|
  {
    (i > 0 && IsWordChar(s[i - 1])) != (i < |s| && IsWordChar(s[i]))
  }

  function UpperChar(c: char): char {
    if 'a' <= c <= 'z' then (c as int - 32) as char else c
  }

  function LowerChar(c: char): char {
    if 'A' <= c <= 'Z' then (c as int + 32) as char else c
  }

  /** `toUpperCase`, for the ASCII letters. */
  function Upper(s: string): (r: string)
    ensures |r| == |s|
    ensures forall i :: 0 <= i < |s| ==> r[i] == UpperChar(s[i])
  {
    seq(|s|, i requires 0 <= i < |s| => UpperChar(s[i]))
  }

  /** `toLowerCase`, for the ASCII letters. */
  function Lower(s: string): (r: string)
    ensures |r| == |s|
    ensures forall i :: 0 <= i < |s| ==> r[i] == LowerChar(s[i])
  {
    seq(|s|, i requires 0 <= i < |s| => LowerChar(s[i]))
  }

  /** `pat` occurs in `s` starting at index `i`. */
  predicate At(s: string, i: nat, pat: string) {
    i + |pat| <= |s| && s[i..i + |pat|] == pat
  }

  predicate StartsWith(s: string, pat: string) {
    At(s, 0, pat)
  }

  /** `pat`, written in upper case, occurs at `i` in `s` ignoring ASCII case. */
  predicate AtUpper(s: string, i: nat, pat: string) {
    i + |pat| <= |s| && Upper(s[i..i + |pat|]) == pat
  }

  /** The number of consecutive white-space characters at the start of `s`. */
  function SpaceRun(s: string): (n: nat)
    ensures n <= |s|
    ensures forall i :: 0 <= i < n ==> IsSpace(s[i])
    ensures n == |s| || !IsSpace(s[n])
  {
    if |s| > 0 && IsSpace(s[0]) then 1 + SpaceRun(s[1..]) else 0
  }

  /** The number of consecutive decimal digits at the start of `s`. */
  function DigitRun(s: string): (n: nat)
    ensures n <= |s|
    ensures forall i :: 0 <= i < n ==> IsDigit(s[i])
    ensures n == |s| || !IsDigit(s[n])
  {
    if |s| > 0 && IsDigit(s[0]) then 1 + DigitRun(s[1..]) else 0
  }

  /** `s.indexOf(pat) !== -1`. */
  predicate Contains(s: string, pat: string) {
    exists i | 0 <= i <= |s| :: At(s, i, pat)
  }

  /** The largest `i <= j` at which `pat` occurs, or -1. */
  function LastIndexFrom(s: string, pat: string, j: int): (r: int)
    requires j <= |s| - |pat|
    decreases j + 1
    ensures r == -1 || 0 <= r <= j
    ensures r >= 0 ==> At(s, r, pat)
    ensures forall i: nat :: r < i <= j ==> !At(s, i, pat)
  {
    if j < 0 then -1 else if At(s, j, pat) then j else LastIndexFrom(s, pat, j - 1)
  }

  /** `s.lastIndexOf(pat)`: the last index at which `pat` occurs, or -1. */
  function LastIndexOf(s: string, pat: string): (r: int)
    ensures r == -1 || 0 <= r <= |s| - |pat|
    ensures r >= 0 ==> At(s, r, pat)
    ensures forall i: nat :: r < i ==> !At(s, i, pat)
  {
    LastIndexFrom(s, pat, |s| - |pat|)
  }

  /** The smallest `i >= j` at which `pat` occurs, or -1. */
  function IndexFrom(s: string, pat: string, j: nat): (r: int)
    decreases |s| - j
    ensures r == -1 || (j <= r && At(s, r, pat))
    ensures forall i: nat :: j <= i && (r == -1 || i < r) ==> !At(s, i, pat)
  {
    if j + |pat| > |s| then -1 else if At(s, j, pat) then j else IndexFrom(s, pat, j + 1)
  }

  /** `s.indexOf(pat)`. */
  function IndexOf(s: string, pat: string): (r: int)
    ensures r == -1 <==> !Contains(s, pat)
    ensures r >= 0 ==> At(s, r, pat) && forall i: nat :: i < r ==> !At(s, i, pat)
  {
    IndexFrom(s, pat, 0)
  }

  /** `s.substring(0, n)`, which clamps `n` into `0..|s|`. */
  function Take(s: string, n: int): (r: string)
    ensures |r| == if n <= 0 then 0 else if n >= |s| then |s| else n
    ensures r == s[..|r|]
  {
    if n <= 0 then [] else if n >= |s| then s else s[..n]
  }

  /** `s.split(sep)[0]`: everything before the first occurrence of `sep`. */
  function BeforeFirst(s: string, sep: string): (r: string)
    requires |sep| > 0
    ensures Contains(s, sep) ==> At(s, |r|, sep) && s[..|r|] == r
    ensures !Contains(s, sep) ==> r == s
  {
    var i := IndexOf(s, sep);
    if i < 0 then s else s[..i]
  }

  /** No occurrence of `sep` begins before the end of `BeforeFirst(s, sep)`. */
  lemma BeforeFirstIsFirst(s: string, sep: string)
    requires |sep| > 0
    ensures forall i: nat :: i < |BeforeFirst(s, sep)| ==> !At(s, i, sep)
  {
  }

  /** `parts.join(sep)`. */
  function Join(parts: seq<string>, sep: string): (r: string)
    ensures |parts| == 1 ==> r == parts[0]
  {
    if |parts| == 0 then "" else if |parts| == 1 then parts[0] else parts[0] + sep + Join(parts[1..], sep)
  }

  lemma JoinSnoc(parts: seq<string>, x: string, sep: string)
    requires |parts| > 0
    ensures Join(parts + [x], sep) == Join(parts, sep) + sep + x
  {
    if |parts| == 1 {
      assert (parts + [x])[1..] == [x];
    } else {
      assert (parts + [x])[1..] == parts[1..] + [x];
      JoinSnoc(parts[1..], x, sep);
    }
  }

  // ---------------------------------------------------------------------------
  // URL parameters

  /** The number of consecutive characters from index `i` that `allowed` accepts. */
  function RunWhile(s: string, i: nat, allowed: char -> bool): (n: nat)
    requires i <= |s|
    decreases |s| - i
    ensures i + n <= |s|
    ensures forall j :: i <= j < i + n ==> allowed(s[j])
    ensures i + n == |s| || !allowed(s[i + n])
  {
    if i < |s| && allowed(s[i]) then 1 + RunWhile(s, i + 1, allowed) else 0
  }

  /** `key` followed by at least one accepted character occurs at `i`. */
  predicate ParamAt(s: string, i: nat, key: string, allowed: char -> bool) {
    At(s, i, key) && RunWhile(s, i + |key|, allowed) > 0
  }

  /** The first match of `key([allowed]+)` at or after `i`, as its capture. */
  function ParamFrom(s: string, key: string, i: nat, allowed: char -> bool): (r: Option<string>)
    requires i <= |s|
    decreases |s| - i
    ensures r.None? ==> forall j :: i <= j <= |s| ==> !ParamAt(s, j, key, allowed)
    ensures r.Some? ==> |r.value| > 0
  {
    if ParamAt(s, i, key, allowed) then
      Some(s[i + |key|..i + |key| + RunWhile(s, i + |key|, allowed)])
    else if i == |s| then None
    else ParamFrom(s, key, i + 1, allowed)
  }

  /** A capture found from `i` is that of a match at some `j`, with no match between
      `i` and `j`. */
  lemma {:induction false} ParamFromFinds(s: string, key: string, i: nat, allowed: char -> bool)
    requires i <= |s|
    decreases |s| - i
    ensures var r := ParamFrom(s, key, i, allowed);
      r.Some? ==> exists j :: (i <= j <= |s| && ParamAt(s, j, key, allowed)
        && r.value == s[j + |key|..j + |key| + RunWhile(s, j + |key|, allowed)]
        && forall j' :: i <= j' < j ==> !ParamAt(s, j', key, allowed))
  {
    var r := ParamFrom(s, key, i, allowed);
    if ParamAt(s, i, key, allowed) {
      assert r.value == s[i + |key|..i + |key| + RunWhile(s, i + |key|, allowed)];
    } else if i < |s| {
      assert r == ParamFrom(s, key, i + 1, allowed);
      ParamFromFinds(s, key, i + 1, allowed);
      if r.Some? {
        var j :| i + 1 <= j <= |s| && ParamAt(s, j, key, allowed)
          && r.value == s[j + |key|..j + |key| + RunWhile(s, j + |key|, allowed)]
          && forall j' :: i + 1 <= j' < j ==> !ParamAt(s, j', key, allowed);
        assert forall j' :: i <= j' < j ==> !ParamAt(s, j', key, allowed);
      }
    }
  }

  /** `s.match(/key([allowed]+)/)`, as the capture. */
  function FirstParam(s: string, key: string, allowed: char -> bool): (r: Option<string>)
    ensures r.None? ==> forall j :: 0 <= j <= |s| ==> !ParamAt(s, j, key, allowed)
    ensures r.Some? ==> |r.value| > 0
  {
    ParamFrom(s, key, 0, allowed)
  }

  /** The first match at or after `i` is the one at `j` when none starts in between. */
  lemma {:induction false} ParamFromFirst(s: string, key: string, i: nat, j: nat, allowed: char -> bool)
    requires i <= j <= |s| && ParamAt(s, j, key, allowed)
    requires forall k :: i <= k < j ==> !ParamAt(s, k, key, allowed)
    ensures ParamFrom(s, key, i, allowed) == Some(s[j + |key|..j + |key| + RunWhile(s, j + |key|, allowed)])
    decreases j - i
  {
    if i < j {
      assert !ParamAt(s, i, key, allowed);
      assert i < |s|;
      ParamFromFirst(s, key, i + 1, j, allowed);
      assert ParamFrom(s, key, i, allowed) == ParamFrom(s, key, i + 1, allowed);
    } else {
      assert ParamAt(s, i, key, allowed);
    }
  }

  /** A JavaScript truthy string: present and non-empty. */
  predicate Truthy(o: Option<string>) {
    o.Some? && o.value != ""
  }

  /** `[^&\s]`: a character of a parameter value up to the next `&` or white space. */
  predicate IsValueChar(c: char) {
    c != '&' && !IsSpace(c)
  }

  // ---------------------------------------------------------------------------
  // trim

  function TrimStart(s: string): (r: string)
    ensures |r| <= |s| && r == s[|s| - |r|..]
    ensures r == [] || !IsSpace(r[0])
    ensures forall i :: 0 <= i < |s| - |r| ==> IsSpace(s[i])
  {
    if |s| > 0 && IsSpace(s[0]) then TrimStart(s[1..]) else s
  }

  function TrimEnd(s: string): (r: string)
    ensures |r| <= |s| && r == s[..|r|]
    ensures r == [] || !IsSpace(r[|r| - 1])
    ensures forall i :: |r| <= i < |s| ==> IsSpace(s[i])
  {
    if |s| > 0 && IsSpace(s[|s| - 1]) then TrimEnd(s[..|s| - 1]) else s
  }

  /** `s.trim()`: `s` without leading and trailing white space. */
  function Trim(s: string): (r: string)
    ensures |r| <= |s|
    ensures IsTrimmed(r)
    decreases |s|
  {
    if |s| > 0 && IsSpace(s[0]) then Trim(s[1..]) else TrimEnd(s)
  }

  /** Trimming is trimming the front, then the back. */
  lemma {:induction false} TrimBothEnds(s: string)
    ensures Trim(s) == TrimEnd(TrimStart(s))
    decreases |s|
  {
    if |s| > 0 && IsSpace(s[0]) {
      TrimBothEnds(s[1..]);
    }
  }

  /** Neither end of `s` is white space. */
  predicate IsTrimmed(s: string) {
    s == [] || (!IsSpace(s[0]) && !IsSpace(s[|s| - 1]))
  }

  lemma TrimmedTrim(s: string)
    requires IsTrimmed(s)
    ensures Trim(s) == s
  {
  }

  /** A string that holds a non-white-space character keeps it when trimmed. */
  lemma TrimKeepsFirst(s: string)
    requires |s| > 0 && !IsSpace(s[0])
    ensures |Trim(s)| > 0 && Trim(s)[0] == s[0]
  {
    assert !IsSpace(s[0]);
    assert Trim(s) == TrimEnd(s);
  }

  // ---------------------------------------------------------------------------
  // white space removed

  /** `s` with every white-space character removed. */
  function Squeeze(s: string): (r: string)
    ensures |r| <= |s|
  {
    if s == [] then [] else (if IsSpace(s[0]) then [] else [s[0]]) + Squeeze(s[1..])
  }

  lemma {:induction false} SqueezeAppend(a: string, b: string)
    ensures Squeeze(a + b) == Squeeze(a) + Squeeze(b)
  {
    if a == [] {
      assert a + b == b;
    } else {
      assert (a + b)[0] == a[0];
      assert (a + b)[1..] == a[1..] + b;
      SqueezeAppend(a[1..], b);
    }
  }

  lemma SqueezeSplit(s: string, i: nat)
    requires i <= |s|
    ensures Squeeze(s) == Squeeze(s[..i]) + Squeeze(s[i..])
  {
    assert s == s[..i] + s[i..];
    SqueezeAppend(s[..i], s[i..]);
  }

  /** A string of white space only squeezes to nothing. */
  lemma {:induction false} SqueezeSpaces(s: string)
    requires forall i :: 0 <= i < |s| ==> IsSpace(s[i])
    ensures Squeeze(s) == []
  {
    if s != [] {
      SqueezeSpaces(s[1..]);
    }
  }

  /** Trimming removes white space only. */
  lemma SqueezeTrim(s: string)
    ensures Squeeze(Trim(s)) == Squeeze(s)
  {
    TrimBothEnds(s);
    SqueezeTrimStart(s);
    SqueezeTrimEnd(TrimStart(s));
  }

  lemma SqueezeTrimStart(s: string)
    ensures Squeeze(TrimStart(s)) == Squeeze(s)
  {
    var t := TrimStart(s);
    var lead := s[..|s| - |t|];
    assert s == lead + t;
    SqueezeSpaces(lead);
    SqueezeAppend(lead, t);
  }

  lemma SqueezeTrimEnd(s: string)
    ensures Squeeze(TrimEnd(s)) == Squeeze(s)
  {
    var u := TrimEnd(s);
    var trail := s[|u|..];
    assert s == u + trail;
    SqueezeSpaces(trail);
    SqueezeAppend(u, trail);
  }

  // ---------------------------------------------------------------------------
  // numbers as text

  function DigitChar(d: nat): char
    requires d < 36
  {
    if d < 10 then ('0' as int + d) as char else ('a' as int + d - 10) as char
  }

  /** `String(n)` for a non-negative integer: its decimal digits. */
  function NatToString(n: nat): (r: string)
    ensures |r| >= 1
    ensures n < 10 ==> |r| == 1
    ensures 10 <= n < 100 ==> |r| == 2
    ensures forall i :: 0 <= i < |r| ==> IsDigit(r[i])
  {
    if n < 10 then [DigitChar(n)] else NatToString(n / 10) + [DigitChar(n % 10)]
  }

  /** `String(i)` for an integer. */
  function IntToString(i: int): (r: string)
    ensures |r| >= 1
  {
    if i < 0 then "-" + NatToString(-i) else NatToString(i)
  }

  /** `n.toString(36)`: base-36 digits, lower case. */
  function NatToBase36(n: nat): (r: string)
    ensures |r| >= 1
  {
    if n < 36 then [DigitChar(n)] else NatToBase36(n / 36) + [DigitChar(n % 36)]
  }

  /** The value of a string of decimal digits, as `parseInt(digits, 10)` reads it. */
  function DigitsValue(s: string): nat
    requires forall i :: 0 <= i < |s| ==> IsDigit(s[i])
  {
    if s == [] then 0
    else
      assert IsDigit(s[|s| - 1]);
      DigitsValue(s[..|s| - 1]) * 10 + (s[|s| - 1] as int - '0' as int)
  }

  lemma {:induction false} DigitsValueOfNat(n: nat)
    ensures DigitsValue(NatToString(n)) == n
  {
    var r := NatToString(n);
    if n >= 10 {
      assert r[..|r| - 1] == NatToString(n / 10);
      DigitsValueOfNat(n / 10);
    }
  }
}
