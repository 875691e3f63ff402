/** `extractYouTubeVideoId`: trim the input, then try five case-insensitive
    patterns in a fixed order; each is a literal prefix followed by a captured
    run of at least six `[\w-]` characters, and the first pattern that matches
    anywhere in the text gives the id. */
module YouTube {
  import opened Wrappers

  /** `[\w-]` without the `u` flag: ASCII letters, digits, `_` and `-`. */
  predicate IsIdChar(c: char) {
    ('A' <= c <= 'Z') || ('a' <= c <= 'z') || ('0' <= c <= '9') || c == '_' || c == '-'
  }

  /** What a capture of `([\w-]{6,})` can be. */
  predicate IsVideoId(s: string) {
    |s| >= 6 && forall i | 0 <= i < |s| :: IsIdChar(s[i])
  }

  /** Case folding under the `i` flag without `u`: only ASCII letters fold
      onto ASCII letters. The patterns are written in lower case. */
  function Fold(c: char): char {
    if 'A' <= c <= 'Z' then (c as int + 32) as char else c
  }

  /** The characters `String.prototype.trim` removes: white space and line
      terminators as ECMAScript defines them. */
  predicate IsJsSpace(c: char) {
    var n := c as int;
    n == 0x09 || n == 0x0A || n == 0x0B || n == 0x0C || n == 0x0D || n == 0x20 || n == 0xA0
    || n == 0x1680 || (0x2000 <= n <= 0x200A) || n == 0x2028 || n == 0x2029 || n == 0x202F
    || n == 0x205F || n == 0x3000 || n == 0xFEFF
  }

  /** The first position at or after `i` that does not hold white space. */
  function SkipSpaces(s: string, i: nat): (j: nat)
    requires i <= |s|
    ensures i <= j <= |s|
    ensures forall k | i <= k < j :: IsJsSpace(s[k])
    ensures j == |s| || !IsJsSpace(s[j])
    decreases |s| - i
  {
    if i == |s| || !IsJsSpace(s[i]) then i else SkipSpaces(s, i + 1)
  }

  /** The end of `s[..j]` once its trailing white space is taken off. */
  function SkipSpacesBack(s: string, j: nat): (i: nat)
    requires j <= |s|
    ensures i <= j
    ensures forall k | i <= k < j :: IsJsSpace(s[k])
    ensures i == 0 || !IsJsSpace(s[i - 1])
  {
    if j == 0 || !IsJsSpace(s[j - 1]) then j else SkipSpacesBack(s, j - 1)
  }

  /** Where `trim()` cuts: only white space lies before `b` and from `e` on,
      and the text kept neither starts nor ends with white space. */
  function TrimBounds(s: string): (r: (nat, nat))
    ensures Margins(s, r.0, r.1)
    ensures r.0 < r.1 ==> !IsJsSpace(s[r.0]) && !IsJsSpace(s[r.1 - 1])
  {
    var b := SkipSpaces(s, 0);
    if b == |s| then (b, b) else (b, SkipSpacesBack(s, |s|))
  }

  /** `String(inputUrl).trim()`: the text between the leading and the trailing white space. */
  function Trim(s: string): (r: string)
    ensures r == s[TrimBounds(s).0..TrimBounds(s).1]
    ensures |r| <= |s|
    ensures r == [] || (!IsJsSpace(r[0]) && !IsJsSpace(r[|r| - 1]))
    ensures (forall k | 0 <= k < |s| :: IsJsSpace(s[k])) <==> r == []
    ensures (forall k | 0 <= k < |s| :: !IsJsSpace(s[k])) ==> r == s
  {
    var (b, e) := TrimBounds(s);
    s[b..e]
  }

  /** The cut is the only one with white space outside it and none at its ends:
      `trim()` removes exactly the leading and the trailing white space. */
  lemma TrimIsUnique(s: string, b: nat, e: nat)
    requires Margins(s, b, e) && (b == e || (!IsJsSpace(s[b]) && !IsJsSpace(s[e - 1])))
    ensures Trim(s) == s[b..e]
  {
    var (b', e') := TrimBounds(s);
    if b == e {
      assert forall k | 0 <= k < |s| :: IsJsSpace(s[k]) by {
        forall k | 0 <= k < |s| ensures IsJsSpace(s[k]) {
          if k >= e { assert IsJsSpace(s[k]); } else { assert k < b; }
        }
      }
    } else {
      assert b' <= b && b < e' && e <= e';
      assert b <= b' && e' <= e;
    }
  }

  /** The prefixes of the five patterns, in the order they are tried. */
  const Patterns: seq<string> := ["v=", "youtu.be/", "youtube.com/embed/", "youtube.com/shorts/", "youtube.com/live/"]

  /** The length of the longest run of `[\w-]` characters starting at `j`. */
  function RunLength(s: string, j: nat): (n: nat)
    requires j <= |s|
    ensures j + n <= |s|
    ensures forall k | j <= k < j + n :: IsIdChar(s[k])
    ensures j + n == |s| || !IsIdChar(s[j + n])
    decreases |s| - j
  {
    if j == |s| || !IsIdChar(s[j]) then 0 else 1 + RunLength(s, j + 1)
  }

  /** The pattern's prefix occurs, case-insensitively, at position `i`. */
  predicate PrefixAt(s: string, p: string, i: nat) {
    i + |p| <= |s| && forall k | 0 <= k < |p| :: Fold(s[i + k]) == p[k]
  }

  /** The capture of the pattern for a match that starts at `i`, if one does:
      the prefix, then the greedy `[\w-]{6,}`, which takes the whole run. */
  function MatchAt(s: string, p: string, i: nat): (r: Option<string>)
    requires i <= |s|
    ensures r.Some? ==> var id := r.value;
      && PrefixAt(s, p, i) && IsVideoId(id)
      && i + |p| + |id| <= |s| && s[i + |p|..i + |p| + |id|] == id
      && (i + |p| + |id| == |s| || !IsIdChar(s[i + |p| + |id|]))
    ensures r.None? <==> !PrefixAt(s, p, i) || RunLength(s, i + |p|) < 6
  {
    if PrefixAt(s, p, i) && RunLength(s, i + |p|) >= 6 then
      Some(s[i + |p|..i + |p| + RunLength(s, i + |p|)])
    else None
  }

  /** `s.match(re)` from position `i` on: the leftmost match. */
  function Search(s: string, p: string, i: nat): (r: Option<string>)
    requires i <= |s|
    ensures r.Some? ==> IsVideoId(r.value)
    decreases |s| - i
  {
    var m := MatchAt(s, p, i);
    if m.Some? then m
    else if i == |s| then None
    else Search(s, p, i + 1)
  }

  /** The `for` loop over the patterns: the capture of the first one that matches. */
  function FirstPattern(s: string, ps: seq<string>): (r: Option<string>)
    ensures r.Some? ==> IsVideoId(r.value)
  {
    if ps == [] then None
    else
      var m := Search(s, ps[0], 0);
      if m.Some? then m else FirstPattern(s, ps[1..])
  }

  /** `extractYouTubeVideoId(inputUrl)`; `None` is its `null`. */
  function ExtractYouTubeVideoId(inputUrl: string): (r: Option<string>)
    ensures r.Some? ==> IsVideoId(r.value)
  {
    FirstPattern(Trim(inputUrl), Patterns)
  }

  /** The search returns the match at the leftmost position where there is one. */
  lemma {:induction false} SearchIsLeftmost(s: string, p: string, i: nat, k: nat)
    requires i <= k <= |s| && MatchAt(s, p, k).Some?
    requires forall j | i <= j < k :: MatchAt(s, p, j).None?
    ensures Search(s, p, i) == MatchAt(s, p, k)
    decreases k - i
  {
    if i < k {
      SearchIsLeftmost(s, p, i + 1, k);
    }
  }

  /** The search finds nothing exactly when there is a match at no position. */
  lemma {:induction false} SearchNone(s: string, p: string, i: nat)
    requires i <= |s|
    ensures Search(s, p, i).None? <==> forall j | i <= j <= |s| :: MatchAt(s, p, j).None?
    decreases |s| - i
  {
    if MatchAt(s, p, i).None? && i < |s| {
      SearchNone(s, p, i + 1);
    }
  }

  /** Whatever the search returns is the match at some position, with no match before it. */
  lemma {:induction false} SearchFound(s: string, p: string, i: nat) returns (k: nat)
    requires i <= |s| && Search(s, p, i).Some?
    ensures i <= k <= |s| && Search(s, p, i) == MatchAt(s, p, k)
    ensures forall j | i <= j < k :: MatchAt(s, p, j).None?
    decreases |s| - i
  {
    if MatchAt(s, p, i).Some? {
      k := i;
    } else {
      k := SearchFound(s, p, i + 1);
    }
  }

  /** The patterns are tried in order: the first that matches decides. */
  lemma {:induction false} FirstPatternInOrder(s: string, ps: seq<string>, k: nat)
    requires k < |ps| && Search(s, ps[k], 0).Some?
    requires forall j | 0 <= j < k :: Search(s, ps[j], 0).None?
    ensures FirstPattern(s, ps) == Search(s, ps[k], 0)
  {
    if k > 0 {
      assert Search(s, ps[0], 0).None?;
      FirstPatternInOrder(s, ps[1..], k - 1);
    }
  }

  /** No id comes out exactly when no pattern matches. */
  lemma {:induction false} FirstPatternNone(s: string, ps: seq<string>)
    ensures FirstPattern(s, ps).None? <==> forall j | 0 <= j < |ps| :: Search(s, ps[j], 0).None?
  {
    if ps != [] {
      FirstPatternNone(s, ps[1..]);
      assert forall j | 1 <= j < |ps| :: ps[j] == ps[1..][j - 1];
    }
  }

  /** A prefix that is not empty and holds no white space, as every pattern's is. */
  predicate Plain(p: string) {
    p != [] && forall k | 0 <= k < |p| :: '!' <= p[k] <= '~'
  }

  /** No match starts on white space or at the very end. */
  lemma SpaceNeverMatches(s: string, p: string, j: nat)
    requires j <= |s| && Plain(p) && (j == |s| || IsJsSpace(s[j]))
    ensures MatchAt(s, p, j).None?
  {
    if j < |s| {
      assert Fold(s[j]) == s[j] && s[j] != p[0];
    }
  }

  /** A run of id characters inside `s[b..e]` is the run in `s`, when `s[e]` ends runs. */
  lemma {:induction false} RunLengthInSlice(s: string, b: nat, e: nat, j: nat)
    requires b <= j <= e <= |s| && (e == |s| || !IsIdChar(s[e]))
    ensures RunLength(s[b..e], j - b) == RunLength(s, j)
    decreases e - j
  {
    if j < e && IsIdChar(s[j]) {
      RunLengthInSlice(s, b, e, j + 1);
    }
  }

  /** A prefix that fits inside `s[b..e]` occurs there exactly when it occurs in `s`. */
  lemma PrefixInSlice(s: string, p: string, b: nat, e: nat, i: nat)
    requires b <= e <= |s| && b + i + |p| <= e
    ensures PrefixAt(s[b..e], p, i) <==> PrefixAt(s, p, b + i)
  {
    var t := s[b..e];
    forall k | 0 <= k < |p| ensures Fold(t[i + k]) == p[k] <==> Fold(s[b + i + k]) == p[k] {
      assert t[i + k] == s[b + i + k];
    }
  }

  /** A prefix that would run past `e` into white space occurs nowhere there. */
  lemma PrefixPastSlice(s: string, p: string, b: nat, e: nat, i: nat)
    requires b <= e <= |s| && i <= e - b && b + i + |p| > e && Plain(p)
    requires e == |s| || IsJsSpace(s[e])
    ensures !PrefixAt(s[b..e], p, i) && !PrefixAt(s, p, b + i)
  {
    if b + i + |p| <= |s| {
      var k := e - (b + i);
      assert Fold(s[b + i + k]) == s[e] && s[e] != p[k];
    }
  }

  /** A slice of a slice is a slice of the whole. */
  lemma SliceOfSlice(s: string, b: nat, e: nat, x: nat, y: nat)
    requires b <= e <= |s| && x <= y <= e - b
    ensures s[b..e][x..y] == s[b + x..b + y]
  {
    var t := s[b..e];
    forall z | 0 <= z < y - x ensures t[x..y][z] == s[b + x..b + y][z] {
      assert t[x + z] == s[b + x + z];
    }
  }

  /** Matching inside `s[b..e]` is matching in `s`, when only white space follows `e`. */
  lemma MatchInSlice(s: string, p: string, b: nat, e: nat, i: nat)
    requires b <= e <= |s| && i <= e - b && Plain(p)
    requires forall k | e <= k < |s| :: IsJsSpace(s[k])
    ensures MatchAt(s[b..e], p, i) == MatchAt(s, p, b + i)
  {
    var t := s[b..e];
    if b + i + |p| <= e {
      PrefixInSlice(s, p, b, e, i);
      RunLengthInSlice(s, b, e, b + i + |p|);
      var j := i + |p|;
      var n := RunLength(t, j);
      SliceOfSlice(s, b, e, j, j + n);
    } else {
      PrefixPastSlice(s, p, b, e, i);
    }
  }

  /** `s[b..e]` is `s` with white space only before `b` and from `e` on. */
  predicate Margins(s: string, b: nat, e: nat) {
    b <= e <= |s| && (forall k | 0 <= k < b :: IsJsSpace(s[k])) && (forall k | e <= k < |s| :: IsJsSpace(s[k]))
  }

  /** Outside the trimmed text no match starts. */
  lemma OutsideNeverMatches(s: string, p: string, b: nat, e: nat, j: nat)
    requires Margins(s, b, e) && j <= |s| && Plain(p) && (j < b || j >= e)
    ensures MatchAt(s, p, j).None?
  {
    SpaceNeverMatches(s, p, j);
  }

  /** No match before position `k` of the trimmed text means none before `b + k` in the whole text. */
  lemma NoMatchBefore(s: string, t: string, p: string, b: nat, e: nat, k: nat)
    requires Margins(s, b, e) && t == s[b..e] && k <= e - b && Plain(p)
    requires forall j | 0 <= j < k :: MatchAt(t, p, j).None?
    ensures forall j | 0 <= j < b + k :: MatchAt(s, p, j).None?
  {
    forall j | 0 <= j < b + k ensures MatchAt(s, p, j).None? {
      if j < b {
        OutsideNeverMatches(s, p, b, e, j);
      } else {
        MatchInSlice(s, p, b, e, j - b);
      }
    }
  }

  /** What the search finds in the trimmed text it finds in the whole text. */
  lemma TrimmedFound(s: string, t: string, p: string, b: nat, e: nat)
    requires Margins(s, b, e) && t == s[b..e] && Plain(p)
    requires Search(t, p, 0).Some?
    ensures Search(t, p, 0) == Search(s, p, 0)
  {
    var k := SearchFound(t, p, 0);
    MatchInSlice(s, p, b, e, k);
    NoMatchBefore(s, t, p, b, e, k);
    SearchIsLeftmost(s, p, 0, b + k);
  }

  /** When the search finds nothing in the trimmed text, it finds nothing in the whole text. */
  lemma TrimmedNone(s: string, t: string, p: string, b: nat, e: nat)
    requires Margins(s, b, e) && t == s[b..e] && Plain(p)
    requires Search(t, p, 0).None?
    ensures Search(s, p, 0).None?
  {
    SearchNone(t, p, 0);
    NoMatchBefore(s, t, p, b, e, e - b);
    forall j | e <= j <= |s| ensures MatchAt(s, p, j).None? {
      OutsideNeverMatches(s, p, b, e, j);
    }
    SearchNone(s, p, 0);
  }

  /** `trim()` never changes what a pattern finds. */
  lemma SearchIgnoresTrim(s: string, p: string)
    requires Plain(p)
    ensures Search(Trim(s), p, 0) == Search(s, p, 0)
  {
    var (b, e) := TrimBounds(s);
    var t := s[b..e];
    if Search(t, p, 0).Some? {
      TrimmedFound(s, t, p, b, e);
    } else {
      TrimmedNone(s, t, p, b, e);
    }
  }

  lemma {:induction false} FirstPatternIgnoresTrim(s: string, ps: seq<string>)
    requires forall k | 0 <= k < |ps| :: Plain(ps[k])
    ensures FirstPattern(Trim(s), ps) == FirstPattern(s, ps)
  {
    if ps != [] {
      SearchIgnoresTrim(s, ps[0]);
      FirstPatternIgnoresTrim(s, ps[1..]);
    }
  }

  /** The result is the same with or without the `trim()`: ids and patterns hold no white space. */
  lemma TrimIsIrrelevant(inputUrl: string)
    ensures ExtractYouTubeVideoId(inputUrl) == FirstPattern(inputUrl, Patterns)
  {
    assert Plain(Patterns[0]) && Plain(Patterns[1]) && Plain(Patterns[2]) && Plain(Patterns[3]) && Plain(Patterns[4]);
    FirstPatternIgnoresTrim(inputUrl, Patterns);
  }
}
