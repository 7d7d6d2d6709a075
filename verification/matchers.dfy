/** Hand-written matchers for the regular expressions the name normalizers
    compile. Go's `regexp` is RE2 with leftmost-first semantics; `.` does not
    match a newline and `\s` is `[\t\n\f\r ]`. Each matcher below follows the
    order in which that engine tries its alternatives. */
module Matchers {
  import opened Wrappers
  import opened Text

  // ---------------------------------------------------------------------------
  // invalidCharacters = [^a-zA-Z_ ][^a-zA-Z0-9_ ]*

  /** A character no match of `invalidCharacters` can start at or run over. */
  predicate IsNameChar(c: char) { IsLetter(c) || c == '_' || c == ' ' }

  /** A character a match of `invalidCharacters` stops in front of. */
  predicate IsNameTailChar(c: char) { IsNameChar(c) || IsDigit(c) }

  /** Length of the greedy `[^a-zA-Z0-9_ ]*` run at the start of `s`. */
  function InvalidTailLength(s: string): (n: nat)
    ensures n <= |s|
    ensures forall i :: 0 <= i < n ==> !IsNameTailChar(s[i])
    ensures n == |s| || IsNameTailChar(s[n])
  {
    if |s| > 0 && !IsNameTailChar(s[0]) then 1 + InvalidTailLength(s[1..]) else 0
  }

  /** `invalidCharacters.ReplaceAllLiteralString(s, "")`, literally: the text up
      to the leftmost match is kept, the match (one character outside
      `[a-zA-Z_ ]` and then the longest run of characters outside
      `[a-zA-Z0-9_ ]`) is deleted, and the scan resumes after it. */
  function RemoveInvalidCharacters(s: string): string
    decreases |s|
  {
    if |s| == 0 then ""
    else if IsNameChar(s[0]) then [s[0]] + RemoveInvalidCharacters(s[1..])
    else RemoveInvalidCharacters(s[1 + InvalidTailLength(s[1..])..])
  }

  /** The per-character reference: keep exactly the characters in `[a-zA-Z_ ]`. */
  function KeepNameChars(s: string): (r: string)
    ensures |r| <= |s|
    ensures forall i :: 0 <= i < |r| ==> IsNameChar(r[i])
  {
    if |s| == 0 then ""
    else if IsNameChar(s[0]) then [s[0]] + KeepNameChars(s[1..])
    else KeepNameChars(s[1..])
  }

  lemma {:induction false} KeepNameCharsAppend(a: string, b: string)
    ensures KeepNameChars(a + b) == KeepNameChars(a) + KeepNameChars(b)
    decreases |a|
  {
    if |a| > 0 {
      assert (a + b)[1..] == a[1..] + b;
      KeepNameCharsAppend(a[1..], b);
    } else {
      assert a + b == b;
    }
  }

  /** A string made only of characters in `[a-zA-Z_ ]` is kept whole. */
  lemma {:induction false} KeepNameCharsKeepsAll(s: string)
    requires forall i :: 0 <= i < |s| ==> IsNameChar(s[i])
    ensures KeepNameChars(s) == s
    decreases |s|
  {
    if |s| > 0 {
      KeepNameCharsKeepsAll(s[1..]);
    }
  }

  /** A string without any character in `[a-zA-Z_ ]` is dropped whole. */
  lemma {:induction false} KeepNameCharsDropsAll(s: string)
    requires forall i :: 0 <= i < |s| ==> !IsNameChar(s[i])
    ensures KeepNameChars(s) == ""
    decreases |s|
  {
    if |s| > 0 {
      KeepNameCharsDropsAll(s[1..]);
    }
  }

  /** The regex replacement deletes exactly the characters outside
      `[a-zA-Z_ ]`: a digit is only ever deleted as the first character of a
      match, and nothing in `[a-zA-Z_ ]` is ever inside one. */
  lemma {:induction false} RemoveInvalidCharactersIsFilter(s: string)
    ensures RemoveInvalidCharacters(s) == KeepNameChars(s)
    decreases |s|
  {
    if |s| == 0 {
    } else if IsNameChar(s[0]) {
      RemoveInvalidCharactersIsFilter(s[1..]);
    } else {
      var n := 1 + InvalidTailLength(s[1..]);
      assert s == s[..n] + s[n..];
      KeepNameCharsDropsAll(s[..n]);
      KeepNameCharsAppend(s[..n], s[n..]);
      RemoveInvalidCharactersIsFilter(s[n..]);
    }
  }

  // ---------------------------------------------------------------------------
  // spaceRegex = \s+, replaced by "_"

  /** Length of the greedy `\s*` run at the start of `s`. */
  function SpaceRunLength(s: string): (n: nat)
    ensures n <= |s|
    ensures forall i :: 0 <= i < n ==> IsRegexSpace(s[i])
    ensures n == |s| || !IsRegexSpace(s[n])
  {
    if |s| > 0 && IsRegexSpace(s[0]) then 1 + SpaceRunLength(s[1..]) else 0
  }

  /** No character of `s` is white space in the regex sense. */
  predicate NoRegexSpace(s: string) {
    forall i :: 0 <= i < |s| ==> !IsRegexSpace(s[i])
  }

  /** `spaceRegex.ReplaceAllLiteralString(s, "_")`: every maximal run of white
      space becomes one underscore; every other character is kept. */
  function ReplaceSpaceRuns(s: string): (r: string)
    decreases |s|
    ensures NoRegexSpace(r)
    ensures |r| <= |s|
  {
    if |s| == 0 then ""
    else if IsRegexSpace(s[0]) then "_" + ReplaceSpaceRuns(s[1 + SpaceRunLength(s[1..])..])
    else [s[0]] + ReplaceSpaceRuns(s[1..])
  }

  /** Text without white space passes through unchanged. */
  lemma {:induction false} ReplaceSpaceRunsFixes(s: string)
    requires NoRegexSpace(s)
    ensures ReplaceSpaceRuns(s) == s
    decreases |s|
  {
    if |s| > 0 {
      ReplaceSpaceRunsFixes(s[1..]);
    }
  }

  /** The run at the start of `gap + b` is exactly `gap` when `b` does not start
      with white space. */
  lemma {:induction false} SpaceRunOfGap(gap: string, b: string)
    requires forall i :: 0 <= i < |gap| ==> IsRegexSpace(gap[i])
    requires |b| == 0 || !IsRegexSpace(b[0])
    ensures SpaceRunLength(gap + b) == |gap|
    decreases |gap|
  {
    if |gap| == 0 {
      assert gap + b == b;
    } else {
      assert (gap + b)[1..] == gap[1..] + b;
      SpaceRunOfGap(gap[1..], b);
    }
  }

  /** A run of white space after a word without white space becomes exactly one
      underscore, and the text after the run is processed on its own. */
  lemma {:induction false} ReplaceSpaceRunsSplit(a: string, gap: string, b: string)
    requires NoRegexSpace(a)
    requires |gap| > 0 && forall i :: 0 <= i < |gap| ==> IsRegexSpace(gap[i])
    requires |b| == 0 || !IsRegexSpace(b[0])
    ensures ReplaceSpaceRuns(a + gap + b) == a + "_" + ReplaceSpaceRuns(b)
    decreases |a|
  {
    var s := a + gap + b;
    if |a| == 0 {
      assert s == gap + b;
      var t := s[1..];
      assert t == gap[1..] + b;
      SpaceRunOfGap(gap[1..], b);
      assert s[1 + SpaceRunLength(t)..] == b;
    } else {
      assert s[1..] == a[1..] + gap + b;
      ReplaceSpaceRunsSplit(a[1..], gap, b);
    }
  }

  // ---------------------------------------------------------------------------
  // The identifier clean-up shared by every variant

  /** An identifier character the normalizers can produce: `a-z` or `_`. */
  predicate IsIdentifierChar(c: char) { IsLower(c) || c == '_' }

  predicate IsIdentifier(s: string) {
    forall i :: 0 <= i < |s| ==> IsIdentifierChar(s[i])
  }

  /** Strip invalid characters, then turn white space into underscores. */
  function Clean(s: string): string {
    ReplaceSpaceRuns(RemoveInvalidCharacters(s))
  }

  /** The filter keeps no upper-case letter that was not there. */
  lemma {:induction false} KeepNameCharsNoUpper(s: string)
    requires NoUpper(s)
    ensures NoUpper(KeepNameChars(s))
    decreases |s|
  {
    if |s| > 0 {
      assert NoUpper(s[1..]);
      KeepNameCharsNoUpper(s[1..]);
    }
  }

  /** Lower-case name characters: what the filter leaves of text without
      upper-case letters. */
  predicate LowerNameChars(s: string) {
    forall i :: 0 <= i < |s| ==> IsNameChar(s[i]) && !IsUpper(s[i])
  }

  /** Replacing the blanks of lower-case name characters yields an identifier. */
  lemma {:induction false} ReplaceSpaceRunsYieldsIdentifier(s: string)
    requires LowerNameChars(s)
    ensures IsIdentifier(ReplaceSpaceRuns(s))
    decreases |s|
  {
    if |s| > 0 {
      if IsRegexSpace(s[0]) {
        var rest := s[1 + SpaceRunLength(s[1..])..];
        assert LowerNameChars(rest);
        ReplaceSpaceRunsYieldsIdentifier(rest);
      } else {
        assert LowerNameChars(s[1..]);
        ReplaceSpaceRunsYieldsIdentifier(s[1..]);
      }
    }
  }

  /** Applied to text without upper-case letters, the clean-up yields only
      `a-z` and `_`: the strip leaves `[a-z_ ]` and the spaces become `_`. */
  lemma CleanYieldsIdentifier(s: string)
    requires NoUpper(s)
    ensures IsIdentifier(Clean(s))
  {
    RemoveInvalidCharactersIsFilter(s);
    KeepNameCharsNoUpper(s);
    ReplaceSpaceRunsYieldsIdentifier(KeepNameChars(s));
  }

  /** The clean-up leaves an identifier as it is. */
  lemma CleanFixesIdentifier(s: string)
    requires IsIdentifier(s)
    ensures Clean(s) == s
  {
    RemoveInvalidCharactersIsFilter(s);
    KeepNameCharsKeepsAll(s);
    ReplaceSpaceRunsFixes(s);
  }

  // ---------------------------------------------------------------------------
  // cpuMetrics = cpu.*?(\d+)?.*

  /** What `cpuMetrics` says about a name: no match, a match whose group is
      empty, or a match whose group holds the core number. */
  datatype CpuMatch = NoCpu | AllCores | Core(number: string)

  /** `i` is where `w` first occurs in `s`. */
  predicate FirstOccurrence(s: string, w: string, i: nat) {
    OccursAt(s, w, i) && forall j: nat :: j < i ==> !OccursAt(s, w, j)
  }

  /** The leftmost match starts at the first `cpu`; `.*?` first tries to match
      nothing, and `(\d+)?` then takes the digits right after `cpu` if there are
      any, so the group is that digit run or is left unset. */
  function MatchCpu(name: string): (r: CpuMatch)
    ensures r.NoCpu? <==> !Contains(name, "cpu")
    ensures r.Core? ==> exists i: nat :: FirstOccurrence(name, "cpu", i) && r.number == DigitPrefix(name[i + 3..])
    ensures r.Core? ==> |r.number| > 0 && forall k :: 0 <= k < |r.number| ==> IsDigit(r.number[k])
    ensures r.AllCores? ==> exists i: nat :: FirstOccurrence(name, "cpu", i) && (i + 3 == |name| || !IsDigit(name[i + 3]))
  {
    match FindFrom(name, "cpu", 0)
    case None => NoCpu
    case Some(i) =>
      assert FirstOccurrence(name, "cpu", i);
      var digits := DigitPrefix(name[i + 3..]);
      if digits == "" then AllCores else Core(digits)
  }

  // ---------------------------------------------------------------------------
  // frameMetrics = framerate (.+?)%.?low

  const FramePrefix: string := "framerate "

  /** `%.?low` matches at index `q`: a percent sign, then optionally one
      character other than a newline, then `low`. */
  predicate FrameTailAt(s: string, q: nat) {
    q < |s| && s[q] == '%'
    && ((q + 1 < |s| && s[q + 1] != '\n' && OccursAt(s, "low", q + 2)) || OccursAt(s, "low", q + 1))
  }

  /** No newline in `s[from..to]`, so `.` can run over that stretch. */
  predicate NoNewline(s: string, from: nat, to: nat) {
    forall i :: from <= i < to && i < |s| ==> s[i] != '\n'
  }

  /** The whole regex matches starting at `p` with its group ending at `e`,
      that is, the group is `s[p + 10..e]`. */
  predicate FrameMatchAt(s: string, p: nat, e: nat) {
    && OccursAt(s, FramePrefix, p)
    && p + |FramePrefix| < e <= |s|
    && NoNewline(s, p + |FramePrefix|, e)
    && FrameTailAt(s, e)
  }

  /** The match the engine reports: leftmost start, then shortest group. */
  ghost predicate FirstFrameMatch(s: string, p: nat, e: nat) {
    && FrameMatchAt(s, p, e)
    && (forall p': nat, e': nat :: p' < p ==> !FrameMatchAt(s, p', e'))
    && (forall e': nat :: e' < e ==> !FrameMatchAt(s, p, e'))
  }

  /** The lazy group `.+?` that starts at `q`: the first end, at `e` or later,
      after which the tail matches, provided the group meets no newline. */
  function LazyGroupEnd(s: string, q: nat, e: nat): (r: Option<nat>)
    requires q < e
    requires NoNewline(s, q, e - 1)
    decreases |s| + 1 - e
    ensures r.Some? ==> e <= r.value <= |s| && FrameTailAt(s, r.value) && NoNewline(s, q, r.value)
    ensures r.Some? ==> forall j: nat :: e <= j < r.value ==> !FrameTailAt(s, j)
    ensures r.None? ==> forall j: nat :: e <= j <= |s| && NoNewline(s, q, j) ==> !FrameTailAt(s, j)
  {
    if e > |s| then None
    else if s[e - 1] == '\n' then
      assert forall j: nat :: e <= j ==> !NoNewline(s, q, j) by {
        forall j: nat | e <= j
          ensures !NoNewline(s, q, j)
        {
          assert q <= e - 1 < j;
        }
      }
      None
    else if FrameTailAt(s, e) then Some(e)
    else LazyGroupEnd(s, q, e + 1)
  }

  /** The leftmost start at or after `p`, with the end of the group found there. */
  function FrameSearch(s: string, p: nat): (r: Option<(nat, nat)>)
    decreases |s| + 1 - p
    ensures r.Some? ==> p <= r.value.0 && FrameMatchAt(s, r.value.0, r.value.1)
    ensures r.Some? ==> forall e': nat :: e' < r.value.1 ==> !FrameMatchAt(s, r.value.0, e')
    ensures r.Some? ==> forall p': nat, e': nat :: p <= p' < r.value.0 ==> !FrameMatchAt(s, p', e')
    ensures r.None? ==> forall p': nat, e': nat :: p <= p' ==> !FrameMatchAt(s, p', e')
  {
    if p + |FramePrefix| > |s| then None
    else if OccursAt(s, FramePrefix, p) then
      match LazyGroupEnd(s, p + |FramePrefix|, p + |FramePrefix| + 1)
      case Some(e) => Some((p, e))
      case None => FrameSearch(s, p + 1)
    else FrameSearch(s, p + 1)
  }

  /** The group of the first `frameMetrics` match, if the regex matches. */
  function MatchFrame(name: string): (r: Option<string>)
    ensures r.None? <==> forall p: nat, e: nat :: !FrameMatchAt(name, p, e)
    ensures r.Some? ==> exists p: nat, e: nat :: FirstFrameMatch(name, p, e)
                          && r.value == name[p + |FramePrefix|..e]
    ensures r.Some? ==> |r.value| > 0
  {
    match FrameSearch(name, 0)
    case None => None
    case Some((p, e)) =>
      assert FirstFrameMatch(name, p, e);
      Some(name[p + |FramePrefix|..e])
  }

  /** The reported match is unique. */
  lemma FirstFrameMatchUnique(s: string, p: nat, e: nat, p': nat, e': nat)
    requires FirstFrameMatch(s, p, e) && FirstFrameMatch(s, p', e')
    ensures p == p' && e == e'
  {
  }

  /** Without `framerate ` in the name the frame rule cannot fire. */
  lemma NoFramePrefixNoMatch(name: string)
    requires !Contains(name, FramePrefix)
    ensures MatchFrame(name) == None
  {
  }

  // ---------------------------------------------------------------------------
  // Literal alternation patterns (the GPU and blacklist lists)

  /** The shapes of the configured patterns: `(w1|w2|…)`, matched anywhere in
      the name, and `$w^` (end of text, then `w`, then start of text). */
  datatype Pattern = AnyOf(words: seq<string>) | EndThenStart(word: string)

  /** `MatchString` for the pattern. For `$w^` the end anchor fixes the position
      at `|s|`, `w` must then fit after it, and the start anchor demands that
      position be 0. */
  predicate Matches(p: Pattern, s: string) {
    match p
    case AnyOf(ws) => exists i :: 0 <= i < |ws| && Contains(s, ws[i])
    case EndThenStart(w) => OccursAt(s, w, |s|) && |s| + |w| == 0
  }

  /** Some pattern of the list matches. */
  predicate AnyMatches(ps: seq<Pattern>, s: string) {
    exists i :: 0 <= i < |ps| && Matches(ps[i], s)
  }

  /** `$w^` with a non-empty `w` never matches anything. */
  lemma EndThenStartNeverMatches(w: string, s: string)
    requires |w| > 0
    ensures !Matches(EndThenStart(w), s)
  {
  }
}
