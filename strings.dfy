/**
 * The string operations of Rust's standard library that the pipeline relies on:
 * `split` at single characters, `join`, `replace`, `trim_matches`, `lines` and
 * `contains` on substrings. Strings are sequences of Unicode scalar values.
 */
module Strings {

  predicate NoneWhere(s: string, sep: char -> bool)
  {
    forall k :: 0 <= k < |s| ==> !sep(s[k])
  }

  /**
   * `s.split(pattern)` where the pattern matches single characters: every matching
   * character ends one piece and starts the next, so `n` separators give `n + 1`
   * pieces, empty ones included.
   */
  function SplitBy(s: string, sep: char -> bool): (r: seq<string>)
    ensures |r| >= 1
    ensures forall i :: 0 <= i < |r| ==> NoneWhere(r[i], sep)
  {
    if s == [] then [""]
    else
      var rest := SplitBy(s[1..], sep);
      if sep(s[0]) then [""] + rest
      else [[s[0]] + rest[0]] + rest[1..]
  }

  /** `s.split(c)` for one character `c`. */
  function Split(s: string, c: char): (r: seq<string>)
    ensures |r| >= 1
    ensures forall i :: 0 <= i < |r| ==> c !in r[i]
  {
    var r := SplitBy(s, x => x == c);
    assert forall i :: 0 <= i < |r| ==> NoneWhere(r[i], x => x == c);
    r
  }

  /** A string without separators is a single piece. */
  lemma {:induction false} SplitBySingle(s: string, sep: char -> bool)
    requires NoneWhere(s, sep)
    ensures SplitBy(s, sep) == [s]
  {
    if s != [] {
      assert !sep(s[0]);
      SplitBySingle(s[1..], sep);
      assert [s[0]] + s[1..] == s;
    }
  }

  /** Splitting distributes over a separator: the pieces on either side are kept apart. */
  lemma {:induction false} SplitByAt(a: string, c: char, b: string, sep: char -> bool)
    requires sep(c)
    ensures SplitBy(a + [c] + b, sep) == SplitBy(a, sep) + SplitBy(b, sep)
  {
    if a == [] {
      assert a + [c] + b == [c] + b;
      assert ([c] + b)[1..] == b;
    } else {
      assert (a + [c] + b)[1..] == a[1..] + [c] + b;
      SplitByAt(a[1..], c, b, sep);
    }
  }

  /** `parts.join(sep)` for a one-character separator. */
  function Join(parts: seq<string>, c: char): string
  {
    if |parts| == 0 then ""
    else if |parts| == 1 then parts[0]
    else parts[0] + [c] + Join(parts[1..], c)
  }

  /** Splitting a join at its separator gives back the parts, as long as no part holds the separator. */
  lemma {:induction false} SplitJoin(parts: seq<string>, c: char)
    requires |parts| >= 1
    requires forall i :: 0 <= i < |parts| ==> c !in parts[i]
    ensures Split(Join(parts, c), c) == parts
  {
    var eq := (x: char) => x == c;
    if |parts| == 1 {
      SplitBySingle(parts[0], eq);
    } else {
      SplitByAt(parts[0], c, Join(parts[1..], c), eq);
      SplitBySingle(parts[0], eq);
      SplitJoin(parts[1..], c);
      assert [parts[0]] + parts[1..] == parts;
    }
  }

  /** `pat` occurs somewhere in `s`: `s.contains(pat)`. */
  predicate Contains(s: string, pat: string)
  {
    exists i :: 0 <= i <= |s| - |pat| && OccursAt(s, pat, i)
  }

  predicate OccursAt(s: string, pat: string, i: int)
    requires 0 <= i <= |s| - |pat|
  {
    s[i..i + |pat|] == pat
  }

  /** `s.replace(pat, rep)`: every occurrence of `pat`, scanning left to right without overlap. */
  function Replace(s: string, pat: string, rep: string): string
    requires pat != []
    decreases |s|
  {
    if |s| < |pat| then s
    else if s[..|pat|] == pat then rep + Replace(s[|pat|..], pat, rep)
    else [s[0]] + Replace(s[1..], pat, rep)
  }

  /** A string that does not contain the pattern is left as it is. */
  lemma {:induction false} ReplaceAbsent(s: string, pat: string, rep: string)
    requires pat != [] && !Contains(s, pat)
    ensures Replace(s, pat, rep) == s
    decreases |s|
  {
    if |s| >= |pat| {
      assert !OccursAt(s, pat, 0);
      assert s[0..|pat|] == s[..|pat|];
      forall i | 0 <= i <= |s| - 1 - |pat| ensures !OccursAt(s[1..], pat, i) {
        assert s[1..][i..i + |pat|] == s[i + 1..i + 1 + |pat|];
        assert !OccursAt(s, pat, i + 1);
      }
      ReplaceAbsent(s[1..], pat, rep);
      assert [s[0]] + s[1..] == s;
    }
  }

  /** Replacing a pattern by itself changes nothing. */
  lemma {:induction false} ReplaceSelf(s: string, pat: string)
    requires pat != []
    ensures Replace(s, pat, pat) == s
    decreases |s|
  {
    if |s| >= |pat| {
      if s[..|pat|] == pat {
        ReplaceSelf(s[|pat|..], pat);
        assert s[..|pat|] + s[|pat|..] == s;
      } else {
        ReplaceSelf(s[1..], pat);
        assert [s[0]] + s[1..] == s;
      }
    }
  }

  /** A string made of the pattern, then text without the pattern, becomes the replacement followed by that text. */
  lemma PlaceholderFirst(pat: string, rep: string, rest: string)
    requires pat != [] && !Contains(rest, pat)
    ensures Replace(pat + rest, pat, rep) == rep + rest
  {
    assert (pat + rest)[..|pat|] == pat;
    assert (pat + rest)[|pat|..] == rest;
    ReplaceAbsent(rest, pat, rep);
  }

  /** An occurrence at the front is replaced and the scan goes on after it. */
  lemma ReplaceHit(pat: string, rep: string, b: string)
    requires pat != []
    ensures Replace(pat + b, pat, rep) == rep + Replace(b, pat, rep)
  {
    assert (pat + b)[..|pat|] == pat && (pat + b)[|pat|..] == b;
  }

  /** A first character that cannot start an occurrence is copied. */
  lemma ReplaceSkip(s: string, pat: string, rep: string)
    requires pat != [] && |s| >= |pat| && s[0] != pat[0]
    ensures Replace(s, pat, rep) == [s[0]] + Replace(s[1..], pat, rep)
  {
    assert s[..|pat|][0] == s[0];
  }

  /** Dropping the first character of a string without the pattern leaves a string without it. */
  lemma DropFirstAbsent(u: string, pat: string)
    requires u != [] && !Contains(u, pat)
    ensures !Contains(u[1..], pat)
  {
    forall i | 0 <= i <= |u[1..]| - |pat| ensures !OccursAt(u[1..], pat, i) {
      assert u[1..][i..i + |pat|] == u[i + 1..i + 1 + |pat|];
      assert !OccursAt(u, pat, i + 1);
    }
  }

  /** When no occurrence starts at the front of `a + pat + b`, its first character is copied. */
  lemma ReplaceStepFront(a: string, pat: string, rep: string, b: string)
    requires pat != [] && a != [] && !Contains(a + pat[..|pat| - 1], pat)
    ensures Replace(a + pat + b, pat, rep) == [a[0]] + Replace(a[1..] + pat + b, pat, rep)
    ensures !Contains(a[1..] + pat[..|pat| - 1], pat)
  {
    var s := a + pat + b;
    var u := a + pat[..|pat| - 1];
    assert s[..|pat|] == u[0..|pat|];
    assert !OccursAt(u, pat, 0);
    assert s[0] == a[0] && s[1..] == a[1..] + pat + b;
    DropFirstAbsent(u, pat);
    assert u[1..] == a[1..] + pat[..|pat| - 1];
  }

  /**
   * Text in which no occurrence starts is copied, and the first occurrence after it is
   * replaced: `a + pat + b` becomes `a + rep` followed by the replacement of `b`. No
   * occurrence starts inside `a` exactly when `a` followed by all but the last character
   * of `pat` does not contain `pat`.
   */
  lemma {:induction false} ReplaceStep(a: string, pat: string, rep: string, b: string)
    requires pat != [] && !Contains(a + pat[..|pat| - 1], pat)
    ensures Replace(a + pat + b, pat, rep) == a + rep + Replace(b, pat, rep)
    decreases |a|
  {
    if a == [] {
      assert a + pat + b == pat + b;
      ReplaceHit(pat, rep, b);
    } else {
      ReplaceStepFront(a, pat, rep, b);
      ReplaceStep(a[1..], pat, rep, b);
      assert [a[0]] + (a[1..] + rep + Replace(b, pat, rep)) == a + rep + Replace(b, pat, rep);
    }
  }

  /** The number of leading `c`s. */
  function LeadingRun(s: string, c: char): (n: nat)
    ensures n <= |s|
    ensures forall k :: 0 <= k < n ==> s[k] == c
    ensures n == |s| || s[n] != c
  {
    if s != [] && s[0] == c then
      var n := 1 + LeadingRun(s[1..], c);
      assert forall k :: 1 <= k < n ==> s[k] == s[1..][k - 1];
      n
    else 0
  }

  /** The number of trailing `c`s. */
  function TrailingRun(s: string, c: char): (n: nat)
    ensures n <= |s|
    ensures forall k :: |s| - n <= k < |s| ==> s[k] == c
    ensures n == |s| || s[|s| - n - 1] != c
  {
    if s != [] && s[|s| - 1] == c then
      var n := 1 + TrailingRun(s[..|s| - 1], c);
      assert forall k :: |s| - n <= k < |s| - 1 ==> s[k] == s[..|s| - 1][k];
      n
    else 0
  }

  /** `s.trim_start_matches(c)`. */
  function TrimStartMatches(s: string, c: char): string
  {
    s[LeadingRun(s, c)..]
  }

  /** `s.trim_end_matches(c)`. */
  function TrimEndMatches(s: string, c: char): string
  {
    s[..|s| - TrailingRun(s, c)]
  }

  /** `s.trim_matches(c)`: every leading and every trailing `c` removed. */
  function TrimMatches(s: string, c: char): string
  {
    TrimEndMatches(TrimStartMatches(s, c), c)
  }

  /**
   * The trimmed string is the infix of `s` between its leading run of `c` and the
   * trailing run of the rest: only the ends are stripped, interior occurrences are kept.
   */
  lemma TrimMatchesInfix(s: string, c: char)
    ensures var i := LeadingRun(s, c);
      var j := |s| - TrailingRun(s[i..], c);
      i <= j <= |s| && TrimMatches(s, c) == s[i..j]
  {
    var i := LeadingRun(s, c);
    var n := TrailingRun(s[i..], c);
    PrefixOfSuffix(s, i, |s| - i - n);
  }

  /** A prefix of a suffix is an infix. */
  lemma PrefixOfSuffix(s: string, i: nat, m: nat)
    requires i + m <= |s|
    ensures s[i..][..m] == s[i..i + m]
  {
  }

  /** Everything stripped from `s` is `c`: the characters before and after the kept infix. */
  lemma TrimMatchesStripsOnlyC(s: string, c: char)
    ensures var i := LeadingRun(s, c);
      var j := |s| - TrailingRun(s[i..], c);
      && (forall k :: 0 <= k < i ==> s[k] == c)
      && (forall k :: j <= k < |s| ==> s[k] == c)
  {
    var i := LeadingRun(s, c);
    var t := s[i..];
    var j := |s| - TrailingRun(t, c);
    forall k | j <= k < |s| ensures s[k] == c {
      assert s[k] == t[k - i];
    }
  }

  /** The trimmed string neither starts nor ends with `c`. */
  lemma TrimMatchesEnds(s: string, c: char)
    ensures var r := TrimMatches(s, c); r == [] || (r[0] != c && r[|r| - 1] != c)
  {
    var i := LeadingRun(s, c);
    var t := s[i..];
    var r := TrimMatches(s, c);
    assert r == t[..|t| - TrailingRun(t, c)];
    if r != [] {
      assert r[0] == t[0];
      assert r[|r| - 1] == t[|t| - TrailingRun(t, c) - 1];
    }
  }

  /** Trimming twice is the same as trimming once. */
  lemma TrimMatchesIdempotent(s: string, c: char)
    ensures TrimMatches(TrimMatches(s, c), c) == TrimMatches(s, c)
  {
    var r := TrimMatches(s, c);
    TrimMatchesEnds(s, c);
    assert LeadingRun(r, c) == 0;
    assert r[0..] == r;
    assert TrailingRun(r, c) == 0;
    assert r[..|r|] == r;
  }

  /**
   * `text.lines()`: pieces between line feeds; a line that ended with a line feed also
   * loses one trailing carriage return; an empty final piece (text ending in a line
   * feed, or empty text) is not a line.
   */
  function Lines(text: string): (r: seq<string>)
    ensures forall i :: 0 <= i < |r| ==> '\n' !in r[i]
  {
    LinesOfPieces(Split(text, '\n'))
  }

  /** The lines made of the pieces between line feeds. */
  function LinesOfPieces(pieces: seq<string>): (r: seq<string>)
    requires |pieces| >= 1
    requires forall i :: 0 <= i < |pieces| ==> '\n' !in pieces[i]
    ensures forall i :: 0 <= i < |r| ==> '\n' !in r[i]
  {
    var n := |pieces|;
    var ended := seq(n - 1, i requires 0 <= i < n - 1 => StripCarriageReturn(pieces[i]));
    var rest := if pieces[n - 1] == "" then [] else [pieces[n - 1]];
    ended + rest
  }

  function StripCarriageReturn(line: string): (r: string)
    ensures '\n' !in line ==> '\n' !in r
  {
    if line != [] && line[|line| - 1] == '\r' then line[..|line| - 1] else line
  }

  /** Lines joined back with line feeds give the text when the text has no carriage returns and does not end with a line feed. */
  lemma LinesJoin(lines: seq<string>)
    requires |lines| >= 1 && lines[|lines| - 1] != ""
    requires forall i :: 0 <= i < |lines| ==> '\n' !in lines[i] && '\r' !in lines[i]
    ensures Lines(Join(lines, '\n')) == lines
  {
    SplitJoin(lines, '\n');
    LinesOfCleanPieces(lines);
  }

  lemma LinesOfCleanPieces(lines: seq<string>)
    requires |lines| >= 1 && lines[|lines| - 1] != ""
    requires forall i :: 0 <= i < |lines| ==> '\n' !in lines[i] && '\r' !in lines[i]
    ensures LinesOfPieces(lines) == lines
  {
    var n := |lines|;
    var ended := seq(n - 1, i requires 0 <= i < n - 1 => StripCarriageReturn(lines[i]));
    forall i | 0 <= i < n - 1 ensures ended[i] == lines[i] {
      if lines[i] != [] {
        assert lines[i][|lines[i]| - 1] in lines[i];
      }
    }
    assert ended == lines[..n - 1];
    assert LinesOfPieces(lines) == ended + [lines[n - 1]];
    assert lines[..n - 1] + [lines[n - 1]] == lines;
  }
}
