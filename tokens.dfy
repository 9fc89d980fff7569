/**
 * Word extraction: a translated text becomes the set of its content words, split at
 * whitespace and `,.:;[](){}`, lowercased, and stripped of empty pieces, pieces with
 * anything but letters and apostrophes, and function words.
 *
 * Letters and case are ASCII here: `is_alphabetic` and `to_lowercase` are not
 * modelled beyond `A`-`Z` and `a`-`z`. Whitespace is Unicode's White_Space set.
 */
module Tokens {
  import opened Strings
  import opened Regions

  /** Unicode White_Space, the characters the regex class `\s` matches. */
  predicate IsWhitespace(c: char)
  {
    || ('\U{0009}' <= c <= '\U{000D}') || c == ' ' || c == '\U{0085}' || c == '\U{00A0}'
    || c == '\U{1680}' || ('\U{2000}' <= c <= '\U{200A}') || c == '\U{2028}' || c == '\U{2029}'
    || c == '\U{202F}' || c == '\U{205F}' || c == '\U{3000}'
  }

  /** A token boundary: whitespace or one of `, . : ; [ ] ( ) { }`. */
  predicate IsSeparator(c: char)
  {
    IsWhitespace(c) || c in ",.:;[](){}"
  }

  predicate IsAlphabetic(c: char)
  {
    ('a' <= c <= 'z') || ('A' <= c <= 'Z')
  }

  predicate IsWordChar(c: char)
  {
    IsAlphabetic(c) || c == '\''
  }

  function LowerChar(c: char): (r: char)
    ensures IsAlphabetic(c) <==> IsAlphabetic(r)
    ensures IsSeparator(c) <==> IsSeparator(r)
    ensures !('A' <= r <= 'Z')
    ensures !IsAlphabetic(c) ==> r == c
  {
    if 'A' <= c <= 'Z' then (c as int + 32) as char else c
  }

  /** `str::to_lowercase` on ASCII letters; every other character is kept. */
  function Lower(s: string): (r: string)
    ensures |r| == |s|
    ensures forall k :: 0 <= k < |s| ==> r[k] == LowerChar(s[k])
  {
    seq(|s|, k requires 0 <= k < |s| => LowerChar(s[k]))
  }

  function TrimStartWhitespace(s: string): (r: string)
    ensures |r| <= |s| && r == s[|s| - |r|..]
  {
    if s != [] && IsWhitespace(s[0]) then TrimStartWhitespace(s[1..]) else s
  }

  function TrimEndWhitespace(s: string): (r: string)
    ensures |r| <= |s| && r == s[..|r|]
  {
    if s != [] && IsWhitespace(s[|s| - 1]) then TrimEndWhitespace(s[..|s| - 1]) else s
  }

  /** `str::trim`: leading and trailing whitespace removed. */
  function Trim(s: string): (r: string)
    ensures forall k :: 0 <= k < |r| ==> r[k] in s
  {
    var t := TrimStartWhitespace(s);
    var r := TrimEndWhitespace(t);
    assert forall k :: 0 <= k < |r| ==> r[k] == t[k] == s[|s| - |t| + k];
    r
  }

  /** The pieces `regex.split` returns for the separator class. */
  function Pieces(text: string): (r: seq<string>)
    ensures forall i :: 0 <= i < |r| ==> NoneWhere(r[i], IsSeparator)
  {
    SplitBy(text, IsSeparator)
  }

  /** The candidate word a piece becomes: trimmed and lowercased. */
  function Normalize(piece: string): (w: string)
    ensures NoneWhere(piece, IsSeparator) ==> NoneWhere(w, IsSeparator)
  {
    var t := Trim(piece);
    var w := Lower(t);
    assert NoneWhere(piece, IsSeparator) ==> NoneWhere(w, IsSeparator) by {
      if NoneWhere(piece, IsSeparator) {
        forall k | 0 <= k < |w| ensures !IsSeparator(w[k]) {
          assert t[k] in piece;
          assert w[k] == LowerChar(t[k]);
        }
      }
    }
    w
  }

  /** A candidate is kept when it is non-empty, all letters or apostrophes, and no function word. */
  predicate Keep(w: string, functionWords: set<string>)
  {
    && w != ""
    && (forall k :: 0 <= k < |w| ==> IsWordChar(w[k]))
    && w !in functionWords
  }

  /** `extract`: the set of kept candidates of the text's pieces. */
  function Extract(text: string, functionWords: set<string>): (r: set<string>)
    ensures forall w :: w in r ==> Keep(w, functionWords)
    ensures forall w :: w in r ==> Lower(w) == w
    ensures forall w :: w in r ==> NoneWhere(w, IsSeparator)
    ensures forall w :: w in r ==> exists p :: p in Pieces(text) && Normalize(p) == w
    ensures forall p :: p in Pieces(text) && Keep(Normalize(p), functionWords) ==> Normalize(p) in r
  {
    var ps := Pieces(text);
    var r := set p | p in ps && Keep(Normalize(p), functionWords) :: Normalize(p);
    forall w | w in r ensures Lower(w) == w {
      var p :| p in ps && Normalize(p) == w;
      LowerIdempotent(Trim(p));
    }
    r
  }

  lemma LowerIdempotent(s: string)
    ensures Lower(Lower(s)) == Lower(s)
  {
  }

  /**
   * Extraction splits at any separator: the words of a text are those of the parts on
   * either side of one of its separators.
   */
  lemma ExtractAt(a: string, c: char, b: string, functionWords: set<string>)
    requires IsSeparator(c)
    ensures Extract(a + [c] + b, functionWords) == Extract(a, functionWords) + Extract(b, functionWords)
  {
    SplitByAt(a, c, b, IsSeparator);
    var pa, pb := Pieces(a), Pieces(b);
    assert Pieces(a + [c] + b) == pa + pb;
    forall p ensures p in pa + pb <==> p in pa || p in pb {
    }
  }

  /**
   * `extract_chatgpt`: each prompt's translation is replaced by its word set, under the
   * same prompt name and with the same region.
   */
  function ExtractChatgpt(chatgpt: map<string, (string, Region)>, functionWords: set<string>)
    : (r: map<string, (set<string>, Region)>)
    ensures r.Keys == chatgpt.Keys
    ensures forall name :: name in r ==> r[name].1 == chatgpt[name].1
    ensures forall name :: name in r ==> r[name].0 == Extract(chatgpt[name].0, functionWords)
  {
    map name | name in chatgpt :: (Extract(chatgpt[name].0, functionWords), chatgpt[name].1)
  }
}
