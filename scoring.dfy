/**
 * Scoring orchestration: the words of the Google translation and of every ChatGPT
 * translation are extracted, the words common to all of these sets are removed from
 * each, and every set is scored as the mean Google Trends score of its words, the
 * Google set under both regions and each ChatGPT set under its prompt's region.
 *
 * The lookups run one after another here; the source issues them concurrently and
 * fails as soon as one fails, which the sequential order models as the first failure.
 */
module Scoring {
  import opened Wrappers
  import opened Regions
  import opened Floats
  import opened TrendCache
  import opened Tokens
  import opened Dedup
  import opened Translate

  datatype TranslationScores = TranslationScores(
    googleUkScore: Float,
    googleUsScore: Float,
    chatgptScores: map<string, Float>)

  /** Every word of `words` has a cached score in `region`. */
  predicate Covered(words: set<string>, region: Region, cache: map<ScoreKey, real>)
  {
    forall w :: w in words ==> ScoreKey(w, region) in cache
  }

  /** `later` keeps every score of `earlier`: the cache only grows. */
  predicate Extends(earlier: map<ScoreKey, real>, later: map<ScoreKey, real>)
  {
    forall k :: k in earlier ==> k in later && later[k] == earlier[k]
  }

  ghost function Pick(words: set<string>): string
    requires words != {}
  {
    var w :| w in words; w
  }

  /** The sum of the cached scores of `words` in `region`. */
  ghost function Total(words: set<string>, region: Region, cache: map<ScoreKey, real>): real
    requires Covered(words, region, cache)
    decreases words
  {
    if words == {} then 0.0
    else
      var w := Pick(words);
      cache[ScoreKey(w, region)] + Total(words - {w}, region, cache)
  }

  /** The sum does not depend on the order in which words are taken. */
  lemma {:induction false} TotalRemove(words: set<string>, region: Region, cache: map<ScoreKey, real>, x: string)
    requires Covered(words, region, cache) && x in words
    ensures Total(words, region, cache) == cache[ScoreKey(x, region)] + Total(words - {x}, region, cache)
    decreases words
  {
    var w := Pick(words);
    if w != x {
      TotalRemove(words - {w}, region, cache, x);
      TotalRemove(words - {x}, region, cache, w);
      assert words - {w} - {x} == words - {x} - {w};
    }
  }

  /** A larger cache gives the same sum. */
  lemma {:induction false} TotalExtends(words: set<string>, region: Region, earlier: map<ScoreKey, real>, later: map<ScoreKey, real>)
    requires Covered(words, region, earlier) && Extends(earlier, later)
    ensures Covered(words, region, later)
    ensures Total(words, region, later) == Total(words, region, earlier)
    decreases words
  {
    if words != {} {
      TotalExtends(words - {Pick(words)}, region, earlier, later);
    }
  }

  /** Adding one newly looked-up word to a partial sum, while the cache grows. */
  lemma TotalStep(done: set<string>, w: string, region: Region, before: map<ScoreKey, real>, after: map<ScoreKey, real>)
    requires Covered(done, region, before) && Extends(before, after)
    requires w !in done && ScoreKey(w, region) in after
    ensures Covered(done + {w}, region, after)
    ensures Total(done + {w}, region, after) == Total(done, region, before) + after[ScoreKey(w, region)]
  {
    TotalExtends(done, region, before, after);
    TotalRemove(done + {w}, region, after, w);
    assert done + {w} - {w} == done;
  }

  /** `n` copies of `a` added up. */
  ghost function Times(a: real, n: nat): real
  {
    if n == 0 then 0.0 else a + Times(a, n - 1)
  }

  lemma {:induction false} TimesIsProduct(a: real, n: nat)
    ensures Times(a, n) == a * n as real
  {
    if n > 0 {
      TimesIsProduct(a, n - 1);
      assert a * n as real == a * (n - 1) as real + a;
    }
  }

  /** Scores between `lo` and `hi` sum to between `lo` and `hi` times the number of words. */
  lemma {:induction false} TotalBounds(words: set<string>, region: Region, cache: map<ScoreKey, real>, lo: real, hi: real)
    requires Covered(words, region, cache)
    requires forall w :: w in words ==> lo <= cache[ScoreKey(w, region)] <= hi
    ensures Times(lo, |words|) <= Total(words, region, cache) <= Times(hi, |words|)
    decreases words
  {
    if words != {} {
      var w := Pick(words);
      var rest := words - {w};
      TotalBounds(rest, region, cache, lo, hi);
      assert |words| == |rest| + 1;
    }
  }

  lemma ExtendsTransitive(a: map<ScoreKey, real>, b: map<ScoreKey, real>, c: map<ScoreKey, real>)
    requires Extends(a, b) && Extends(b, c)
    ensures Extends(a, c)
  {
  }

  /** The score of a word set: the mean of its words' scores, or NaN (0/0) for no words. */
  ghost function Average(words: set<string>, region: Region, cache: map<ScoreKey, real>): Float
    requires Covered(words, region, cache)
  {
    if words == {} then NaN else Finite(Total(words, region, cache) / |words| as real)
  }

  /** The quotient `score_words` computes is the average, NaN included. */
  lemma MeanIsAverage(words: set<string>, region: Region, cache: map<ScoreKey, real>, sum: real)
    requires Covered(words, region, cache) && sum == Total(words, region, cache)
    ensures Div(sum, |words| as real) == Average(words, region, cache)
  {
  }

  /** Once its words are cached, a set's score no longer changes as the cache grows. */
  lemma AverageExtends(words: set<string>, region: Region, earlier: map<ScoreKey, real>, later: map<ScoreKey, real>)
    requires Covered(words, region, earlier) && Extends(earlier, later)
    ensures Covered(words, region, later)
    ensures Average(words, region, later) == Average(words, region, earlier)
  {
    TotalExtends(words, region, earlier, later);
  }

  /** The mean lies between the smallest and the largest score. */
  lemma AverageWithin(words: set<string>, region: Region, cache: map<ScoreKey, real>, lo: real, hi: real)
    requires Covered(words, region, cache) && words != {}
    requires forall w :: w in words ==> lo <= cache[ScoreKey(w, region)] <= hi
    ensures Average(words, region, cache).Finite?
    ensures lo <= Average(words, region, cache).v <= hi
  {
    TotalBounds(words, region, cache, lo, hi);
    TimesIsProduct(lo, |words|);
    TimesIsProduct(hi, |words|);
    QuotientBetween(lo, hi, Total(words, region, cache), |words| as real);
  }

  lemma QuotientBetween(lo: real, hi: real, t: real, n: real)
    requires n > 0.0 && lo * n <= t <= hi * n
    ensures lo <= t / n <= hi
  {
    var q := t / n;
    assert q * n == t;
    assert (q - lo) * n >= 0.0;
    assert (hi - q) * n >= 0.0;
  }

  /** A single word scores its own trend score. */
  lemma AverageSingle(w: string, region: Region, cache: map<ScoreKey, real>)
    requires ScoreKey(w, region) in cache
    ensures Covered({w}, region, cache)
    ensures Average({w}, region, cache) == Finite(cache[ScoreKey(w, region)])
  {
    assert Pick({w}) == w;
    assert {w} - {w} == {};
    assert Total({w}, region, cache) == cache[ScoreKey(w, region)] + Total({}, region, cache);
    assert |{w}| == 1;
  }

  /** One word's `Trends.Score` call, seen from the scoring loop: what it adds and what it keeps. */
  method LookUp(trends: Trends, w: string, region: Region, up: Upstream) returns (s: Result<real>)
    requires trends.Valid() && WellFormed(up)
    modifies trends
    ensures trends.Valid() && Extends(old(trends.cache), trends.cache)
    ensures s.Ok? ==> ScoreKey(w, region) in trends.cache && trends.cache[ScoreKey(w, region)] == s.value
    ensures s.Err? ==> ScoreKey(w, region) !in old(trends.cache)
    ensures ScoreKey(w, region) !in old(trends.cache) ==> s == MissResult(old(trends.db), ScoreKey(w, region), up)
    ensures Since(old(trends.cache), old(trends.db), trends.cache, trends.db, up)
  {
    s := trends.Score(w, region, up);
    SinceScore(old(trends.cache), old(trends.db), trends.cache, trends.db, ScoreKey(w, region), s, up);
  }

  /**
   * Some word of `words` has no score in `cache` and its lookup against the table
   * `db` fails: the read fails, or nothing is stored and the fetch or the store fails.
   */
  ghost predicate SomeLookupFails(words: set<string>, region: Region, cache: map<ScoreKey, real>, db: seq<Row>,
                                  up: Upstream)
  {
    WellFormed(up) && exists w :: w in words && ScoreKey(w, region) !in cache && MissResult(db, ScoreKey(w, region), up).Err?
  }

  /** A lookup that fails later in a run would already have failed at its start. */
  lemma FailsEarlier(words: set<string>, region: Region, cache0: map<ScoreKey, real>, db0: seq<Row>,
                     cache: map<ScoreKey, real>, db: seq<Row>, up: Upstream)
    requires Since(cache0, db0, cache, db, up) && SomeLookupFails(words, region, cache, db, up)
    ensures SomeLookupFails(words, region, cache0, db0, up)
  {
    var w :| w in words && ScoreKey(w, region) !in cache && MissResult(db, ScoreKey(w, region), up).Err?;
    SinceMiss(cache0, db0, cache, db, ScoreKey(w, region), up);
  }

  /** Words that all end up cached had no lookup that fails at the start: a failed key is never cached. */
  lemma CoveredNotFailing(words: set<string>, region: Region, cache0: map<ScoreKey, real>, db0: seq<Row>,
                          cache: map<ScoreKey, real>, db: seq<Row>, up: Upstream)
    requires Since(cache0, db0, cache, db, up) && Covered(words, region, cache)
    ensures !SomeLookupFails(words, region, cache0, db0, up)
  {
  }

  /** A lookup that fails at the start of a run still fails after it: a failed key is never cached. */
  lemma {:induction false} FailsLater(words: set<string>, region: Region, cache0: map<ScoreKey, real>, db0: seq<Row>,
                                      cache: map<ScoreKey, real>, db: seq<Row>, up: Upstream)
    requires Since(cache0, db0, cache, db, up) && SomeLookupFails(words, region, cache0, db0, up)
    ensures SomeLookupFails(words, region, cache, db, up)
  {
    var w :| w in words && ScoreKey(w, region) !in cache0 && MissResult(db0, ScoreKey(w, region), up).Err?;
    assert ScoreKey(w, region) !in cache;
    SinceMiss(cache0, db0, cache, db, ScoreKey(w, region), up);
  }

  lemma MoveOne<T>(all: set<T>, pending: set<T>, done: set<T>, x: T)
    requires pending <= all && done == all - pending && x in pending
    ensures pending - {x} <= all && done + {x} == all - (pending - {x})
  {
  }

  /**
   * The summing loop of `score_words`: every word's score in `region`, added up. The
   * first failing lookup ends the loop, and only a lookup that would already have
   * failed at the start can fail.
   */
  method SumScores(trends: Trends, words: set<string>, region: Region, up: Upstream) returns (r: Result<real>)
    requires trends.Valid() && WellFormed(up)
    modifies trends
    ensures trends.Valid() && Since(old(trends.cache), old(trends.db), trends.cache, trends.db, up)
    ensures r.Ok? ==> Covered(words, region, trends.cache) && r.value == Total(words, region, trends.cache)
    ensures r.Err? ==> SomeLookupFails(words, region, old(trends.cache), old(trends.db), up)
  {
    var sum := 0.0;
    ghost var done: set<string> := {};
    var pending := words;
    SinceStart(trends.cache, trends.db, up);
    while pending != {}
      invariant pending <= words && done == words - pending
      invariant trends.Valid() && Since(old(trends.cache), old(trends.db), trends.cache, trends.db, up)
      invariant Covered(done, region, trends.cache) && sum == Total(done, region, trends.cache)
      decreases pending
    {
      var w :| w in pending;
      ghost var before := trends.cache;
      ghost var beforeDb := trends.db;
      var s := LookUp(trends, w, region, up);
      SinceTransitive(old(trends.cache), old(trends.db), before, beforeDb, trends.cache, trends.db, up);
      if s.Err? {
        assert SomeLookupFails(words, region, before, beforeDb, up);
        FailsEarlier(words, region, old(trends.cache), old(trends.db), before, beforeDb, up);
        return Err(s.error);
      }
      TotalStep(done, w, region, before, trends.cache);
      MoveOne(words, pending, done, w);
      sum := sum + s.value;
      done := done + {w};
      pending := pending - {w};
    }
    assert done == words;
    r := Ok(sum);
  }

  /**
   * `score_words`: every word's score in `region`, summed and divided by the number
   * of words. The first failing lookup fails the whole call, with no partial mean, and
   * the call fails exactly when the lookup of some uncached word fails.
   */
  method ScoreWords(trends: Trends, words: set<string>, region: Region, up: Upstream) returns (r: Result<Float>)
    requires trends.Valid() && WellFormed(up)
    modifies trends
    ensures trends.Valid() && Extends(old(trends.cache), trends.cache)
    ensures r.Ok? ==> Covered(words, region, trends.cache) && r.value == Average(words, region, trends.cache)
    ensures Covered(words, region, old(trends.cache)) ==> r.Ok?
    ensures r.Err? <==> SomeLookupFails(words, region, old(trends.cache), old(trends.db), up)
    ensures Since(old(trends.cache), old(trends.db), trends.cache, trends.db, up)
  {
    var sum := SumScores(trends, words, region, up);
    if sum.Err? {
      return Err(sum.error);
    }
    CoveredNotFailing(words, region, old(trends.cache), old(trends.db), trends.cache, trends.db, up);
    MeanIsAverage(words, region, trends.cache, sum.value);
    r := Ok(Div(sum.value, |words| as real));
  }

  /** The lookup of some uncached word of some prompt's set fails. */
  ghost predicate ChatgptLookupFails(chatgpt: map<string, (set<string>, Region)>, cache: map<ScoreKey, real>,
                                     db: seq<Row>, up: Upstream)
  {
    exists name :: name in chatgpt && SomeLookupFails(chatgpt[name].0, chatgpt[name].1, cache, db, up)
  }

  /**
   * `score_chatgpt`: each prompt's word set scored under the prompt's region, kept
   * under the prompt's name. The first failure fails the whole map, and the map fails
   * exactly when the lookup of some uncached word of some set fails.
   */
  method ScoreChatgpt(trends: Trends, chatgpt: map<string, (set<string>, Region)>, up: Upstream)
    returns (r: Result<map<string, Float>>)
    requires trends.Valid() && WellFormed(up)
    modifies trends
    ensures trends.Valid() && Extends(old(trends.cache), trends.cache)
    ensures r.Ok? ==> r.value.Keys == chatgpt.Keys
    ensures r.Ok? ==> forall name :: name in chatgpt ==>
      && Covered(chatgpt[name].0, chatgpt[name].1, trends.cache)
      && r.value[name] == Average(chatgpt[name].0, chatgpt[name].1, trends.cache)
    ensures (forall name :: name in chatgpt ==> Covered(chatgpt[name].0, chatgpt[name].1, old(trends.cache))) ==> r.Ok?
    ensures r.Err? <==> ChatgptLookupFails(chatgpt, old(trends.cache), old(trends.db), up)
    ensures Since(old(trends.cache), old(trends.db), trends.cache, trends.db, up)
  {
    var scores: map<string, Float> := map[];
    var pending := chatgpt.Keys;
    SinceStart(trends.cache, trends.db, up);
    while pending != {}
      invariant pending <= chatgpt.Keys && scores.Keys == chatgpt.Keys - pending
      invariant trends.Valid() && Since(old(trends.cache), old(trends.db), trends.cache, trends.db, up)
      invariant forall name :: name in scores ==>
        && Covered(chatgpt[name].0, chatgpt[name].1, trends.cache)
        && scores[name] == Average(chatgpt[name].0, chatgpt[name].1, trends.cache)
      decreases pending
    {
      var name :| name in pending;
      var (words, region) := chatgpt[name];
      ghost var before := trends.cache;
      ghost var beforeDb := trends.db;
      var s := ScoreWords(trends, words, region, up);
      SinceTransitive(old(trends.cache), old(trends.db), before, beforeDb, trends.cache, trends.db, up);
      if s.Err? {
        FailsEarlier(words, region, old(trends.cache), old(trends.db), before, beforeDb, up);
        return Err(s.error);
      }
      forall other | other in scores
        ensures Covered(chatgpt[other].0, chatgpt[other].1, trends.cache)
        ensures scores[other] == Average(chatgpt[other].0, chatgpt[other].1, trends.cache)
      {
        AverageExtends(chatgpt[other].0, chatgpt[other].1, before, trends.cache);
      }
      scores := scores[name := s.value];
      pending := pending - {name};
    }
    forall name | name in chatgpt
      ensures !SomeLookupFails(chatgpt[name].0, chatgpt[name].1, old(trends.cache), old(trends.db), up)
    {
      CoveredNotFailing(chatgpt[name].0, chatgpt[name].1, old(trends.cache), old(trends.db), trends.cache, trends.db, up);
    }
    r := Ok(scores);
  }

  /** The words that the Google set and every ChatGPT set all contain. */
  function Shared(google: set<string>, chatgpt: map<string, (set<string>, Region)>): (s: set<string>)
    ensures forall w :: w in s <==> w in google && forall name :: name in chatgpt ==> w in chatgpt[name].0
  {
    set w | w in google && forall name :: name in chatgpt ==> w in chatgpt[name].0
  }

  /** The Google set once the shared words are removed. */
  function DistinctiveGoogle(google: set<string>, chatgpt: map<string, (set<string>, Region)>): set<string>
  {
    google - Shared(google, chatgpt)
  }

  /** The ChatGPT sets once the shared words are removed, each keeping its region. */
  function DistinctiveChatgpt(google: set<string>, chatgpt: map<string, (set<string>, Region)>)
    : (r: map<string, (set<string>, Region)>)
    ensures r.Keys == chatgpt.Keys
  {
    map name | name in chatgpt :: (chatgpt[name].0 - Shared(google, chatgpt), chatgpt[name].1)
  }

  /** A word every set contains is scored in none of them. */
  lemma DistinctiveDropsShared(google: set<string>, chatgpt: map<string, (set<string>, Region)>, w: string)
    requires w in google && forall name :: name in chatgpt ==> w in chatgpt[name].0
    ensures w !in DistinctiveGoogle(google, chatgpt)
    ensures forall name :: name in chatgpt ==> w !in DistinctiveChatgpt(google, chatgpt)[name].0
  {
  }

  /** A word that some ChatGPT set lacks is kept wherever it occurs. */
  lemma DistinctiveKeepsUnshared(google: set<string>, chatgpt: map<string, (set<string>, Region)>, w: string, missing: string)
    requires missing in chatgpt && w !in chatgpt[missing].0
    ensures w in google ==> w in DistinctiveGoogle(google, chatgpt)
    ensures forall name :: name in chatgpt && w in chatgpt[name].0 ==> w in DistinctiveChatgpt(google, chatgpt)[name].0
  {
  }

  /** With no prompts the Google set is compared only with itself, so it loses every word. */
  lemma NoPromptsEmptiesGoogle(google: set<string>)
    ensures DistinctiveGoogle(google, map[]) == {}
  {
  }

  /** Deduplicating again finds nothing more to remove. */
  lemma DistinctiveIdempotent(google: set<string>, chatgpt: map<string, (set<string>, Region)>)
    ensures var g := DistinctiveGoogle(google, chatgpt); var c := DistinctiveChatgpt(google, chatgpt);
      Shared(g, c) == {} && DistinctiveGoogle(g, c) == g && DistinctiveChatgpt(g, c) == c
  {
    var g := DistinctiveGoogle(google, chatgpt);
    var c := DistinctiveChatgpt(google, chatgpt);
    forall w | w in g ensures w !in Shared(g, c) {
      var name :| name in chatgpt && w !in chatgpt[name].0;
      assert w !in c[name].0;
    }
    assert Shared(g, c) == {};
    forall name | name in c ensures DistinctiveChatgpt(g, c)[name] == c[name] {
      assert c[name].0 - {} == c[name].0;
    }
  }

  /**
   * The family handed to `dedup_sets`, the Google set first and then the ChatGPT sets
   * in `names` order, has the shared words as its intersection.
   */
  lemma SharedIsCommon(google: set<string>, chatgpt: map<string, (set<string>, Region)>, names: seq<string>, family: seq<set<string>>)
    requires Enumerates(names, chatgpt.Keys)
    requires |family| == |names| + 1 && family[0] == google
    requires forall j :: 0 <= j < |names| ==> family[j + 1] == chatgpt[names[j]].0
    ensures Common(family) == Shared(google, chatgpt)
  {
    forall w | w in Shared(google, chatgpt) ensures w in Common(family) {
      forall i | 0 <= i < |family| ensures w in family[i] {
        if i > 0 {
          assert names[i - 1] in chatgpt;
        }
      }
    }
    forall w | w in Common(family) ensures w in Shared(google, chatgpt) {
      forall name | name in chatgpt ensures w in chatgpt[name].0 {
        var j :| 0 <= j < |names| && names[j] == name;
        assert w in family[j + 1];
      }
    }
  }

  /** The array handed to `dedup_sets`: the Google set, then the ChatGPT sets in `names` order. */
  method BuildFamily(google: set<string>, chatgpt: map<string, (set<string>, Region)>, names: seq<string>)
    returns (sets: array<set<string>>)
    requires forall j :: 0 <= j < |names| ==> names[j] in chatgpt
    ensures fresh(sets) && sets.Length == |names| + 1
    ensures sets[0] == google
    ensures forall j :: 0 <= j < |names| ==> sets[j + 1] == chatgpt[names[j]].0
  {
    sets := new set<string>[|names| + 1];
    sets[0] := google;
    var i := 0;
    while i < |names|
      invariant 0 <= i <= |names|
      invariant sets[0] == google
      invariant forall j :: 0 <= j < i ==> sets[j + 1] == chatgpt[names[j]].0
    {
      sets[i + 1] := chatgpt[names[i]].0;
      i := i + 1;
    }
  }

  /** Each deduplicated set read back under its prompt name, keeping the prompt's region. */
  method ReadBack(chatgpt: map<string, (set<string>, Region)>, names: seq<string>, sets: seq<set<string>>)
    returns (out: map<string, (set<string>, Region)>)
    requires Enumerates(names, chatgpt.Keys) && |sets| == |names| + 1
    ensures out.Keys == chatgpt.Keys
    ensures forall j :: 0 <= j < |names| ==> out[names[j]] == (sets[j + 1], chatgpt[names[j]].1)
  {
    out := chatgpt;
    var i := 0;
    while i < |names|
      invariant 0 <= i <= |names|
      invariant out.Keys == chatgpt.Keys
      invariant forall j :: 0 <= j < i ==> out[names[j]] == (sets[j + 1], chatgpt[names[j]].1)
      invariant forall j :: i <= j < |names| ==> out[names[j]] == chatgpt[names[j]]
    {
      out := out[names[i] := (sets[i + 1], out[names[i]].1)];
      i := i + 1;
    }
  }

  /**
   * The in-place step of `score_translations`: the Google set and the ChatGPT sets, in
   * the map's order, are handed to `dedup_sets` together, and each set is read back
   * under its own prompt name with its region.
   */
  method DedupTranslations(google: set<string>, chatgpt: map<string, (set<string>, Region)>)
    returns (googleOut: set<string>, chatgptOut: map<string, (set<string>, Region)>)
    ensures googleOut == DistinctiveGoogle(google, chatgpt)
    ensures chatgptOut == DistinctiveChatgpt(google, chatgpt)
  {
    var names := ListKeys(chatgpt.Keys);
    var sets := BuildFamily(google, chatgpt, names);
    ghost var family := sets[..];
    SharedIsCommon(google, chatgpt, names, family);
    DedupSets(sets);
    assert sets[0] == Deduped(family)[0];
    googleOut := sets[0];
    chatgptOut := ReadBack(chatgpt, names, sets[..]);
    forall name | name in chatgptOut ensures chatgptOut[name] == DistinctiveChatgpt(google, chatgpt)[name] {
      var j :| 0 <= j < |names| && names[j] == name;
      assert sets[j + 1] == Deduped(family)[j + 1];
    }
  }

  /** The Google word set that is scored: extracted, then stripped of the words every translation shares. */
  function GoogleWords(translations: Translations, functionWords: set<string>): set<string>
  {
    DistinctiveGoogle(Extract(translations.google, functionWords), ExtractChatgpt(translations.chatgpt, functionWords))
  }

  /** The ChatGPT word sets that are scored, each with its prompt's region. */
  function ChatgptWords(translations: Translations, functionWords: set<string>): (r: map<string, (set<string>, Region)>)
    ensures r.Keys == translations.chatgpt.Keys
  {
    DistinctiveChatgpt(Extract(translations.google, functionWords), ExtractChatgpt(translations.chatgpt, functionWords))
  }

  /** Every word that `score_translations` looks up has a score in `cache`. */
  ghost predicate AllCovered(translations: Translations, functionWords: set<string>, cache: map<ScoreKey, real>)
  {
    var google := GoogleWords(translations, functionWords);
    var chatgpt := ChatgptWords(translations, functionWords);
    && Covered(google, America, cache)
    && Covered(google, Britain, cache)
    && forall name :: name in chatgpt ==> Covered(chatgpt[name].0, chatgpt[name].1, cache)
  }

  /**
   * `s` holds the scores of `translations` over `cache`: the Google set's average under
   * America and under Britain, and each ChatGPT set's average under its own region.
   */
  ghost predicate ScoredFrom(s: TranslationScores, translations: Translations, functionWords: set<string>,
                             cache: map<ScoreKey, real>)
  {
    var google := GoogleWords(translations, functionWords);
    var chatgpt := ChatgptWords(translations, functionWords);
    && AllCovered(translations, functionWords, cache)
    && s.googleUsScore == Average(google, America, cache)
    && s.googleUkScore == Average(google, Britain, cache)
    && s.chatgptScores.Keys == translations.chatgpt.Keys
    && forall name :: name in chatgpt ==> s.chatgptScores[name] == Average(chatgpt[name].0, chatgpt[name].1, cache)
  }

  /** Scores stay the scores of their translation as the cache grows: cached scores never change. */
  lemma ScoredFromExtends(s: TranslationScores, translations: Translations, functionWords: set<string>,
                          earlier: map<ScoreKey, real>, later: map<ScoreKey, real>)
    requires ScoredFrom(s, translations, functionWords, earlier) && Extends(earlier, later)
    ensures ScoredFrom(s, translations, functionWords, later)
  {
    var google := GoogleWords(translations, functionWords);
    var chatgpt := ChatgptWords(translations, functionWords);
    AverageExtends(google, America, earlier, later);
    AverageExtends(google, Britain, earlier, later);
    forall name | name in chatgpt
      ensures Covered(chatgpt[name].0, chatgpt[name].1, later)
      ensures s.chatgptScores[name] == Average(chatgpt[name].0, chatgpt[name].1, later)
    {
      AverageExtends(chatgpt[name].0, chatgpt[name].1, earlier, later);
    }
  }

  /**
   * The lookup of some uncached word fails in one of the scorings `score_translations`
   * performs: the Google set under America or under Britain, or a ChatGPT set under
   * its prompt's region.
   */
  ghost predicate ScoringFails(translations: Translations, functionWords: set<string>, cache: map<ScoreKey, real>,
                               db: seq<Row>, up: Upstream)
  {
    var google := GoogleWords(translations, functionWords);
    || SomeLookupFails(google, America, cache, db, up)
    || SomeLookupFails(google, Britain, cache, db, up)
    || ChatgptLookupFails(ChatgptWords(translations, functionWords), cache, db, up)
  }

  /**
   * `score_translations`: extraction, deduplication of the Google set together with
   * every ChatGPT set, then the Google set scored under America and under Britain and
   * each ChatGPT set under its own region. Any failed lookup fails the whole scoring,
   * and only a failed lookup does.
   */
  method ScoreTranslations(trends: Trends, translations: Translations, functionWords: set<string>, up: Upstream)
    returns (r: Result<TranslationScores>)
    requires trends.Valid() && WellFormed(up)
    modifies trends
    ensures trends.Valid() && Extends(old(trends.cache), trends.cache)
    ensures r.Ok? ==> ScoredFrom(r.value, translations, functionWords, trends.cache)
    ensures AllCovered(translations, functionWords, old(trends.cache)) ==> r.Ok?
    ensures r.Err? <==> ScoringFails(translations, functionWords, old(trends.cache), old(trends.db), up)
    ensures Since(old(trends.cache), old(trends.db), trends.cache, trends.db, up)
  {
    var google, chatgpt := DedupTranslations(
      Extract(translations.google, functionWords),
      ExtractChatgpt(translations.chatgpt, functionWords));
    assert google == GoogleWords(translations, functionWords);
    assert chatgpt == ChatgptWords(translations, functionWords);
    ghost var start, startDb := trends.cache, trends.db;

    var us := ScoreWords(trends, google, America, up);
    if us.Err? {
      return Err(us.error);
    }
    ghost var afterUs, afterUsDb := trends.cache, trends.db;
    var uk := ScoreWords(trends, google, Britain, up);
    SinceTransitive(start, startDb, afterUs, afterUsDb, trends.cache, trends.db, up);
    if uk.Err? {
      FailsEarlier(google, Britain, start, startDb, afterUs, afterUsDb, up);
      return Err(uk.error);
    }
    ghost var afterUk, afterUkDb := trends.cache, trends.db;
    var scores := ScoreChatgpt(trends, chatgpt, up);
    SinceTransitive(start, startDb, afterUk, afterUkDb, trends.cache, trends.db, up);
    if scores.Err? {
      ChatgptFailsEarlier(chatgpt, start, startDb, afterUk, afterUkDb, up);
      return Err(scores.error);
    }
    AverageExtends(google, America, afterUs, afterUk);
    AverageExtends(google, America, afterUk, trends.cache);
    AverageExtends(google, Britain, afterUk, trends.cache);
    r := Ok(TranslationScores(uk.value, us.value, scores.value));
    assert ScoredFrom(r.value, translations, functionWords, trends.cache);
    ScoredNotFailing(r.value, translations, functionWords, start, startDb, trends.cache, trends.db, up);
  }

  /** A ChatGPT lookup that fails later in a run would already have failed at its start. */
  lemma ChatgptFailsEarlier(chatgpt: map<string, (set<string>, Region)>, cache0: map<ScoreKey, real>, db0: seq<Row>,
                            cache: map<ScoreKey, real>, db: seq<Row>, up: Upstream)
    requires Since(cache0, db0, cache, db, up) && ChatgptLookupFails(chatgpt, cache, db, up)
    ensures ChatgptLookupFails(chatgpt, cache0, db0, up)
  {
    var name :| name in chatgpt && SomeLookupFails(chatgpt[name].0, chatgpt[name].1, cache, db, up);
    FailsEarlier(chatgpt[name].0, chatgpt[name].1, cache0, db0, cache, db, up);
  }

  /** Scores that were computed rule out any lookup of theirs having failed at the start. */
  lemma ScoredNotFailing(s: TranslationScores, translations: Translations, functionWords: set<string>,
                         cache0: map<ScoreKey, real>, db0: seq<Row>, cache: map<ScoreKey, real>, db: seq<Row>,
                         up: Upstream)
    requires Since(cache0, db0, cache, db, up) && ScoredFrom(s, translations, functionWords, cache)
    ensures !ScoringFails(translations, functionWords, cache0, db0, up)
  {
    var google := GoogleWords(translations, functionWords);
    var chatgpt := ChatgptWords(translations, functionWords);
    CoveredNotFailing(google, America, cache0, db0, cache, db, up);
    CoveredNotFailing(google, Britain, cache0, db0, cache, db, up);
    forall name | name in chatgpt
      ensures !SomeLookupFails(chatgpt[name].0, chatgpt[name].1, cache0, db0, up)
    {
      CoveredNotFailing(chatgpt[name].0, chatgpt[name].1, cache0, db0, cache, db, up);
    }
  }

  /** A ChatGPT lookup that fails at the start of a run still fails after it. */
  lemma {:induction false} ChatgptFailsLater(chatgpt: map<string, (set<string>, Region)>, cache0: map<ScoreKey, real>,
                                             db0: seq<Row>, cache: map<ScoreKey, real>, db: seq<Row>, up: Upstream)
    requires Since(cache0, db0, cache, db, up) && ChatgptLookupFails(chatgpt, cache0, db0, up)
    ensures ChatgptLookupFails(chatgpt, cache, db, up)
  {
    var name :| name in chatgpt && SomeLookupFails(chatgpt[name].0, chatgpt[name].1, cache0, db0, up);
    FailsLater(chatgpt[name].0, chatgpt[name].1, cache0, db0, cache, db, up);
  }

  /** Whether the lookup of some word of a set fails is the same at any point of a run. */
  lemma FailsSince(words: set<string>, region: Region, cache0: map<ScoreKey, real>, db0: seq<Row>,
                   cache: map<ScoreKey, real>, db: seq<Row>, up: Upstream)
    requires Since(cache0, db0, cache, db, up)
    ensures SomeLookupFails(words, region, cache, db, up) <==> SomeLookupFails(words, region, cache0, db0, up)
  {
    if SomeLookupFails(words, region, cache, db, up) {
      FailsEarlier(words, region, cache0, db0, cache, db, up);
    }
    if SomeLookupFails(words, region, cache0, db0, up) {
      FailsLater(words, region, cache0, db0, cache, db, up);
    }
  }

  /** Whether some ChatGPT lookup fails is the same at any point of a run. */
  lemma ChatgptFailsSince(chatgpt: map<string, (set<string>, Region)>, cache0: map<ScoreKey, real>, db0: seq<Row>,
                          cache: map<ScoreKey, real>, db: seq<Row>, up: Upstream)
    requires Since(cache0, db0, cache, db, up)
    ensures ChatgptLookupFails(chatgpt, cache, db, up) <==> ChatgptLookupFails(chatgpt, cache0, db0, up)
  {
    if ChatgptLookupFails(chatgpt, cache, db, up) {
      ChatgptFailsEarlier(chatgpt, cache0, db0, cache, db, up);
    }
    if ChatgptLookupFails(chatgpt, cache0, db0, up) {
      ChatgptFailsLater(chatgpt, cache0, db0, cache, db, up);
    }
  }

  /**
   * Whether scoring a row's translations fails is the same at any point of a run of
   * lookups: earlier rows never make a later row's scoring fail or succeed.
   */
  lemma ScoringFailsSince(translations: Translations, functionWords: set<string>, cache0: map<ScoreKey, real>,
                          db0: seq<Row>, cache: map<ScoreKey, real>, db: seq<Row>, up: Upstream)
    requires Since(cache0, db0, cache, db, up)
    ensures ScoringFails(translations, functionWords, cache, db, up)
        <==> ScoringFails(translations, functionWords, cache0, db0, up)
  {
    var google := GoogleWords(translations, functionWords);
    FailsSince(google, America, cache0, db0, cache, db, up);
    FailsSince(google, Britain, cache0, db0, cache, db, up);
    ChatgptFailsSince(ChatgptWords(translations, functionWords), cache0, db0, cache, db, up);
  }
}
