/**
 * Cross-set deduplication: every word that occurs in all of the given word sets is
 * removed from each of them, in place, leaving each set's distinctive vocabulary.
 */
module Dedup {

  /** The words of `family[0]` that every set of the family contains: the family's intersection. */
  function Common(family: seq<set<string>>): (c: set<string>)
    requires |family| > 0
    ensures forall w :: w in c <==> forall i :: 0 <= i < |family| ==> w in family[i]
  {
    set w | w in family[0] && forall i :: 0 <= i < |family| ==> w in family[i]
  }

  /** The family after deduplication: each set loses the common words and nothing else. */
  function Deduped(family: seq<set<string>>): (r: seq<set<string>>)
    requires |family| > 0
    ensures |r| == |family|
  {
    seq(|family|, i requires 0 <= i < |family| => family[i] - Common(family))
  }

  /**
   * `sets.iter().all(|set| set.contains(word))`: whether every set contains `word`.
   */
  method AllContain(sets: array<set<string>>, word: string) returns (all: bool)
    ensures all <==> forall i :: 0 <= i < sets.Length ==> word in sets[i]
  {
    var i := 0;
    while i < sets.Length
      invariant 0 <= i <= sets.Length
      invariant forall j :: 0 <= j < i ==> word in sets[j]
    {
      if word !in sets[i] {
        return false;
      }
      i := i + 1;
    }
    return true;
  }

  /**
   * `dedup_sets`: collects the words of `sets[0]` found in every set, then removes each
   * of them from every set. Indexing `sets[0]` panics on an empty family, so at least
   * one set is required.
   */
  method DedupSets(sets: array<set<string>>)
    requires sets.Length > 0
    modifies sets
    ensures sets[..] == Deduped(old(sets[..]))
  {
    ghost var family := sets[..];
    var first := sets[0];
    var wordsInAll: set<string> := {};
    var todo := first;
    while todo != {}
      invariant todo <= first
      invariant sets[..] == family
      invariant wordsInAll == Common(family) * (first - todo)
      decreases todo
    {
      var word :| word in todo;
      var inAll := AllContain(sets, word);
      if inAll {
        wordsInAll := wordsInAll + {word};
      }
      todo := todo - {word};
    }
    assert wordsInAll == Common(family);

    var k := 0;
    while k < sets.Length
      invariant 0 <= k <= sets.Length
      invariant forall i :: 0 <= i < k ==> sets[i] == family[i] - wordsInAll
      invariant forall i :: k <= i < sets.Length ==> sets[i] == family[i]
    {
      var pending := wordsInAll;
      while pending != {}
        invariant pending <= wordsInAll
        invariant sets[k] == family[k] - (wordsInAll - pending)
        invariant forall i :: 0 <= i < k ==> sets[i] == family[i] - wordsInAll
        invariant forall i :: k < i < sets.Length ==> sets[i] == family[i]
        decreases pending
      {
        var word :| word in pending;
        sets[k] := sets[k] - {word};
        pending := pending - {word};
      }
      k := k + 1;
    }
  }

  /** After deduplication no set holds a word that was in every set. */
  lemma DedupedDropsCommon(family: seq<set<string>>, w: string, i: int)
    requires |family| > 0 && 0 <= i < |family|
    requires forall j :: 0 <= j < |family| ==> w in family[j]
    ensures w !in Deduped(family)[i]
  {
    assert w in Common(family);
    assert Deduped(family)[i] == family[i] - Common(family);
  }

  /**
   * A word that some set lacks survives in every set that held it: each set keeps exactly
   * its words that are not common to all.
   */
  lemma DedupedKeepsOthers(family: seq<set<string>>, w: string, i: int, missing: int)
    requires |family| > 0 && 0 <= i < |family| && 0 <= missing < |family|
    requires w in family[i] && w !in family[missing]
    ensures w in Deduped(family)[i]
  {
    assert w !in Common(family);
    assert Deduped(family)[i] == family[i] - Common(family);
  }

  /** Every set only shrinks. */
  lemma DedupedShrinks(family: seq<set<string>>)
    requires |family| > 0
    ensures forall i :: 0 <= i < |family| ==> Deduped(family)[i] <= family[i]
  {
    forall i | 0 <= i < |family| ensures Deduped(family)[i] <= family[i] {
      assert Deduped(family)[i] == family[i] - Common(family);
    }
  }

  /** A lone set is its own intersection, so it is emptied. */
  lemma DedupedSingle(s: set<string>)
    ensures Deduped([s]) == [{}]
  {
    assert Common([s]) == s;
    var d := Deduped([s]);
    assert |d| == 1 && d[0] == s - s;
    assert d[0] == {};
  }

  /** After deduplication nothing is common any more, so a second pass changes nothing. */
  lemma {:induction false} DedupedIdempotent(family: seq<set<string>>)
    requires |family| > 0
    ensures Common(Deduped(family)) == {}
    ensures Deduped(Deduped(family)) == Deduped(family)
  {
    var d := Deduped(family);
    var c := Common(family);
    forall i | 0 <= i < |family| ensures d[i] == family[i] - c {
    }
    forall w | w in d[0] ensures w !in Common(d) {
      assert w !in c;
      var i :| 0 <= i < |family| && w !in family[i];
      assert w !in d[i];
    }
    assert Common(d) == {};
    forall i | 0 <= i < |d| ensures Deduped(d)[i] == d[i] {
      assert Deduped(d)[i] == d[i] - Common(d);
    }
  }

  /** The repository's own test: only "hello", present in all three sets, is removed. */
  lemma DedupedExample()
    ensures Deduped([{"hello", "world", "foo"}, {"hello", "world"}, {"hello", "foo"}])
      == [{"world", "foo"}, {"world"}, {"foo"}]
  {
    var family := [{"hello", "world", "foo"}, {"hello", "world"}, {"hello", "foo"}];
    assert "world" !in family[2] && "foo" !in family[1];
    assert Common(family) == {"hello"};
    var d := Deduped(family);
    assert d[0] == family[0] - {"hello"};
    assert d[1] == family[1] - {"hello"};
    assert d[2] == family[2] - {"hello"};
    assert d[0] == {"world", "foo"} && d[1] == {"world"} && d[2] == {"foo"};
  }
}
