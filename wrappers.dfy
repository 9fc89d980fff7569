/** Failure-carrying values and a few facts about collections shared by every module. */
module Wrappers {

  /** The largest `usize` on a 64-bit target. */
  const UsizeMax: nat := 0xFFFF_FFFF_FFFF_FFFF

  datatype Option<+T> = None | Some(value: T)

  /** The outcome of a fallible operation: `Err` carries a description of what went wrong. */
  datatype Result<+T> = Ok(value: T) | Err(error: string)

  /** No element occurs twice in `s`. */
  predicate Distinct<T(==)>(s: seq<T>)
  {
    forall i, j :: 0 <= i < j < |s| ==> s[i] != s[j]
  }

  /**
   * `s` lists every element of `keys` exactly once: the order in which a hash map
   * hands out its keys. The order itself is not known, so callers receive it as data.
   */
  predicate Enumerates<T(==)>(s: seq<T>, keys: set<T>)
  {
    Distinct(s) && (forall i :: 0 <= i < |s| ==> s[i] in keys) && (forall x :: x in keys ==> x in s)
  }

  /** An enumeration is exactly as long as the set it enumerates. */
  lemma {:induction false} EnumerationLength<T>(s: seq<T>, keys: set<T>)
    requires Enumerates(s, keys)
    ensures |s| == |keys|
  {
    if s != [] {
      var last := s[|s| - 1];
      var init := s[..|s| - 1];
      forall i | 0 <= i < |init| ensures init[i] in keys - {last} {
        assert init[i] == s[i];
      }
      forall x | x in keys - {last} ensures x in init {
        var i :| 0 <= i < |s| && s[i] == x;
        assert i != |s| - 1;
        assert init[i] == x;
      }
      EnumerationLength(init, keys - {last});
    }
  }

  /** Lists the elements of `keys` in some order, as iterating over a hash map does. */
  method ListKeys<T>(keys: set<T>) returns (s: seq<T>)
    ensures Enumerates(s, keys)
  {
    s := [];
    var rest := keys;
    while rest != {}
      invariant rest <= keys
      invariant Distinct(s)
      invariant forall i :: 0 <= i < |s| ==> s[i] in keys && s[i] !in rest
      invariant forall x :: x in keys ==> x in s || x in rest
      decreases rest
    {
      var x :| x in rest;
      s := s + [x];
      rest := rest - {x};
    }
  }
}
