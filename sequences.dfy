/** Sequences without repetitions, used for the key order of a Python dict. */
module Sequences {

  /** No element occurs twice. */
  ghost predicate Distinct<T>(s: seq<T>) {
    forall i, j :: 0 <= i < j < |s| ==> s[i] != s[j]
  }

  /** `s` with `x` taken out and the other elements kept in their order
      (what deleting a key does to a dict's insertion order). */
  function Without<T(==)>(s: seq<T>, x: T): (r: seq<T>)
    ensures forall i :: 0 <= i < |r| ==> r[i] in s && r[i] != x
    ensures forall i :: 0 <= i < |s| && s[i] != x ==> s[i] in r
    ensures x !in s ==> r == s
    ensures Distinct(s) ==> Distinct(r)
    ensures Distinct(s) && x in s ==> |r| == |s| - 1
  {
    if s == [] then []
    else if s[0] == x then Without(s[1..], x)
    else
      var rest := Without(s[1..], x);
      assert s[0] !in rest || s[0] in s[1..];
      [s[0]] + rest
  }

  /** A sequence without repetitions has as many elements as its set. */
  lemma {:induction false} DistinctCard<T>(s: seq<T>)
    requires Distinct(s)
    ensures |set x | x in s| == |s|
  {
    if s != [] {
      var t := s[1..];
      assert Distinct(t);
      DistinctCard(t);
      assert s[0] !in t;
      assert (set x | x in s) == {s[0]} + (set x | x in t);
    }
  }

  /** `s` lists every element of `keys` exactly once and nothing else:
      the iteration order of a dict whose keys are `keys`. */
  ghost predicate Enumerates<T>(s: seq<T>, keys: set<T>) {
    && Distinct(s)
    && (forall i :: 0 <= i < |s| ==> s[i] in keys)
    && (forall k :: k in keys ==> k in s)
  }

  /** Deleting a key from a dict takes it out of the iteration order. */
  lemma EnumeratesWithout<T>(s: seq<T>, keys: set<T>, x: T)
    requires Enumerates(s, keys)
    ensures Enumerates(Without(s, x), keys - {x})
  {
  }

  /** Inserting a new key into a dict appends it to the iteration order. */
  lemma EnumeratesAppend<T>(s: seq<T>, keys: set<T>, x: T)
    requires Enumerates(s, keys) && x !in keys
    ensures Enumerates(s + [x], keys + {x})
  {
  }

  /** The iteration order of a dict has as many elements as the dict has keys. */
  lemma EnumeratesCard<T>(s: seq<T>, keys: set<T>)
    requires Enumerates(s, keys)
    ensures |s| == |keys|
  {
    DistinctCard(s);
    assert (set x | x in s) == keys;
  }
}
