/**
  `shuffle(arr)` pairs every element with a fresh `Math.random()` key, sorts the
  pairs by key with a stable sort, and keeps the elements. The random draws are
  an injected parameter: `rand(i)` is the key drawn for the element at index `i`.
 */
module Shuffle {

  /** An answer paired with the sort key drawn for it. */
  type Keyed = (string, real)

  /** The elements of keyed pairs, in order. */
  function Values(s: seq<Keyed>): (r: seq<string>)
    ensures |r| == |s|
  {
    seq(|s|, i requires 0 <= i < |s| => s[i].0)
  }

  lemma ValuesCons(x: Keyed, s: seq<Keyed>)
    ensures Values([x] + s) == [x.0] + Values(s)
  {
  }

  /** `arr.map(v => ({v, r: Math.random()}))`, with the key of index `i` drawn as `rand(i)`. */
  function Tag(arr: seq<string>, rand: nat -> real): (r: seq<Keyed>)
    ensures |r| == |arr|
    ensures Values(r) == arr
    ensures forall i :: 0 <= i < |arr| ==> r[i].1 == rand(i)
  {
    seq(|arr|, i requires 0 <= i < |arr| => (arr[i], rand(i)))
  }

  /** Keys never decrease from left to right. */
  predicate SortedByKey(s: seq<Keyed>) {
    forall i, j :: 0 <= i < j < |s| ==> s[i].1 <= s[j].1
  }

  /** Puts `x` in front of the first pair whose key is not smaller (so `x` precedes equal keys). */
  function InsertByKey(x: Keyed, s: seq<Keyed>): (r: seq<Keyed>)
    ensures |r| == |s| + 1
    ensures r[0] == x || (s != [] && r[0] == s[0])
    ensures multiset(r) == multiset(s) + multiset{x}
  {
    if s == [] || x.1 <= s[0].1 then
      [x] + s
    else
      assert s == [s[0]] + s[1..];
      [s[0]] + InsertByKey(x, s[1..])
  }

  /** Inserting a pair adds exactly its element to the elements. */
  lemma {:induction false} InsertByKeyValues(x: Keyed, s: seq<Keyed>)
    ensures multiset(Values(InsertByKey(x, s))) == multiset(Values(s)) + multiset{x.0}
  {
    if s == [] || x.1 <= s[0].1 {
      ValuesCons(x, s);
    } else {
      var t := InsertByKey(x, s[1..]);
      InsertByKeyValues(x, s[1..]);
      assert InsertByKey(x, s) == [s[0]] + t;
      assert s == [s[0]] + s[1..];
      ValuesCons(s[0], t);
      ValuesCons(s[0], s[1..]);
    }
  }

  /** Inserting into a sorted sequence keeps it sorted. */
  lemma {:induction false} InsertByKeySorted(x: Keyed, s: seq<Keyed>)
    requires SortedByKey(s)
    ensures SortedByKey(InsertByKey(x, s))
  {
    if s != [] && x.1 > s[0].1 {
      var t := InsertByKey(x, s[1..]);
      InsertByKeySorted(x, s[1..]);
      PrependSorted(s[0], t);
    }
  }

  /** A pair whose key is at most the first key of a sorted sequence can go in front. */
  lemma PrependSorted(y: Keyed, t: seq<Keyed>)
    requires SortedByKey(t)
    requires t == [] || y.1 <= t[0].1
    ensures SortedByKey([y] + t)
  {
    var r := [y] + t;
    forall i, j | 0 <= i < j < |r|
      ensures r[i].1 <= r[j].1
    {
      if i == 0 && j > 1 {
        assert t[0].1 <= t[j - 1].1;
      }
    }
  }

  /**
    `pairs.sort((a, b) => a.r - b.r)`: a stable sort by key, which inserts
    every pair in front of the sorted later ones.
   */
  function SortByKey(s: seq<Keyed>): (r: seq<Keyed>)
    ensures SortedByKey(r)
    ensures multiset(r) == multiset(s)
    ensures multiset(Values(r)) == multiset(Values(s))
  {
    if s == [] then []
    else
      assert s == [s[0]] + s[1..];
      ValuesCons(s[0], s[1..]);
      var rest := SortByKey(s[1..]);
      InsertByKeySorted(s[0], rest);
      InsertByKeyValues(s[0], rest);
      InsertByKey(s[0], rest)
  }

  /** `shuffle(arr)`: some permutation of `arr`, the one the drawn keys order. */
  function Shuffle(arr: seq<string>, rand: nat -> real): (r: seq<string>)
    ensures |r| == |arr|
    ensures multiset(r) == multiset(arr)
  {
    var sorted := SortByKey(Tag(arr, rand));
    assert |Values(sorted)| == |multiset(Values(sorted))| == |multiset(arr)|;
    Values(sorted)
  }

  /** Whatever keys are drawn, every element of the input is in the shuffled output. */
  lemma ShuffleKeepsElements(arr: seq<string>, rand: nat -> real, x: string)
    requires x in arr
    ensures x in Shuffle(arr, rand)
  {
    assert x in multiset(arr);
  }

  /** A single element has only one arrangement. */
  lemma ShuffleSingleton(x: string, rand: nat -> real)
    ensures Shuffle([x], rand) == [x]
  {
    var r := Shuffle([x], rand);
    assert r[0] in multiset(r);
  }
}
