/**
 * `shuffle` (script.js): a Fisher-Yates shuffle of a copy of the input. The random index taken at
 * step i, Math.floor(Math.random() * (i + 1)), is supplied by the caller as `draws[i]`.
 */
module Shuffling {

  /** No element occurs twice. */
  predicate Distinct<T(==)>(s: seq<T>) {
    forall i, j :: 0 <= i < j < |s| ==> s[i] != s[j]
  }

  /** Draws for shuffling `n` elements: the index drawn at step i lies in [0, i]. */
  predicate ValidDraws(n: nat, draws: seq<nat>) {
    n <= |draws| && forall i :: 0 < i < n ==> draws[i] <= i
  }

  /** Exchanges the elements at positions i and j. */
  function Swap<T>(s: seq<T>, i: nat, j: nat): (r: seq<T>)
    requires i < |s| && j < |s|
    ensures |r| == |s|
  {
    seq(|s|, k requires 0 <= k < |s| => if k == i then s[j] else if k == j then s[i] else s[k])
  }

  /** A swap keeps every element and creates no duplicate. */
  lemma SwapPermutes<T>(s: seq<T>, i: nat, j: nat)
    requires i < |s| && j < |s|
    ensures multiset(Swap(s, i, j)) == multiset(s)
    ensures Distinct(s) ==> Distinct(Swap(s, i, j))
  {
    assert Swap(s, i, j) == s[i := s[j]][j := s[i]];
  }

  /** The steps i, i-1, ..., 1 of the shuffle loop, applied to `s`. */
  function ShuffleDown<T>(s: seq<T>, draws: seq<nat>, i: nat): (r: seq<T>)
    requires i < |s| && ValidDraws(|s|, draws)
    ensures |r| == |s|
    decreases i
  {
    if i == 0 then s else ShuffleDown(Swap(s, i, draws[i]), draws, i - 1)
  }

  /** The shuffle steps only move elements around: the result is a permutation of the input and has no duplicate the input lacks. */
  lemma {:induction false} ShuffleDownPermutes<T>(s: seq<T>, draws: seq<nat>, i: nat)
    requires i < |s| && ValidDraws(|s|, draws)
    ensures multiset(ShuffleDown(s, draws, i)) == multiset(s)
    ensures Distinct(s) ==> Distinct(ShuffleDown(s, draws, i))
    decreases i
  {
    if i > 0 {
      SwapPermutes(s, i, draws[i]);
      ShuffleDownPermutes(Swap(s, i, draws[i]), draws, i - 1);
    }
  }

  /** What `shuffle(arr)` returns for the given draws. */
  function Shuffled<T>(s: seq<T>, draws: seq<nat>): (r: seq<T>)
    requires ValidDraws(|s|, draws)
    ensures |r| == |s|
  {
    if |s| == 0 then s else ShuffleDown(s, draws, |s| - 1)
  }

  /** A shuffle is a permutation of its input, and shuffling a sequence without duplicates yields one without duplicates. */
  lemma ShuffledPermutes<T>(s: seq<T>, draws: seq<nat>)
    requires ValidDraws(|s|, draws)
    ensures multiset(Shuffled(s, draws)) == multiset(s)
    ensures Distinct(s) ==> Distinct(Shuffled(s, draws))
  {
    if |s| > 0 {
      ShuffleDownPermutes(s, draws, |s| - 1);
    }
  }

  /** `shuffle`: copies the input into an array and swaps in place from the last position down. */
  method Shuffle<T>(arr: seq<T>, draws: seq<nat>) returns (r: seq<T>)
    requires ValidDraws(|arr|, draws)
    ensures r == Shuffled(arr, draws)
  {
    if |arr| == 0 {
      return arr;
    }
    var a := new T[|arr|](k requires 0 <= k < |arr| => arr[k]);
    assert a[..] == arr;
    var i := |arr| - 1;
    while i > 0
      invariant 0 <= i < a.Length == |arr|
      invariant ShuffleDown(a[..], draws, i) == Shuffled(arr, draws)
    {
      var j := draws[i];
      ghost var before := a[..];
      a[i], a[j] := a[j], a[i];
      assert a[..] == Swap(before, i, j);
      i := i - 1;
    }
    r := a[..];
  }
}
