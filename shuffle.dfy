/** Sequences without repeats, and the in-place Fisher-Yates swap loop
    that the memory game and the round games run over their arrays. */
module Shuffling {

  predicate Distinct<T(==)>(s: seq<T>)
  {
    forall i, j :: 0 <= i < j < |s| ==> s[i] != s[j]
  }

  /** A sequence without repeats holds each value at most once. */
  lemma {:induction false} DistinctCounts<T>(s: seq<T>)
    requires Distinct(s)
    ensures forall x :: multiset(s)[x] <= 1
  {
    if s != [] {
      var init := s[..|s| - 1];
      assert s == init + [s[|s| - 1]];
      DistinctCounts(init);
    }
  }

  /** Rearranging a sequence without repeats gives one without repeats. */
  lemma PermutationDistinct<T>(s: seq<T>, t: seq<T>)
    requires Distinct(s) && multiset(s) == multiset(t)
    ensures Distinct(t)
  {
    DistinctCounts(s);
    forall i, j | 0 <= i < j < |t| ensures t[i] != t[j] {
      var x := t[i];
      assert t == t[..j] + [t[j]] + t[j + 1..];
      assert t[..j][i] == x;
      assert multiset(t)[x] == multiset(t[..j])[x] + multiset([t[j]])[x] + multiset(t[j + 1..])[x];
    }
  }

  /** The in-place swap loop `for (i = n - 1; i > 0; i--)`, swapping entry i
      with entry `draws[n - 1 - i]`, a value in 0..i. It only swaps, so the
      entries are a permutation of those it started with. */
  method Shuffle<T>(a: array<T>, draws: seq<int>)
    requires |draws| + 1 >= a.Length
    requires forall k :: 0 <= k < a.Length - 1 ==> 0 <= draws[k] <= a.Length - 1 - k
    modifies a
    ensures multiset(a[..]) == multiset(old(a[..]))
  {
    var i := a.Length - 1;
    var k := 0;
    while i > 0
      invariant -1 <= i < a.Length
      invariant k == a.Length - 1 - i
      invariant multiset(a[..]) == multiset(old(a[..]))
    {
      var j := draws[k];
      a[i], a[j] := a[j], a[i];
      i := i - 1;
      k := k + 1;
    }
  }
}
