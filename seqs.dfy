/** Generic facts about sequences used by several components: element-wise
    mapping, and that mapping respects permutations. */
module Seqs {

  /** `xs.map(f)`. */
  function Map<A, B>(f: A -> B, xs: seq<A>): (ys: seq<B>)
    ensures |ys| == |xs|
    ensures forall i :: 0 <= i < |xs| ==> ys[i] == f(xs[i])
  {
    if |xs| == 0 then [] else [f(xs[0])] + Map(f, xs[1..])
  }

  /** No element occurs twice. */
  predicate Distinct<T(==)>(s: seq<T>)
  {
    forall i, j :: 0 <= i < j < |s| ==> s[i] != s[j]
  }

  /** A prefix one longer is the prefix with the next element appended. */
  lemma PrefixSnoc<A>(xs: seq<A>, i: nat)
    requires i < |xs|
    ensures xs[..i] + [xs[i]] == xs[..i + 1]
  {
  }

  /** Slicing after the head: the prefix and suffix around position `k`. */
  lemma SlicesOfTail<A>(xs: seq<A>, k: nat)
    requires 0 < k < |xs|
    ensures xs[..k] == [xs[0]] + xs[1..][..k - 1]
    ensures xs[k + 1..] == xs[1..][k..]
  {
  }

  lemma MapConcat<A, B>(f: A -> B, xs: seq<A>, ys: seq<A>)
    ensures Map(f, xs + ys) == Map(f, xs) + Map(f, ys)
  {
    assert forall i :: 0 <= i < |xs + ys| ==> Map(f, xs + ys)[i] == (Map(f, xs) + Map(f, ys))[i];
  }

  /** Removing the element at `k` removes one occurrence of it. */
  lemma RemoveAt<A>(ys: seq<A>, k: nat)
    requires k < |ys|
    ensures multiset(ys[..k] + ys[k + 1..]) == multiset(ys) - multiset{ys[k]}
  {
    assert ys == ys[..k] + [ys[k]] + ys[k + 1..];
    assert multiset(ys) == multiset(ys[..k]) + multiset{ys[k]} + multiset(ys[k + 1..]);
  }

  /** Mapping, then removing the image of the element at `k`, is mapping the
      sequence without that element. */
  lemma MapRemoveAt<A, B>(f: A -> B, ys: seq<A>, k: nat)
    requires k < |ys|
    ensures multiset(Map(f, ys)) == multiset{f(ys[k])} + multiset(Map(f, ys[..k] + ys[k + 1..]))
  {
    var a, c, b := ys[..k], ys[k..], ys[k + 1..];
    assert ys == a + c;
    MapConcat(f, a, c);
    assert c[1..] == b;
    assert Map(f, c) == [f(ys[k])] + Map(f, b);
    MapConcat(f, a, b);
  }

  /** Taking the first element out of `xs` and an equal one out of `ys`
      leaves permutations of each other. */
  lemma RemaindersPermute<A>(xs: seq<A>, ys: seq<A>, k: nat)
    requires multiset(xs) == multiset(ys) && |xs| > 0 && k < |ys| && ys[k] == xs[0]
    ensures multiset(xs[1..]) == multiset(ys[..k] + ys[k + 1..])
  {
    var a, b := ys[..k], ys[k + 1..];
    assert xs == [xs[0]] + xs[1..];
    assert ys == a + [ys[k]] + b;
    var left, right := multiset(xs[1..]), multiset(a + b);
    assert right == multiset(a) + multiset(b);
    assert multiset(xs) == multiset{xs[0]} + left;
    assert multiset(ys) == multiset(a) + multiset{ys[k]} + multiset(b);
    forall e ensures left[e] == right[e] {
      assert (multiset{xs[0]} + left)[e] == (multiset(a) + multiset{ys[k]} + multiset(b))[e];
    }
    assert left == right;
  }

  /** The inductive step: matching the first element of `xs` with an
      equal element of `ys` reduces the claim to the remainders. */
  lemma MapPermutationStep<A, B>(f: A -> B, xs: seq<A>, ys: seq<A>, k: nat)
    requires |xs| > 0 && k < |ys| && ys[k] == xs[0]
    requires multiset(Map(f, xs[1..])) == multiset(Map(f, ys[..k] + ys[k + 1..]))
    ensures multiset(Map(f, xs)) == multiset(Map(f, ys))
  {
    MapRemoveAt(f, ys, k);
    assert Map(f, xs) == [f(xs[0])] + Map(f, xs[1..]);
  }

  /** Mapping two permutations of each other yields permutations of each
      other. */
  lemma {:induction false} MapPermutation<A, B>(f: A -> B, xs: seq<A>, ys: seq<A>)
    requires multiset(xs) == multiset(ys)
    ensures multiset(Map(f, xs)) == multiset(Map(f, ys))
    decreases |xs|
  {
    if |xs| == 0 {
      assert |multiset(ys)| == 0;
      assert ys == [];
    } else {
      var x := xs[0];
      assert x in multiset(xs);
      var k :| 0 <= k < |ys| && ys[k] == x;
      RemaindersPermute(xs, ys, k);
      MapPermutation(f, xs[1..], ys[..k] + ys[k + 1..]);
      MapPermutationStep(f, xs, ys, k);
    }
  }
}
