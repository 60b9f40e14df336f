/** Completion order. The three platform calls run concurrently and each
    appends its listing when it finishes, so the listings come out in an
    order the model takes as an input: a permutation of the platform
    indices. */
module Permutations {

  /** The indices `0, 1, ..., n - 1` in increasing order. */
  function Range(n: nat): (r: seq<nat>)
    ensures |r| == n && forall i :: 0 <= i < n ==> r[i] == i
  {
    seq(n, i requires 0 <= i => i as nat)
  }

  /** `order` lists every index below `n` exactly once. */
  predicate IsPermutation(order: seq<nat>, n: nat)
  {
    multiset(order) == multiset(Range(n))
  }

  /** A permutation of `0 .. n - 1` has `n` entries, all below `n`, and
      contains every index below `n`. */
  lemma PermutationBounds(order: seq<nat>, n: nat)
    requires IsPermutation(order, n)
    ensures |order| == n
    ensures IndicesBelow(order, n)
    ensures forall i :: 0 <= i < n ==> i in order
  {
    var r := Range(n);
    assert |multiset(order)| == |order| && |multiset(r)| == n;
    forall k | 0 <= k < |order| ensures order[k] < n {
      assert order[k] in multiset(r);
    }
    forall i | 0 <= i < n ensures i in order {
      assert r[i] == i;
      assert i in multiset(order);
    }
  }

  /** Every entry of `order` is an index below `n`. */
  predicate IndicesBelow(order: seq<nat>, n: nat)
  {
    forall k :: 0 <= k < |order| ==> order[k] < n
  }

  /** The entries of `xs` taken in the order `order` names them. */
  function Pick<T>(xs: seq<T>, order: seq<nat>): (r: seq<T>)
    requires IndicesBelow(order, |xs|)
    ensures |r| == |order| && forall k :: 0 <= k < |order| ==> r[k] == xs[order[k]]
  {
    seq(|order|, k requires 0 <= k < |order| => xs[order[k]])
  }

  /** Dropping the entry at `j` removes one occurrence of it. */
  lemma RemoveAt<T>(b: seq<T>, j: nat)
    requires j < |b|
    ensures multiset(b[..j] + b[j + 1..]) == multiset(b) - multiset{b[j]}
  {
    assert b == b[..j] + [b[j]] + b[j + 1..];
  }

  /** Removing the first entry of `a` and a matching entry of `b` from two
      arrangements of the same entries leaves two arrangements of the same
      entries. */
  lemma RemoveMatching<T>(a: seq<T>, b: seq<T>, j: nat)
    requires multiset(a) == multiset(b)
    requires a != [] && j < |b| && b[j] == a[0]
    ensures multiset(a[1..]) == multiset(b[..j] + b[j + 1..])
  {
    RemoveAt(b, j);
    assert a == [a[0]] + a[1..];
  }

  /** Picking one more index appends the entry it names, also after a
      prefix. */
  lemma PickAppend<T>(prefix: seq<T>, xs: seq<T>, order: seq<nat>, i: nat)
    requires IndicesBelow(order, |xs|) && i < |xs|
    ensures IndicesBelow(order + [i], |xs|)
    ensures prefix + Pick(xs, order) + [xs[i]] == prefix + Pick(xs, order + [i])
  {
    assert IndicesBelow(order + [i], |xs|);
    assert Pick(xs, order + [i]) == Pick(xs, order) + [xs[i]];
  }

  /** Dropping index `j` from an index list drops the entry it picked. */
  lemma PickRemoveAt<T>(xs: seq<T>, b: seq<nat>, j: nat)
    requires IndicesBelow(b, |xs|)
    requires j < |b|
    ensures IndicesBelow(b[..j] + b[j + 1..], |xs|)
    ensures multiset(Pick(xs, b)) == multiset(Pick(xs, b[..j] + b[j + 1..])) + multiset{xs[b[j]]}
  {
    var rest := b[..j] + b[j + 1..];
    var p, q := Pick(xs, b), Pick(xs, rest);
    assert p == p[..j] + [xs[b[j]]] + p[j + 1..];
    assert q == p[..j] + p[j + 1..];
  }

  /** Picking by a non-empty index list starts with the entry its first
      index names. */
  lemma PickFirst<T>(xs: seq<T>, a: seq<nat>)
    requires IndicesBelow(a, |xs|) && a != []
    ensures IndicesBelow(a[1..], |xs|)
    ensures multiset(Pick(xs, a)) == multiset{xs[a[0]]} + multiset(Pick(xs, a[1..]))
  {
    assert IndicesBelow(a[1..], |xs|);
    assert Pick(xs, a) == [xs[a[0]]] + Pick(xs, a[1..]);
  }

  /** Taking entries by two index lists holding the same indices gives two
      arrangements of the same entries. */
  lemma {:induction false} PickSameIndices<T>(xs: seq<T>, a: seq<nat>, b: seq<nat>)
    requires IndicesBelow(a, |xs|)
    requires IndicesBelow(b, |xs|)
    requires multiset(a) == multiset(b)
    ensures multiset(Pick(xs, a)) == multiset(Pick(xs, b))
    decreases |a|
  {
    if a == [] {
      assert |multiset(b)| == 0;
    } else {
      assert a[0] in multiset(b);
      var j :| 0 <= j < |b| && b[j] == a[0];
      RemoveMatching(a, b, j);
      PickRemoveAt(xs, b, j);
      PickFirst(xs, a);
      PickSameIndices(xs, a[1..], b[..j] + b[j + 1..]);
    }
  }

  /** Taking the entries in the order of a permutation rearranges them and
      neither loses nor repeats one. */
  lemma PickPermutation<T>(xs: seq<T>, order: seq<nat>)
    requires IsPermutation(order, |xs|)
    ensures IndicesBelow(order, |xs|)
    ensures multiset(Pick(xs, order)) == multiset(xs)
  {
    PermutationBounds(order, |xs|);
    var r := Range(|xs|);
    PickSameIndices(xs, order, r);
    assert Pick(xs, r) == xs;
  }
}
