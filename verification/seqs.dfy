/** Facts about sequences and their multisets, kept small so that each proof stays cheap. */
module Seqs {

  /** Cutting a sequence around position `j`. */
  lemma Split<T>(b: seq<T>, j: nat)
    requires j < |b|
    ensures b == b[..j] + ([b[j]] + b[j + 1..])
  {
  }

  /** An element between two parts counts once on top of the parts. */
  lemma MultisetMiddle<T>(front: seq<T>, x: T, back: seq<T>)
    ensures multiset(front + ([x] + back)) == multiset(front + back) + multiset{x}
  {
  }

  /** Removing the element at `j` removes one occurrence of it. */
  lemma RemoveAt<T>(b: seq<T>, j: nat)
    requires j < |b|
    ensures multiset(b) == multiset(b[..j] + b[j + 1..]) + multiset{b[j]}
  {
    Split(b, j);
    MultisetMiddle(b[..j], b[j], b[j + 1..]);
  }

  /** Dropping the head removes one occurrence of it. */
  lemma RemoveHead<T>(a: seq<T>)
    requires |a| > 0
    ensures multiset(a) == multiset(a[1..]) + multiset{a[0]}
  {
    assert a == [a[0]] + a[1..];
  }

  /** A sequence with no elements in its multiset is empty. */
  lemma EmptyMultiset<T>(b: seq<T>)
    requires multiset(b) == multiset{}
    ensures b == []
  {
    assert |b| == |multiset(b)|;
  }

  /** Position `p` of `b` after the element at `j` has been removed. */
  lemma RemovedIndex<T>(b: seq<T>, j: nat, p: nat)
    requires j < |b| && p < |b| && p != j
    ensures var q := if p < j then p else p - 1;
            q < |b| - 1 && (b[..j] + b[j + 1..])[q] == b[p]
  {
  }

  /** One occurrence can be taken off both sides of a multiset equation. */
  lemma Cancel<T>(m: multiset<T>, n: multiset<T>, x: T)
    requires m + multiset{x} == n + multiset{x}
    ensures m == n
  {
    assert m == (m + multiset{x}) - multiset{x};
    assert n == (n + multiset{x}) - multiset{x};
  }
}
