/**
 * Index bookkeeping shared by the distillation and detection stages: ordered
 * index lists, per-class buckets built by appending, and the in-place list sort.
 */
module Indices {

  /** Non-decreasing order. */
  predicate Sorted(s: seq<int>) {
    forall i, j :: 0 <= i < j < |s| ==> s[i] <= s[j]
  }

  predicate StrictlyIncreasing(s: seq<int>) {
    forall i, j :: 0 <= i < j < |s| ==> s[i] < s[j]
  }

  predicate NoDups(s: seq<int>) {
    forall i, j :: 0 <= i < j < |s| ==> s[i] != s[j]
  }

  /** Every entry of `s` indexes a collection of `n` items. */
  predicate IndicesBelow(s: seq<nat>, n: nat) {
    forall i :: 0 <= i < |s| ==> s[i] < n
  }

  /** The list 0, 1, ..., n-1 (Python's `range(n)`). */
  function Range(n: nat): (r: seq<nat>)
    ensures |r| == n
    ensures forall i :: 0 <= i < n ==> r[i] == i
  {
    seq(n, i requires 0 <= i < n => i as nat)
  }

  /** `order` lists each of 0..n-1 exactly once (what `np.argsort` returns). */
  predicate IsIndexPermutation(order: seq<nat>, n: nat) {
    multiset(order) == multiset(Range(n))
  }

  /** Python slicing `s[:k]`: a bound past the end is clamped. */
  function Take(s: seq<nat>, k: nat): (r: seq<nat>)
    ensures |r| == if k <= |s| then k else |s|
    ensures r <= s
  {
    if k <= |s| then s[..k] else s
  }

  // ---------------------------------------------------------------------------
  // Facts about duplicates and multisets

  lemma {:induction false} NoDupsCounts(s: seq<int>, x: int)
    requires NoDups(s)
    ensures multiset(s)[x] <= 1
  {
    if s != [] {
      var p := s[..|s| - 1];
      assert s == p + [s[|s| - 1]];
      NoDupsCounts(p, x);
      if x == s[|s| - 1] {
        forall i | 0 <= i < |p|
          ensures p[i] != x
        {
          assert s[i] != s[|s| - 1];
        }
        assert x !in p;
      }
    }
  }

  lemma RepeatCounts(s: seq<int>, i: int, j: int)
    requires 0 <= i < j < |s| && s[i] == s[j]
    ensures multiset(s)[s[i]] >= 2
  {
    assert s == s[..j] + [s[j]] + s[j + 1..];
    assert s[i] in s[..j];
  }

  /** A rearrangement of a list without duplicates has none either. */
  lemma NoDupsPermutation(a: seq<int>, b: seq<int>)
    requires multiset(a) == multiset(b) && NoDups(a)
    ensures NoDups(b)
  {
    forall i, j | 0 <= i < j < |b|
      ensures b[i] != b[j]
    {
      if b[i] == b[j] {
        RepeatCounts(b, i, j);
        NoDupsCounts(a, b[i]);
      }
    }
  }

  /** Two sorted rearrangements of one multiset are the same list. */
  lemma {:induction false} SortedUnique(a: seq<int>, b: seq<int>)
    requires Sorted(a) && Sorted(b) && multiset(a) == multiset(b)
    ensures a == b
    decreases |a|
  {
    assert |a| == |multiset(a)| == |multiset(b)| == |b|;
    if a != [] {
      var n := |a|;
      assert a == a[..n - 1] + [a[n - 1]];
      assert b == b[..n - 1] + [b[n - 1]];
      assert a[n - 1] in multiset(b);
      var i :| 0 <= i < n && b[i] == a[n - 1];
      assert b[n - 1] in multiset(a);
      var j :| 0 <= j < n && a[j] == b[n - 1];
      assert a[n - 1] == b[n - 1];
      var ma, mb := multiset(a[..n - 1]), multiset(b[..n - 1]);
      assert multiset(a) == ma + multiset{a[n - 1]};
      assert multiset(b) == mb + multiset{a[n - 1]};
      forall v
        ensures ma[v] == mb[v]
      {
        assert multiset(a)[v] == ma[v] + multiset{a[n - 1]}[v];
        assert multiset(b)[v] == mb[v] + multiset{a[n - 1]}[v];
      }
      assert ma == mb;
      SortedUnique(a[..n - 1], b[..n - 1]);
    }
  }

  lemma IndicesBelowPermutation(a: seq<nat>, b: seq<nat>, n: nat)
    requires multiset(a) == multiset(b) && IndicesBelow(a, n)
    ensures IndicesBelow(b, n)
  {
    forall i | 0 <= i < |b|
      ensures b[i] < n
    {
      assert b[i] in multiset(a);
    }
  }

  lemma RangePermutation(n: nat)
    ensures IsIndexPermutation(Range(n), n)
    ensures NoDups(Range(n))
  {
  }

  /** A permutation of 0..n-1 has no repeated and no out-of-range entry, and lists every index. */
  lemma PermutationFacts(order: seq<nat>, n: nat)
    requires IsIndexPermutation(order, n)
    ensures |order| == n
    ensures IndicesBelow(order, n) && NoDups(order)
    ensures forall x :: 0 <= x < n ==> x in order
  {
    assert |order| == |multiset(order)| == |multiset(Range(n))| == n;
    forall i | 0 <= i < |order|
      ensures order[i] < n
    {
      assert order[i] in multiset(Range(n));
    }
    RangePermutation(n);
    NoDupsPermutation(Range(n), order);
    forall x | 0 <= x < n
      ensures x in order
    {
      assert Range(n)[x] == x;
      assert x in multiset(Range(n));
    }
  }

  // ---------------------------------------------------------------------------
  // The in-place list sort (`list.sort()`)

  function Insert(s: seq<nat>, x: nat): (r: seq<nat>)
    requires Sorted(s)
    ensures Sorted(r)
    ensures multiset(r) == multiset(s) + multiset{x}
  {
    if s == [] then [x]
    else if x <= s[0] then [x] + s
    else
      var tail := Insert(s[1..], x);
      assert s == [s[0]] + s[1..];
      LowerBoundKept(s[0], s[1..], x, tail);
      [s[0]] + tail
  }

  lemma LowerBoundKept(lo: nat, s: seq<nat>, x: nat, r: seq<nat>)
    requires forall i :: 0 <= i < |s| ==> lo <= s[i]
    requires lo <= x && Sorted(r) && multiset(r) == multiset(s) + multiset{x}
    ensures Sorted([lo] + r)
  {
    forall i | 0 <= i < |r|
      ensures lo <= r[i]
    {
      assert r[i] in multiset(r);
    }
  }

  /** Ascending order of the same entries. */
  function SortAsc(s: seq<nat>): (r: seq<nat>)
    ensures Sorted(r)
    ensures multiset(r) == multiset(s)
  {
    if s == [] then []
    else
      assert s == s[..|s| - 1] + [s[|s| - 1]];
      Insert(SortAsc(s[..|s| - 1]), s[|s| - 1])
  }

  /**
   * A Python list of sample indices. Two variables that hold the same
   * IndexList alias one list: an append through either is seen through both.
   */
  class IndexList {
    var items: seq<nat>

    constructor Empty()
      ensures items == []
    {
      items := [];
    }

    constructor FromSeq(s: seq<nat>)
      ensures items == s
    {
      items := s;
    }

    method Append(x: nat)
      modifies this
      ensures items == old(items) + [x]
    {
      items := items + [x];
    }

    /** `list.sort()`: ascending, same entries. */
    method Sort()
      modifies this
      ensures Sorted(items)
      ensures multiset(items) == multiset(old(items))
    {
      items := SortAsc(items);
    }
  }

  // ---------------------------------------------------------------------------
  // Per-class buckets

  /**
   * The entries of `order` whose label is `c`, in the order they appear in
   * `order`: what a loop `for t in order: bucket[labels[t]].append(t)` leaves
   * in bucket `c`.
   */
  function ClassBucket(order: seq<nat>, labels: seq<nat>, c: nat): (r: seq<nat>)
    requires IndicesBelow(order, |labels|)
    ensures |r| <= |order|
    ensures IndicesBelow(r, |labels|)
  {
    if order == [] then []
    else
      var last := order[|order| - 1];
      ClassBucket(order[..|order| - 1], labels, c) + (if labels[last] == c then [last] else [])
  }

  lemma {:induction false} BucketMembers(order: seq<nat>, labels: seq<nat>, c: nat, x: int)
    requires IndicesBelow(order, |labels|)
    ensures x in ClassBucket(order, labels, c) <==> x in order && 0 <= x < |labels| && labels[x] == c
  {
    if order != [] {
      var p := order[..|order| - 1];
      assert order == p + [order[|order| - 1]];
      BucketMembers(p, labels, c, x);
    }
  }

  lemma {:induction false} BucketConcat(a: seq<nat>, b: seq<nat>, labels: seq<nat>, c: nat)
    requires IndicesBelow(a, |labels|) && IndicesBelow(b, |labels|)
    ensures ClassBucket(a + b, labels, c) == ClassBucket(a, labels, c) + ClassBucket(b, labels, c)
    decreases |b|
  {
    if b == [] {
      assert a + b == a;
    } else {
      var b' := b[..|b| - 1];
      assert (a + b)[..|a + b| - 1] == a + b';
      BucketConcat(a, b', labels, c);
    }
  }

  /** A list whose entries all carry label c is its own class-c bucket; one with none of them has an empty bucket. */
  lemma {:induction false} BucketOfUniform(s: seq<nat>, labels: seq<nat>, c: nat)
    requires IndicesBelow(s, |labels|)
    ensures (forall i :: 0 <= i < |s| ==> labels[s[i]] == c) ==> ClassBucket(s, labels, c) == s
    ensures (forall i :: 0 <= i < |s| ==> labels[s[i]] != c) ==> ClassBucket(s, labels, c) == []
  {
    if s != [] {
      var p := s[..|s| - 1];
      BucketOfUniform(p, labels, c);
      assert s == p + [s[|s| - 1]];
    }
  }

  /** The bucket of a prefix of `order` is a prefix of the bucket of `order`. */
  lemma BucketPrefix(order: seq<nat>, labels: seq<nat>, c: nat, k: nat)
    requires IndicesBelow(order, |labels|) && k <= |order|
    ensures ClassBucket(order[..k], labels, c) <= ClassBucket(order, labels, c)
  {
    assert order == order[..k] + order[k..];
    BucketConcat(order[..k], order[k..], labels, c);
  }

  lemma {:induction false} BucketMultiset(s: seq<nat>, labels: seq<nat>, c: nat, x: int)
    requires IndicesBelow(s, |labels|)
    ensures multiset(ClassBucket(s, labels, c))[x] ==
            if 0 <= x < |labels| && labels[x] == c then multiset(s)[x] else 0
  {
    if s != [] {
      var p := s[..|s| - 1];
      assert s == p + [s[|s| - 1]];
      BucketMultiset(p, labels, c, x);
    }
  }

  /** A list is free of duplicates as soon as each of its per-class buckets is. */
  lemma NoDupsByClass(s: seq<nat>, labels: seq<nat>)
    requires IndicesBelow(s, |labels|)
    requires forall c :: 0 <= c ==> NoDups(ClassBucket(s, labels, c))
    ensures NoDups(s)
  {
    forall i, j | 0 <= i < j < |s|
      ensures s[i] != s[j]
    {
      if s[i] == s[j] {
        var g := labels[s[i]];
        RepeatCounts(s, i, j);
        BucketMultiset(s, labels, g, s[i]);
        NoDupsCounts(ClassBucket(s, labels, g), s[i]);
      }
    }
  }

  lemma {:induction false} BucketNoDups(order: seq<nat>, labels: seq<nat>, c: nat)
    requires IndicesBelow(order, |labels|) && NoDups(order)
    ensures NoDups(ClassBucket(order, labels, c))
  {
    if order != [] {
      var p := order[..|order| - 1];
      var last := order[|order| - 1];
      var b := ClassBucket(p, labels, c);
      BucketNoDups(p, labels, c);
      if labels[last] == c {
        forall i | 0 <= i < |b|
          ensures b[i] != last
        {
          BucketMembers(p, labels, c, b[i]);
          var k :| 0 <= k < |p| && p[k] == b[i];
          assert order[k] == b[i];
        }
        assert ClassBucket(order, labels, c) == b + [last];
      }
    }
  }

  lemma {:induction false} BucketIncreasing(order: seq<nat>, labels: seq<nat>, c: nat)
    requires IndicesBelow(order, |labels|) && StrictlyIncreasing(order)
    ensures StrictlyIncreasing(ClassBucket(order, labels, c))
  {
    if order != [] {
      var p := order[..|order| - 1];
      var last := order[|order| - 1];
      var b := ClassBucket(p, labels, c);
      BucketIncreasing(p, labels, c);
      if labels[last] == c {
        forall i | 0 <= i < |b|
          ensures b[i] < last
        {
          BucketMembers(p, labels, c, b[i]);
          var k :| 0 <= k < |p| && p[k] == b[i];
          assert order[k] == b[i];
        }
        assert ClassBucket(order, labels, c) == b + [last];
      }
    }
  }

  /** The class buckets of `order` for classes `0 .. numClasses-1`. */
  function ClassBuckets(order: seq<nat>, labels: seq<nat>, numClasses: nat): (r: seq<seq<nat>>)
    requires IndicesBelow(order, |labels|)
  {
    seq(numClasses, c requires 0 <= c < numClasses => ClassBucket(order, labels, c))
  }

  /**
   * Bucketing a permutation of 0..n-1 partitions the indices: index x lies in
   * the bucket of its own label and in no other, and no bucket repeats an index.
   */
  lemma BucketsPartition(order: seq<nat>, labels: seq<nat>, c: nat, x: int)
    requires IsIndexPermutation(order, |labels|)
    ensures IndicesBelow(order, |labels|)
    ensures 0 <= x < |labels| ==> (x in ClassBucket(order, labels, c) <==> labels[x] == c)
    ensures x in ClassBucket(order, labels, c) ==> 0 <= x < |labels| && labels[x] == c
    ensures NoDups(ClassBucket(order, labels, c))
  {
    PermutationFacts(order, |labels|);
    BucketMembers(order, labels, c, x);
    BucketNoDups(order, labels, c);
  }

  /**
   * `bucket = [[] for _ in range(k)]; for t in order: bucket[labels[t]].append(t)`:
   * bucket c ends up as the class-c subsequence of `order`.
   */
  method BucketByClass(order: seq<nat>, labels: seq<nat>, numClasses: nat) returns (buckets: seq<seq<nat>>)
    requires IndicesBelow(order, |labels|)
    requires forall i :: 0 <= i < |order| ==> labels[order[i]] < numClasses
    ensures |buckets| == numClasses
    ensures forall c :: 0 <= c < numClasses ==> buckets[c] == ClassBucket(order, labels, c)
  {
    buckets := seq(numClasses, _ => []);
    for k := 0 to |order|
      invariant |buckets| == numClasses
      invariant forall c :: 0 <= c < numClasses ==> buckets[c] == ClassBucket(order[..k], labels, c)
    {
      var t := order[k];
      var g := labels[t];
      assert order[..k + 1][..k] == order[..k];
      buckets := buckets[g := buckets[g] + [t]];
    }
    assert order[..|order|] == order;
  }
}
