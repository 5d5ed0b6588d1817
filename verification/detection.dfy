/**
 * The bookkeeping of the poison-sample identification step: the per-class
 * buckets of the inspection set and of the clean chunklet, the fatal size
 * checks, the two-pointer scan of the chunklet, the split of a class into
 * isolated and other samples, the degenerate-fit sentinel and the decision
 * policy. The Gaussian fit is an input: one fitted likelihood ratio per class.
 */
module PoisonDetection {
  import opened Wrappers
  import opened Indices

  /** The exceptions of the identification step. */
  datatype DetectError =
    | ClassTooSmall(cls: nat)      // 'dataset is too small for class c'
    | ChunkletTooSmall(cls: nat)   // 'clean chunklet is too small for class c'
    | NoClasses                    // the maximum of an empty ratio array

  /** A class whose ratio equals the maximum is flagged above this bound. */
  const MaxRatioBound: real := 1.5
  /** Any class is flagged above this bound (`threshold`). */
  const Threshold: real := 2.0

  // ---------------------------------------------------------------------------
  // Buckets

  /** `class_indices[c]` after its sort: the inspection samples labelled c. */
  function ClassMembers(labels: seq<nat>, c: nat): seq<nat> {
    SortAsc(ClassBucket(Range(|labels|), labels, c))
  }

  /** `class_indices` for classes `0 .. numClasses-1`. */
  function AllClassMembers(labels: seq<nat>, numClasses: nat): (r: seq<seq<nat>>)
    ensures |r| == numClasses
  {
    seq(numClasses, c requires 0 <= c < numClasses => ClassMembers(labels, c))
  }

  /** The sorted buckets: what the `sort()` calls of the check loop leave. */
  function SortedBuckets(buckets: seq<seq<nat>>): (r: seq<seq<nat>>)
    ensures |r| == |buckets|
  {
    seq(|buckets|, c requires 0 <= c < |buckets| => SortAsc(buckets[c]))
  }

  /**
   * A class's member list holds exactly the samples labelled c, each once, in
   * ascending order; it is the class bucket of `range(num_samples)` itself.
   */
  lemma ClassMembersFacts(labels: seq<nat>, c: nat, x: int)
    ensures ClassMembers(labels, c) == ClassBucket(Range(|labels|), labels, c)
    ensures StrictlyIncreasing(ClassMembers(labels, c))
    ensures IndicesBelow(ClassMembers(labels, c), |labels|)
    ensures x in ClassMembers(labels, c) <==> 0 <= x < |labels| && labels[x] == c
  {
    var b := ClassBucket(Range(|labels|), labels, c);
    BucketIncreasing(Range(|labels|), labels, c);
    SortedUnique(SortAsc(b), b);
    BucketMembers(Range(|labels|), labels, c, x);
    if 0 <= x < |labels| {
      assert Range(|labels|)[x] == x;
    }
  }

  // ---------------------------------------------------------------------------
  // The size checks

  /** No class below k failed a size check. */
  predicate SizesHold(classes: seq<seq<nat>>, chunklets: seq<seq<nat>>, k: nat)
    requires k <= |classes| && k <= |chunklets|
  {
    forall c :: 0 <= c < k ==> |classes[c]| >= 2 && |chunklets[c]| >= 2
  }

  /**
   * The first failing size check among classes `0 .. k-1`, in loop order; for
   * each class its bucket is checked before its chunklet share.
   */
  function SizeError(classes: seq<seq<nat>>, chunklets: seq<seq<nat>>, k: nat): Option<DetectError>
    requires k <= |classes| && k <= |chunklets|
  {
    if k == 0 then None
    else
      match SizeError(classes, chunklets, k - 1)
      case Some(e) => Some(e)
      case None => ClassCheck(classes[k - 1], chunklets[k - 1], k - 1)
  }

  /** The two checks of class c: its bucket first, then its chunklet share. */
  function ClassCheck(members: seq<nat>, share: seq<nat>, c: nat): Option<DetectError> {
    if |members| < 2 then Some(ClassTooSmall(c))
    else if |share| < 2 then Some(ChunkletTooSmall(c))
    else None
  }

  /**
   * The checks raise exactly when some class or its chunklet share has fewer
   * than two members, and they name the first such class.
   */
  lemma {:induction false} SizeErrorMeaning(classes: seq<seq<nat>>, chunklets: seq<seq<nat>>, k: nat)
    requires k <= |classes| && k <= |chunklets|
    ensures SizeError(classes, chunklets, k).None? <==> SizesHold(classes, chunklets, k)
    ensures SizeError(classes, chunklets, k).Some? ==>
              match SizeError(classes, chunklets, k).value
              case ClassTooSmall(c) => c < k && SizesHold(classes, chunklets, c) && |classes[c]| < 2
              case ChunkletTooSmall(c) => c < k && SizesHold(classes, chunklets, c) && |classes[c]| >= 2 && |chunklets[c]| < 2
              case NoClasses => false
  {
    if k > 0 {
      SizeErrorMeaning(classes, chunklets, k - 1);
    }
  }

  /** Once a class fails its check, the exception is the same for every larger class count. */
  lemma {:induction false} SizeErrorKept(classes: seq<seq<nat>>, chunklets: seq<seq<nat>>, k: nat, n: nat)
    requires k <= n <= |classes| && n <= |chunklets|
    requires SizeError(classes, chunklets, k).Some?
    ensures SizeError(classes, chunklets, n) == SizeError(classes, chunklets, k)
    decreases n - k
  {
    if k < n {
      SizeErrorKept(classes, chunklets, k, n - 1);
    }
  }

  /** A class that passes both checks extends the passing prefix. */
  lemma SizesHoldStep(classes: seq<seq<nat>>, chunklets: seq<seq<nat>>, c: nat)
    requires c < |classes| && c < |chunklets|
    requires SizesHold(classes, chunklets, c) && ClassCheck(classes[c], chunklets[c], c).None?
    ensures SizesHold(classes, chunklets, c + 1)
  {
  }

  /** When classes below c pass and class c fails, the checks raise for class c. */
  lemma SizeErrorAt(classes: seq<seq<nat>>, chunklets: seq<seq<nat>>, c: nat, n: nat)
    requires c < n <= |classes| && n <= |chunklets|
    requires SizesHold(classes, chunklets, c) && ClassCheck(classes[c], chunklets[c], c).Some?
    ensures SizeError(classes, chunklets, n) == ClassCheck(classes[c], chunklets[c], c)
  {
    SizeErrorMeaning(classes, chunklets, c);
    SizeErrorKept(classes, chunklets, c + 1, n);
  }

  /**
   * The check loop: sort each class's bucket and chunklet share, then raise
   * if either is too small.
   */
  method CheckClassSizes(classes: seq<seq<nat>>, chunklets: seq<seq<nat>>)
    returns (sortedClasses: seq<seq<nat>>, sortedChunklets: seq<seq<nat>>, err: Option<DetectError>)
    requires |classes| == |chunklets|
    ensures err == SizeError(classes, chunklets, |classes|)
    ensures err.None? ==> sortedClasses == SortedBuckets(classes) && sortedChunklets == SortedBuckets(chunklets)
  {
    sortedClasses, sortedChunklets := classes, chunklets;
    for c := 0 to |classes|
      invariant CheckedUpTo(classes, chunklets, sortedClasses, sortedChunklets, c)
    {
      var failed;
      sortedClasses, sortedChunklets, failed := SortAndCheck(sortedClasses, sortedChunklets, classes, chunklets, c);
      if failed.Some? {
        return sortedClasses, sortedChunklets, failed;
      }
    }
    ChecksPassed(classes, chunklets);
    err := None;
  }

  /** The check loop after classes `0 .. c-1`: all passed, and their lists are sorted. */
  predicate CheckedUpTo(classes: seq<seq<nat>>, chunklets: seq<seq<nat>>,
                        sortedClasses: seq<seq<nat>>, sortedChunklets: seq<seq<nat>>, c: nat)
    requires c <= |classes| && c <= |chunklets|
  {
    && SizesHold(classes, chunklets, c)
    && sortedClasses == SortedUpTo(classes, c) && sortedChunklets == SortedUpTo(chunklets, c)
  }

  /** After a loop in which every class passed, nothing was raised and every list is sorted. */
  lemma ChecksPassed(classes: seq<seq<nat>>, chunklets: seq<seq<nat>>)
    requires |classes| == |chunklets| && SizesHold(classes, chunklets, |classes|)
    ensures SizeError(classes, chunklets, |classes|).None?
    ensures SortedUpTo(classes, |classes|) == SortedBuckets(classes)
    ensures SortedUpTo(chunklets, |classes|) == SortedBuckets(chunklets)
  {
    SizeErrorMeaning(classes, chunklets, |classes|);
    SortedUpToAll(classes);
    SortedUpToAll(chunklets);
  }

  /** The buckets once the loop has sorted those of classes `0 .. k-1`. */
  function SortedUpTo(buckets: seq<seq<nat>>, k: nat): (r: seq<seq<nat>>)
    requires k <= |buckets|
    ensures |r| == |buckets|
  {
    if k == 0 then buckets else SortedUpTo(buckets, k - 1)[k - 1 := SortAsc(buckets[k - 1])]
  }

  /** The buckets from class k on are still untouched. */
  lemma {:induction false} SortedUpToRest(buckets: seq<seq<nat>>, k: nat, j: nat)
    requires k <= j < |buckets|
    ensures SortedUpTo(buckets, k)[j] == buckets[j]
  {
    if k > 0 {
      SortedUpToRest(buckets, k - 1, j);
    }
  }

  /** Once every class is past, every bucket is sorted. */
  lemma SortedUpToAll(buckets: seq<seq<nat>>)
    ensures SortedUpTo(buckets, |buckets|) == SortedBuckets(buckets)
  {
    forall c | 0 <= c < |buckets|
      ensures SortedUpTo(buckets, |buckets|)[c] == SortAsc(buckets[c])
    {
      SortedUpToKept(buckets, c, |buckets|);
    }
  }

  /** A bucket the loop has sorted stays sorted through the later rounds. */
  lemma {:induction false} SortedUpToKept(buckets: seq<seq<nat>>, c: nat, k: nat)
    requires c < k <= |buckets|
    ensures SortedUpTo(buckets, k)[c] == SortAsc(buckets[c])
  {
    if k > c + 1 {
      SortedUpToKept(buckets, c, k - 1);
    }
  }

  /** One round of the check loop: sort both lists of class c, then check their sizes. */
  method SortAndCheck(sortedClasses: seq<seq<nat>>, sortedChunklets: seq<seq<nat>>,
                      ghost classes: seq<seq<nat>>, ghost chunklets: seq<seq<nat>>, c: nat)
    returns (nextClasses: seq<seq<nat>>, nextChunklets: seq<seq<nat>>, failed: Option<DetectError>)
    requires c < |classes| && c < |chunklets|
    requires sortedClasses == SortedUpTo(classes, c) && sortedChunklets == SortedUpTo(chunklets, c)
    requires |classes| == |chunklets| && SizesHold(classes, chunklets, c)
    ensures nextClasses == SortedUpTo(classes, c + 1) && nextChunklets == SortedUpTo(chunklets, c + 1)
    ensures failed == ClassCheck(classes[c], chunklets[c], c)
    ensures failed.Some? ==> failed == SizeError(classes, chunklets, |classes|)
    ensures failed.None? ==> SizesHold(classes, chunklets, c + 1)
  {
    if ClassCheck(classes[c], chunklets[c], c).Some? {
      SizeErrorAt(classes, chunklets, c, |classes|);
    } else {
      SizesHoldStep(classes, chunklets, c);
    }
    SortedUpToRest(classes, c, c);
    SortedUpToRest(chunklets, c, c);
    var members := SortAsc(sortedClasses[c]);
    var share := SortAsc(sortedChunklets[c]);
    nextClasses := sortedClasses[c := members];
    nextChunklets := sortedChunklets[c := share];
    SortKeepsLength(classes[c]);
    SortKeepsLength(chunklets[c]);
    if |members| < 2 {
      return nextClasses, nextChunklets, Some(ClassTooSmall(c));
    }
    if |share| < 2 {
      return nextClasses, nextChunklets, Some(ChunkletTooSmall(c));
    }
    failed := None;
  }

  /** Sorting keeps a bucket's size. */
  lemma SortKeepsLength(s: seq<nat>)
    ensures |SortAsc(s)| == |s|
  {
    assert |multiset(SortAsc(s))| == |multiset(s)|;
  }

  // ---------------------------------------------------------------------------
  // The chunklet scan

  /**
   * The two-pointer scan of a class's members against its sorted chunklet
   * share (its result is not used afterwards). The positions found are
   * ascending positions of `members`; when both lists are strictly increasing
   * and the share lies within the class, it finds every share member, the
   * k-th at its own position.
   */
  method ChunkletPositions(members: seq<nat>, chunklet: seq<nat>) returns (positions: seq<nat>)
    ensures |positions| <= |chunklet|
    ensures StrictlyIncreasing(positions) && IndicesBelow(positions, |members|)
    ensures StrictlyIncreasing(members) && StrictlyIncreasing(chunklet) && (forall x :: x in chunklet ==> x in members) ==>
              |positions| == |chunklet| && forall k :: 0 <= k < |chunklet| ==> members[positions[k]] == chunklet[k]
  {
    ghost var fits := StrictlyIncreasing(members) && StrictlyIncreasing(chunklet) && (forall x :: x in chunklet ==> x in members);
    positions := [];
    var pt := 0;
    for i := 0 to |members|
      invariant pt == |positions| <= |chunklet|
      invariant StrictlyIncreasing(positions) && IndicesBelow(positions, i)
      invariant fits ==> forall k :: 0 <= k < pt ==> members[positions[k]] == chunklet[k]
      invariant fits && pt < |chunklet| ==> forall j :: 0 <= j < i ==> members[j] < chunklet[pt]
    {
      if pt == |chunklet| {
        break;
      }
      if members[i] < chunklet[pt] {
        continue;
      }
      if fits {
        ScanHit(members, chunklet, i, pt);
      }
      positions := positions + [i];
      pt := pt + 1;
    }
    ShareMemberPresent(members, chunklet, pt);
  }

  /** A share member still unmatched is a member of the class: some member reaches it. */
  lemma ShareMemberPresent(members: seq<nat>, chunklet: seq<nat>, pt: nat)
    ensures (forall x :: x in chunklet ==> x in members) && pt < |chunklet| ==>
              exists j :: 0 <= j < |members| && members[j] == chunklet[pt]
  {
    if (forall x :: x in chunklet ==> x in members) && pt < |chunklet| {
      assert chunklet[pt] in chunklet;
    }
  }

  /** A step of the scan that does not skip lands on the share member it points at. */
  lemma ScanHit(members: seq<nat>, chunklet: seq<nat>, i: nat, pt: nat)
    requires StrictlyIncreasing(members) && StrictlyIncreasing(chunklet) && (forall x :: x in chunklet ==> x in members)
    requires i < |members| && pt < |chunklet| && members[i] >= chunklet[pt]
    requires forall j :: 0 <= j < i ==> members[j] < chunklet[pt]
    ensures members[i] == chunklet[pt]
    ensures pt + 1 < |chunklet| ==> forall j :: 0 <= j <= i ==> members[j] < chunklet[pt + 1]
  {
    assert chunklet[pt] in members;
    var m :| 0 <= m < |members| && members[m] == chunklet[pt];
    IncreasingPair(members, i, m);
  }

  /** Two positions of a strictly increasing sequence, in order, hold increasing values. */
  lemma IncreasingPair(s: seq<nat>, i: nat, j: nat)
    ensures StrictlyIncreasing(s) && i < j < |s| ==> s[i] < s[j]
  {
  }

  /**
   * With no repeated clean index, a class's members and its chunklet share meet
   * the scan's condition, so the scan finds the position of every share member.
   */
  lemma ChunkletShareFits(labels: seq<nat>, clean: seq<nat>, c: nat)
    requires IndicesBelow(clean, |labels|) && NoDups(clean)
    ensures StrictlyIncreasing(ClassMembers(labels, c))
    ensures StrictlyIncreasing(SortAsc(ClassBucket(clean, labels, c)))
    ensures forall x :: x in SortAsc(ClassBucket(clean, labels, c)) ==> x in ClassMembers(labels, c)
  {
    var share := ClassBucket(clean, labels, c);
    var sorted := SortAsc(share);
    ClassMembersFacts(labels, c, 0);
    BucketNoDups(clean, labels, c);
    NoDupsPermutation(share, sorted);
    forall i, j | 0 <= i < j < |sorted|
      ensures sorted[i] < sorted[j]
    {
      assert sorted[i] != sorted[j];
    }
    forall x | x in sorted
      ensures x in ClassMembers(labels, c)
    {
      assert x in multiset(share);
      BucketMembers(clean, labels, c, x);
      ClassMembersFacts(labels, c, x);
    }
  }

  // ---------------------------------------------------------------------------
  // Isolated and other samples

  /**
   * The local positions `pt` of a class's members whose prediction is the class
   * (`isolated_indices_local`) or is not (`other_indices_local`).
   */
  function LocalPositions(members: seq<nat>, preds: seq<nat>, c: nat, isolated: bool): (r: seq<nat>)
    requires IndicesBelow(members, |preds|)
    ensures IndicesBelow(r, |members|)
  {
    if members == [] then []
    else
      var n := |members| - 1;
      LocalPositions(members[..n], preds, c, isolated) + (if (preds[members[n]] == c) == isolated then [n] else [])
  }

  /**
   * The two position lists partition `0 .. n-1`: position pt is isolated
   * exactly when its sample is predicted as the class, and other exactly when
   * it is not.
   */
  lemma {:induction false} PositionsMembers(members: seq<nat>, preds: seq<nat>, c: nat, isolated: bool, pt: int)
    requires IndicesBelow(members, |preds|)
    ensures pt in LocalPositions(members, preds, c, isolated) <==>
              0 <= pt < |members| && (preds[members[pt]] == c) == isolated
  {
    if members != [] {
      var n := |members| - 1;
      PositionsMembers(members[..n], preds, c, isolated, pt);
      if 0 <= pt < n {
        assert members[..n][pt] == members[pt];
      }
    }
  }

  /**
   * Both position lists are ascending, together they have one entry per
   * member, and there are as many isolated positions as isolated samples.
   */
  lemma {:induction false} PositionsCounts(members: seq<nat>, preds: seq<nat>, c: nat)
    requires IndicesBelow(members, |preds|)
    ensures StrictlyIncreasing(LocalPositions(members, preds, c, true))
    ensures StrictlyIncreasing(LocalPositions(members, preds, c, false))
    ensures |LocalPositions(members, preds, c, true)| + |LocalPositions(members, preds, c, false)| == |members|
    ensures |LocalPositions(members, preds, c, true)| == |ClassBucket(members, preds, c)|
  {
    if members != [] {
      var n := |members| - 1;
      PositionsCounts(members[..n], preds, c);
      assert members[..n] == members[..|members| - 1];
    }
  }

  /**
   * The loop over a class's members: `isolated_indices_global` holds the
   * members predicted as the class, the local lists their positions and the
   * others' positions, and `labels[pt]` is 1 exactly for an isolated position.
   */
  method Partition(members: seq<nat>, preds: seq<nat>, c: nat)
    returns (isolatedGlobal: seq<nat>, isolatedLocal: seq<nat>, otherLocal: seq<nat>, flags: seq<nat>)
    requires IndicesBelow(members, |preds|)
    ensures isolatedGlobal == ClassBucket(members, preds, c)
    ensures isolatedLocal == LocalPositions(members, preds, c, true)
    ensures otherLocal == LocalPositions(members, preds, c, false)
    ensures |flags| == |members|
    ensures forall pt :: 0 <= pt < |members| ==> (flags[pt] == 1 <==> preds[members[pt]] == c) && flags[pt] <= 1
  {
    isolatedGlobal, isolatedLocal, otherLocal, flags := [], [], [], [];
    for pt := 0 to |members|
      invariant isolatedGlobal == ClassBucket(members[..pt], preds, c)
      invariant isolatedLocal == LocalPositions(members[..pt], preds, c, true)
      invariant otherLocal == LocalPositions(members[..pt], preds, c, false)
      invariant |flags| == pt
      invariant forall q :: 0 <= q < pt ==> (flags[q] == 1 <==> preds[members[q]] == c) && flags[q] <= 1
    {
      var i := members[pt];
      assert members[..pt + 1][..pt] == members[..pt];
      if preds[i] == c {
        isolatedGlobal := isolatedGlobal + [i];
        isolatedLocal := isolatedLocal + [pt];
        flags := flags + [1];
      } else {
        otherLocal := otherLocal + [pt];
        flags := flags + [0];
      }
    }
    assert members[..|members|] == members;
  }

  // ---------------------------------------------------------------------------
  // Likelihood ratios

  /**
   * The ratio of a class with n members, k of them isolated: the fitted ratio
   * when both clusters have at least two members, else the sentinel 1.
   */
  function SentinelRatio(k: nat, n: nat, fitted: real): real {
    if 2 <= k && k <= n - 2 then fitted else 1.0
  }

  /** `class_likelihood_ratio`, class by class. */
  function RatiosOf(classes: seq<seq<nat>>, preds: seq<nat>, fitted: seq<real>): (r: seq<real>)
    requires |fitted| == |classes|
    requires forall c :: 0 <= c < |classes| ==> IndicesBelow(classes[c], |preds|)
    ensures |r| == |classes|
  {
    seq(|classes|, c requires 0 <= c < |classes| =>
      SentinelRatio(|LocalPositions(classes[c], preds, c, true)|, |classes[c]|, fitted[c]))
  }

  /**
   * A class's ratio is the sentinel 1 when fewer than two of its members are
   * predicted as the class or fewer than two are not; otherwise it is the
   * fitted ratio.
   */
  lemma RatioSentinel(classes: seq<seq<nat>>, preds: seq<nat>, fitted: seq<real>, c: nat)
    requires |fitted| == |classes| && c < |classes|
    requires forall d :: 0 <= d < |classes| ==> IndicesBelow(classes[d], |preds|)
    ensures var isolated := |ClassBucket(classes[c], preds, c)|;
            var others := |LocalPositions(classes[c], preds, c, false)|;
            && (isolated < 2 || others < 2 ==> RatiosOf(classes, preds, fitted)[c] == 1.0)
            && (isolated >= 2 && others >= 2 ==> RatiosOf(classes, preds, fitted)[c] == fitted[c])
  {
    PositionsCounts(classes[c], preds, c);
  }

  /** The per-class loop: the chunklet scan, the partition and the ratio of each class. */
  method LikelihoodRatios(classes: seq<seq<nat>>, chunklets: seq<seq<nat>>, preds: seq<nat>, fitted: seq<real>)
    returns (ratios: seq<real>)
    requires |chunklets| == |classes| && |fitted| == |classes|
    requires forall c :: 0 <= c < |classes| ==> IndicesBelow(classes[c], |preds|)
    ensures ratios == RatiosOf(classes, preds, fitted)
  {
    ratios := [];
    for c := 0 to |classes|
      invariant |ratios| == c
      invariant forall d :: 0 <= d < c ==> ratios[d] == RatiosOf(classes, preds, fitted)[d]
    {
      var _ := ChunkletPositions(classes[c], chunklets[c]);
      var _, isolatedLocal, _, _ := Partition(classes[c], preds, c);
      var numIsolated := |isolatedLocal|;
      var ratio := if 2 <= numIsolated && numIsolated <= |classes[c]| - 2 then fitted[c] else 1.0;
      ratios := ratios + [ratio];
    }
  }

  // ---------------------------------------------------------------------------
  // The decision policy

  /** `np.array(class_likelihood_ratio).max()`. */
  function MaxOf(s: seq<real>): (r: real)
    requires |s| > 0
    ensures r in s
    ensures forall i :: 0 <= i < |s| ==> s[i] <= r
  {
    if |s| == 1 then s[0]
    else
      var m := MaxOf(s[..|s| - 1]);
      assert m in s;
      if s[|s| - 1] > m then s[|s| - 1] else m
  }

  /** A class is cleansed when its ratio is the maximum and above 1.5, or above the threshold 2. */
  predicate Flagged(ratio: real, maxRatio: real) {
    (ratio == maxRatio && ratio > MaxRatioBound) || ratio > Threshold
  }

  /**
   * The policy in terms of the ratios themselves: class c is flagged exactly
   * when its ratio exceeds 2, or exceeds 1.5 and no class has a larger one;
   * so every class tied at a maximum above 1.5 is flagged.
   */
  lemma FlagPolicy(ratios: seq<real>, c: nat)
    requires c < |ratios|
    ensures Flagged(ratios[c], MaxOf(ratios)) <==>
              ratios[c] > Threshold || (ratios[c] > MaxRatioBound && forall d :: 0 <= d < |ratios| ==> ratios[d] <= ratios[c])
  {
    var m := MaxOf(ratios);
    if ratios[c] > MaxRatioBound && forall d :: 0 <= d < |ratios| ==> ratios[d] <= ratios[c] {
      var j :| 0 <= j < |ratios| && ratios[j] == m;
      assert ratios[j] <= ratios[c];
    }
  }

  /** The members of classes `0 .. k-1` appended by the decision loop. */
  function SuspiciousOf(classes: seq<seq<nat>>, preds: seq<nat>, ratios: seq<real>, maxRatio: real, k: nat): seq<nat>
    requires k <= |classes| && k <= |ratios|
    requires forall c :: 0 <= c < |classes| ==> IndicesBelow(classes[c], |preds|)
  {
    if k == 0 then []
    else
      SuspiciousOf(classes, preds, ratios, maxRatio, k - 1)
      + (if Flagged(ratios[k - 1], maxRatio) then ClassBucket(classes[k - 1], preds, k - 1) else [])
  }

  /** `for i in class_indices[c]: if preds_inspection[i] == c: suspicious_indices.append(i)`. */
  method AppendIsolated(suspicious: seq<nat>, members: seq<nat>, preds: seq<nat>, c: nat) returns (r: seq<nat>)
    requires IndicesBelow(members, |preds|)
    ensures r == suspicious + ClassBucket(members, preds, c)
  {
    r := suspicious;
    for j := 0 to |members|
      invariant r == suspicious + ClassBucket(members[..j], preds, c)
    {
      assert members[..j + 1][..j] == members[..j];
      if preds[members[j]] == c {
        r := r + [members[j]];
      }
    }
    assert members[..|members|] == members;
  }

  /** The decision loop over the classes, in class order. */
  method CollectSuspicious(classes: seq<seq<nat>>, preds: seq<nat>, ratios: seq<real>, maxRatio: real)
    returns (suspicious: seq<nat>)
    requires |ratios| == |classes|
    requires forall c :: 0 <= c < |classes| ==> IndicesBelow(classes[c], |preds|)
    ensures suspicious == SuspiciousOf(classes, preds, ratios, maxRatio, |classes|)
  {
    suspicious := [];
    for c := 0 to |classes|
      invariant suspicious == SuspiciousOf(classes, preds, ratios, maxRatio, c)
    {
      var ratio := ratios[c];
      if ratio == maxRatio && ratio > MaxRatioBound {
        suspicious := AppendIsolated(suspicious, classes[c], preds, c);
      } else if ratio > Threshold {
        suspicious := AppendIsolated(suspicious, classes[c], preds, c);
      }
    }
  }

  // ---------------------------------------------------------------------------
  // The whole step

  /** What the identification step returns, or the exception it raises. */
  function Detection(labels: seq<nat>, preds: seq<nat>, clean: seq<nat>, numClasses: nat, fitted: seq<real>)
    : Result<seq<nat>, DetectError>
    requires |preds| == |labels| && |fitted| == numClasses && IndicesBelow(clean, |labels|)
  {
    match SizeError(ClassBuckets(Range(|labels|), labels, numClasses), ClassBuckets(clean, labels, numClasses), numClasses)
    case Some(e) => Failure(e)
    case None =>
      if numClasses == 0 then Failure(NoClasses)
      else
        var classes := AllClassMembers(labels, numClasses);
        MembersBelow(labels, numClasses);
        var ratios := RatiosOf(classes, preds, fitted);
        Success(SuspiciousOf(classes, preds, ratios, MaxOf(ratios), numClasses))
  }

  /** Every class's member list lies within the inspection set. */
  lemma MembersBelow(labels: seq<nat>, numClasses: nat)
    ensures forall c :: 0 <= c < numClasses ==> IndicesBelow(AllClassMembers(labels, numClasses)[c], |labels|)
  {
    forall c | 0 <= c < numClasses
      ensures IndicesBelow(AllClassMembers(labels, numClasses)[c], |labels|)
    {
      ClassMembersFacts(labels, c, 0);
    }
  }

  /** The ratios of the step, class by class (defined when the checks pass). */
  function DetectionRatios(labels: seq<nat>, preds: seq<nat>, numClasses: nat, fitted: seq<real>): (r: seq<real>)
    requires |preds| == |labels| && |fitted| == numClasses
    ensures |r| == numClasses
  {
    MembersBelow(labels, numClasses);
    RatiosOf(AllClassMembers(labels, numClasses), preds, fitted)
  }

  /**
   * `identify_poison_samples_simplified`, given the ground-truth labels and the
   * confused model's predictions on the inspection set, the clean chunklet and
   * the fitted ratio of each class.
   */
  method IdentifyPoisonSamples(labels: seq<nat>, preds: seq<nat>, clean: seq<nat>, numClasses: nat, fitted: seq<real>)
    returns (r: Result<seq<nat>, DetectError>)
    requires |preds| == |labels| && |fitted| == numClasses
    requires forall i :: 0 <= i < |labels| ==> labels[i] < numClasses
    requires IndicesBelow(clean, |labels|)
    ensures r == Detection(labels, preds, clean, numClasses, fitted)
  {
    var classIndices := BucketByClass(Range(|labels|), labels, numClasses);
    var chunkletIndices := BucketByClass(clean, labels, numClasses);
    assert classIndices == ClassBuckets(Range(|labels|), labels, numClasses);
    assert chunkletIndices == ClassBuckets(clean, labels, numClasses);
    var sortedClasses, sortedChunklets, err := CheckClassSizes(classIndices, chunkletIndices);
    if err.Some? {
      return Failure(err.value);
    }
    assert sortedClasses == AllClassMembers(labels, numClasses);
    MembersBelow(labels, numClasses);
    var ratios := LikelihoodRatios(sortedClasses, sortedChunklets, preds, fitted);
    if numClasses == 0 {
      return Failure(NoClasses);
    }
    var maxRatio := MaxOf(ratios);
    var suspicious := CollectSuspicious(sortedClasses, preds, ratios, maxRatio);
    r := Success(suspicious);
  }
}
