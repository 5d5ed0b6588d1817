/**
 * What a round of `distill` keeps, class by class: the per-class floor of the
 * non-final rounds, the lowest-loss prefixes of the ratio rounds, the final
 * rounds, the repeats of the correct-only rounds, and the per-class median band.
 */
module DistillationFacts {
  import opened Wrappers
  import opened Indices
  import opened Distillation

  /** Every entry of a class bucket is a sample index carrying that class's label. */
  lemma BucketLabelled(order: seq<nat>, labels: seq<nat>, c: nat)
    requires IndicesBelow(order, |labels|)
    ensures LabelledAs(ClassBucket(order, labels, c), labels, c)
  {
    var b := ClassBucket(order, labels, c);
    forall i | 0 <= i < |b|
      ensures b[i] < |labels| && labels[b[i]] == c
    {
      assert b[i] in b;
      BucketMembers(order, labels, c, b[i]);
    }
  }

  /**
   * A class bucket inherits the loss order of the ranking it is drawn from:
   * `top_indices_each_class[c]` runs from the lowest loss of class c upwards.
   */
  lemma {:induction false} BucketLossOrdered(order: seq<nat>, labels: seq<nat>, losses: seq<real>, c: nat)
    requires |labels| == |losses| && IndicesBelow(order, |losses|) && LossOrdered(order, losses)
    ensures LossOrdered(ClassBucket(order, labels, c), losses)
  {
    if order != [] {
      var n := |order| - 1;
      var p := order[..n];
      assert forall i :: 0 <= i < n ==> p[i] == order[i];
      BucketLossOrdered(p, labels, losses, c);
      var b := ClassBucket(p, labels, c);
      if labels[order[n]] == c {
        forall i | 0 <= i < |b|
          ensures losses[b[i]] <= losses[order[n]]
        {
          assert b[i] in b;
          BucketMembers(p, labels, c, b[i]);
          var m :| 0 <= m < |p| && p[m] == b[i];
        }
      }
    }
  }

  /** Every entry of `piece` is a sample index carrying label d. */
  predicate LabelledAs(piece: seq<nat>, labels: seq<nat>, d: nat) {
    IndicesBelow(piece, |labels|) && forall i :: 0 <= i < |piece| ==> labels[piece[i]] == d
  }

  /** Appending entries that all carry label d adds them to the class-d bucket and nothing to the others. */
  lemma AppendClassPiece(prev: seq<nat>, piece: seq<nat>, labels: seq<nat>, c: nat, d: nat)
    requires IndicesBelow(prev, |labels|) && LabelledAs(piece, labels, d)
    ensures IndicesBelow(prev + piece, |labels|)
    ensures ClassBucket(prev + piece, labels, c) == ClassBucket(prev, labels, c) + (if c == d then piece else [])
  {
    BucketOfUniform(piece, labels, c);
    BucketConcat(prev, piece, labels, c);
    if c != d {
      assert ClassBucket(prev, labels, c) + [] == ClassBucket(prev, labels, c);
    }
  }

  /**
   * One step of a class-by-class loop: if `prev` holds, of class c, `want` when
   * c < d and nothing otherwise, then appending class d's piece (which is `want`
   * when c == d) extends that to c <= d.
   */
  lemma ExtendPerClass(prev: seq<nat>, piece: seq<nat>, labels: seq<nat>, c: nat, d: nat, want: seq<nat>)
    requires IndicesBelow(prev, |labels|) && LabelledAs(piece, labels, d)
    requires ClassBucket(prev, labels, c) == if c < d then want else []
    requires c == d ==> piece == want
    ensures IndicesBelow(prev + piece, |labels|)
    ensures ClassBucket(prev + piece, labels, c) == if c <= d then want else []
  {
    AppendClassPiece(prev, piece, labels, c, d);
    if c < d {
      assert want + [] == want;
    } else if c == d {
      assert [] + piece == piece;
    }
  }

  /** What the floor loop adds for a class is drawn from its bucket, so it carries the bucket's label. */
  lemma ExtraLabelled(bucket: seq<nat>, collected: nat, rateFactor: nat, labels: seq<nat>, d: nat)
    requires LabelledAs(bucket, labels, d) && rateFactor > 0
    ensures LabelledAs(FloorExtra(bucket, collected, rateFactor), labels, d)
  {
    var extra := FloorExtra(bucket, collected, rateFactor);
    forall i | 0 <= i < |extra|
      ensures extra[i] < |labels| && labels[extra[i]] == d
    {
      assert extra[i] == bucket[collected + i];
    }
  }

  /** Pieces `0 .. k-1` laid end to end. */
  function Concat(pieces: seq<seq<nat>>, k: nat): seq<nat>
    requires k <= |pieces|
  {
    if k == 0 then [] else Concat(pieces, k - 1) + pieces[k - 1]
  }

  /** With piece d holding only class-d samples, the class-c entries of pieces 0..k-1 are exactly piece c. */
  lemma {:induction false} ConcatPerClass(pieces: seq<seq<nat>>, labels: seq<nat>, k: nat, c: nat)
    requires k <= |pieces|
    requires forall d :: 0 <= d < |pieces| ==> LabelledAs(pieces[d], labels, d)
    ensures IndicesBelow(Concat(pieces, k), |labels|)
    ensures ClassBucket(Concat(pieces, k), labels, c) == if c < k then pieces[c] else []
  {
    if k > 0 {
      ConcatPerClass(pieces, labels, k - 1, c);
      var d := k - 1;
      var want := if c < k then pieces[c] else [];
      assert LabelledAs(pieces[d], labels, d);
      ExtendPerClass(Concat(pieces, d), pieces[d], labels, c, d, want);
    }
  }

  /** The floor additions are the per-class floor extras laid end to end. */
  lemma {:induction false} AdditionsAreConcat(buckets: seq<seq<nat>>, counts: seq<nat>, k: nat, rateFactor: nat,
                                              pieces: seq<seq<nat>>)
    requires k <= |buckets| && k <= |counts| && k <= |pieces| && rateFactor > 0
    requires forall d :: 0 <= d < k ==> pieces[d] == FloorExtra(buckets[d], counts[d], rateFactor)
    ensures FloorAdditions(buckets, counts, k, rateFactor) == Concat(pieces, k)
  {
    if k > 0 {
      AdditionsAreConcat(buckets, counts, k - 1, rateFactor, pieces);
    }
  }

  /**
   * With bucket d holding only class-d samples, the class-c entries of the floor
   * additions for classes 0..k-1 are exactly class c's own addition.
   */
  lemma AdditionsPerClass(buckets: seq<seq<nat>>, counts: seq<nat>, labels: seq<nat>, k: nat, rateFactor: nat, c: nat)
    requires k <= |buckets| && k <= |counts| && rateFactor > 0
    requires forall d :: 0 <= d < |buckets| ==> LabelledAs(buckets[d], labels, d)
    ensures IndicesBelow(FloorAdditions(buckets, counts, k, rateFactor), |labels|)
    ensures ClassBucket(FloorAdditions(buckets, counts, k, rateFactor), labels, c)
            == if c < k then FloorExtra(buckets[c], counts[c], rateFactor) else []
  {
    var pieces := seq(k, d requires 0 <= d < k => FloorExtra(buckets[d], counts[d], rateFactor));
    forall d | 0 <= d < |pieces|
      ensures LabelledAs(pieces[d], labels, d)
    {
      ExtraLabelled(buckets[d], counts[d], rateFactor, labels, d);
    }
    AdditionsAreConcat(buckets, counts, k, rateFactor, pieces);
    ConcatPerClass(pieces, labels, k, c);
  }

  /** The class-c entries of the floor additions for classes 0..k-1 are exactly class c's own addition. */
  lemma FloorAdditionsPerClass(order: seq<nat>, labels: seq<nat>, head: seq<nat>, numClasses: nat,
                               k: nat, rateFactor: nat, c: nat)
    requires IndicesBelow(order, |labels|) && IndicesBelow(head, |labels|) && k <= numClasses && rateFactor > 0
    ensures var fa := FloorAdditions(ClassBuckets(order, labels, numClasses), ClassCounts(head, labels, numClasses),
                                     k, rateFactor);
            && IndicesBelow(fa, |labels|)
            && ClassBucket(fa, labels, c)
               == if c < k then FloorExtra(ClassBucket(order, labels, c), ClassCount(head, labels, c), rateFactor) else []
  {
    var bs, cs := ClassBuckets(order, labels, numClasses), ClassCounts(head, labels, numClasses);
    forall d | 0 <= d < |bs|
      ensures LabelledAs(bs[d], labels, d)
    {
      BucketLabelled(order, labels, d);
    }
    AdditionsPerClass(bs, cs, labels, k, rateFactor, c);
  }

  /**
   * Non-final round, class c: the kept class-c entries are the head's, followed
   * by the bucket entries from the head's count up to `len(bucket) // rate_factor`.
   */
  lemma NonFinalClassShare(samples: seq<Sample>, order: seq<nat>, numClasses: nat, schedule: seq<Option<real>>,
                           nIter: nat, c: nat)
    requires IndicesBelow(order, |samples|) && ValidSchedule(schedule) && nIter < |schedule| && c < numClasses
    ensures var labels := Labels(samples);
            var head := RoundHead(samples, order, schedule[nIter]);
            ClassBucket(Selection(samples, order, numClasses, schedule, nIter, None), labels, c)
            == ClassBucket(head, labels, c)
               + FloorExtra(ClassBucket(order, labels, c), ClassCount(head, labels, c), RateFactor(nIter, |schedule|))
  {
    var labels := Labels(samples);
    var head := RoundHead(samples, order, schedule[nIter]);
    var rf := RateFactor(nIter, |schedule|);
    var fa := FloorAdditions(ClassBuckets(order, labels, numClasses), ClassCounts(head, labels, numClasses),
                             numClasses, rf);
    FloorAdditionsPerClass(order, labels, head, numClasses, numClasses, rf, c);
    BucketConcat(head, fa, labels, c);
  }

  /**
   * The per-class floor: after a non-final round, class c holds as many entries
   * as the head gave it, or `len(bucket) // rate_factor` if that is more.
   */
  lemma NonFinalClassCount(samples: seq<Sample>, order: seq<nat>, numClasses: nat, schedule: seq<Option<real>>,
                           nIter: nat, c: nat)
    requires IndicesBelow(order, |samples|) && ValidSchedule(schedule) && nIter < |schedule| && c < numClasses
    ensures var labels := Labels(samples);
            var head := RoundHead(samples, order, schedule[nIter]);
            ClassCount(Selection(samples, order, numClasses, schedule, nIter, None), labels, c)
            == Max(ClassCount(head, labels, c), MinimalSampleNum(|ClassBucket(order, labels, c)|, RateFactor(nIter, |schedule|)))
  {
    NonFinalClassShare(samples, order, numClasses, schedule, nIter, c);
  }

  /** `sorted_indices[:m]` is a prefix of the ranking. */
  lemma TakePrefix(s: seq<nat>, k: nat)
    ensures Take(s, k) == s[..|Take(s, k)|]
  {
  }

  /**
   * A ratio round keeps, of class c, exactly a prefix of the class's bucket, as
   * long as the head's count or the floor, whichever is larger; for a loss
   * ranking that prefix is the lowest-loss part: no kept class-c sample has a
   * larger loss than a class-c sample left out.
   */
  lemma RatioRoundClassShare(samples: seq<Sample>, order: seq<nat>, numClasses: nat, schedule: seq<Option<real>>,
                             nIter: nat, c: nat)
    requires IndicesBelow(order, |samples|) && ValidSchedule(schedule) && nIter < |schedule| && c < numClasses
    requires schedule[nIter].Some?
    ensures var labels := Labels(samples);
            var head := RoundHead(samples, order, schedule[nIter]);
            var bucket := ClassBucket(order, labels, c);
            var kept := Max(ClassCount(head, labels, c), MinimalSampleNum(|bucket|, RateFactor(nIter, |schedule|)));
            && kept <= |bucket|
            && ClassBucket(Selection(samples, order, numClasses, schedule, nIter, None), labels, c) == bucket[..kept]
            && (LossOrdered(order, Losses(samples)) ==>
                  forall i, j :: 0 <= i < kept <= j < |bucket| ==> samples[bucket[i]].loss <= samples[bucket[j]].loss)
  {
    var labels := Labels(samples);
    var head := RoundHead(samples, order, schedule[nIter]);
    var bucket := ClassBucket(order, labels, c);
    HeadSharePrefix(order, labels, c, RatioCount(schedule[nIter].value, |samples|));
    NonFinalClassShare(samples, order, numClasses, schedule, nIter, c);
    PrefixThenFloor(bucket, ClassCount(head, labels, c), RateFactor(nIter, |schedule|));
    if LossOrdered(order, Losses(samples)) {
      BucketLossOrdered(order, labels, Losses(samples), c);
    }
  }

  /** The class-c entries of the `m` lowest-loss indices are a prefix of class c's bucket. */
  lemma HeadSharePrefix(order: seq<nat>, labels: seq<nat>, c: nat, m: nat)
    requires IndicesBelow(order, |labels|)
    ensures var bucket := ClassBucket(order, labels, c);
            var share := ClassBucket(Take(order, m), labels, c);
            |share| <= |bucket| && share == bucket[..|share|]
  {
    TakePrefix(order, m);
    BucketPrefix(order, labels, c, |Take(order, m)|);
  }

  /** A bucket prefix followed by the floor loop's additions is the bucket prefix of the larger length. */
  lemma PrefixThenFloor(bucket: seq<nat>, collected: nat, rateFactor: nat)
    requires collected <= |bucket| && rateFactor > 0
    ensures Max(collected, MinimalSampleNum(|bucket|, rateFactor)) <= |bucket|
    ensures bucket[..collected] + FloorExtra(bucket, collected, rateFactor)
            == bucket[..Max(collected, MinimalSampleNum(|bucket|, rateFactor))]
  {
    var minimal := MinimalSampleNum(|bucket|, rateFactor);
    if collected < minimal {
      assert bucket[..collected] + bucket[collected..minimal] == bucket[..minimal];
    } else {
      assert bucket[..collected] + [] == bucket[..collected];
    }
  }

  /** An index of a sample whose label is below numClasses has no class-c entry for c >= numClasses. */
  lemma BucketAboveClasses(s: seq<nat>, samples: seq<Sample>, numClasses: nat, c: nat)
    requires IndicesBelow(s, |samples|) && Labelled(samples, numClasses) && numClasses <= c
    ensures ClassBucket(s, Labels(samples), c) == []
  {
    BucketOfUniform(s, Labels(samples), c);
  }

  /** A ratio round keeps no index twice: each class's share is a prefix of a bucket without repeats. */
  lemma RatioRoundNoDups(samples: seq<Sample>, order: seq<nat>, numClasses: nat, schedule: seq<Option<real>>, nIter: nat)
    requires IsLossOrder(order, Losses(samples)) && Labelled(samples, numClasses)
    requires ValidSchedule(schedule) && nIter < |schedule| && schedule[nIter].Some?
    ensures NoDups(Selection(samples, order, numClasses, schedule, nIter, None))
  {
    var labels := Labels(samples);
    var sel := Selection(samples, order, numClasses, schedule, nIter, None);
    PermutationFacts(order, |samples|);
    forall c: nat
      ensures NoDups(ClassBucket(sel, labels, c))
    {
      if c < numClasses {
        RatioRoundClassShare(samples, order, numClasses, schedule, nIter, c);
        BucketNoDups(order, labels, c);
      } else {
        BucketAboveClasses(sel, samples, numClasses, c);
      }
    }
    NoDupsByClass(sel, labels);
  }

  /** A sorted list without repeats is strictly increasing. */
  lemma SortedNoDupsIncreasing(s: seq<int>)
    requires Sorted(s) && NoDups(s)
    ensures StrictlyIncreasing(s)
  {
  }

  /** After a ratio round, the sorted distilled list is strictly increasing and as long as the selection. */
  lemma RatioRoundDistilled(samples: seq<Sample>, order: seq<nat>, numClasses: nat, schedule: seq<Option<real>>,
                            nIter: nat, distilled: seq<nat>)
    requires IsLossOrder(order, Losses(samples)) && Labelled(samples, numClasses)
    requires ValidSchedule(schedule) && nIter < |schedule| && schedule[nIter].Some?
    requires Sorted(distilled)
    requires multiset(distilled) == multiset(Selection(samples, order, numClasses, schedule, nIter, None))
    ensures StrictlyIncreasing(distilled)
    ensures |distilled| == |Selection(samples, order, numClasses, schedule, nIter, None)|
  {
    RatioRoundNoDups(samples, order, numClasses, schedule, nIter);
    NoDupsPermutation(Selection(samples, order, numClasses, schedule, nIter, None), distilled);
    SortedNoDupsIncreasing(distilled);
    assert |multiset(distilled)| == |distilled|;
  }

  /** Every index in the first k entries of a loss ranking has no larger loss than any index outside them. */
  lemma {:induction false} TakeIsLowestLoss(order: seq<nat>, losses: seq<real>, k: nat, x: nat, y: nat)
    requires IsLossOrder(order, losses)
    requires x in Take(order, k) && y < |losses| && y !in Take(order, k)
    ensures losses[x] <= losses[y]
  {
    PermutationFacts(order, |losses|);
    var t := Take(order, k);
    TakePrefix(order, k);
    var i :| 0 <= i < |t| && t[i] == x;
    assert y in order;
    var j :| 0 <= j < |order| && order[j] == y;
    assert order[i] == x;
  }

  /**
   * The final round with a budget b: the distilled list is the b lowest-loss
   * indices (all of them when b exceeds the count), in increasing order.
   */
  lemma FinalBudgetResult(samples: seq<Sample>, order: seq<nat>, numClasses: nat, schedule: seq<Option<real>>,
                          nIter: nat, b: nat, distilled: seq<nat>)
    requires IsLossOrder(order, Losses(samples)) && ValidSchedule(schedule) && |schedule| <= nIter
    requires Sorted(distilled)
    requires multiset(distilled) == multiset(Selection(samples, order, numClasses, schedule, nIter, Some(b)))
    ensures StrictlyIncreasing(distilled)
    ensures |distilled| == if b <= |samples| then b else |samples|
    ensures IndicesBelow(distilled, |samples|)
    ensures forall x, y :: x in distilled && 0 <= y < |samples| && y !in distilled ==> samples[x].loss <= samples[y].loss
  {
    var t := Take(order, b);
    PermutationFacts(order, |samples|);
    TakePrefix(order, b);
    assert NoDups(t);
    NoDupsPermutation(t, distilled);
    SortedNoDupsIncreasing(distilled);
    assert |multiset(distilled)| == |distilled|;
    IndicesBelowPermutation(t, distilled, |samples|);
    forall x, y | x in distilled && 0 <= y < |samples| && y !in distilled
      ensures samples[x].loss <= samples[y].loss
    {
      assert x in multiset(t);
      assert y !in multiset(t);
      TakeIsLowestLoss(order, Losses(samples), b, x, y);
    }
  }

  /** The final round without a budget: the distilled list is `correct_instances` itself, unchanged by the sort. */
  lemma FinalCorrectResult(samples: seq<Sample>, order: seq<nat>, numClasses: nat, schedule: seq<Option<real>>,
                           nIter: nat, distilled: seq<nat>)
    requires IndicesBelow(order, |samples|) && ValidSchedule(schedule) && |schedule| <= nIter
    requires Sorted(distilled)
    requires multiset(distilled) == multiset(Selection(samples, order, numClasses, schedule, nIter, None))
    ensures distilled == CorrectPositions(samples)
    ensures forall j :: j in distilled <==> 0 <= j < |samples| && samples[j].pred == samples[j].gt
  {
    SortedUnique(CorrectPositions(samples), distilled);
  }

  /**
   * In a correct-only non-final round the floor can repeat an index: a
   * correctly classified class-c sample at bucket position p, with
   * `class_dist[c] <= p < len(bucket) // rate_factor`, is in the head and is
   * appended again.
   */
  lemma CorrectOnlyRoundMayRepeat(samples: seq<Sample>, order: seq<nat>, numClasses: nat, schedule: seq<Option<real>>,
                                  nIter: nat, c: nat, p: nat)
    requires IndicesBelow(order, |samples|) && ValidSchedule(schedule) && nIter < |schedule| && c < numClasses
    requires schedule[nIter].None?
    requires var labels := Labels(samples);
             var bucket := ClassBucket(order, labels, c);
             && ClassCount(CorrectPositions(samples), labels, c) <= p
             && p < MinimalSampleNum(|bucket|, RateFactor(nIter, |schedule|))
             && samples[bucket[p]].pred == samples[bucket[p]].gt
    ensures multiset(Selection(samples, order, numClasses, schedule, nIter, None))
              [ClassBucket(order, Labels(samples), c)[p]] >= 2
  {
    var labels := Labels(samples);
    var head := CorrectPositions(samples);
    var x := ClassBucket(order, labels, c)[p];
    var rf := RateFactor(nIter, |schedule|);
    var fa := FloorAdditions(ClassBuckets(order, labels, numClasses), ClassCounts(head, labels, numClasses),
                             numClasses, rf);
    assert Selection(samples, order, numClasses, schedule, nIter, None) == head + fa;
    FloorIncludes(ClassBuckets(order, labels, numClasses), ClassCounts(head, labels, numClasses), numClasses, rf, c, p);
    assert x in head;
    assert multiset(head + fa)[x] == multiset(head)[x] + multiset(fa)[x];
  }

  /** Bucket position p with `class_dist[c] <= p < minimal` is among the floor additions. */
  lemma {:induction false} FloorIncludes(buckets: seq<seq<nat>>, counts: seq<nat>, k: nat, rateFactor: nat, c: nat, p: nat)
    requires k <= |buckets| && k <= |counts| && rateFactor > 0 && c < k
    requires counts[c] <= p < MinimalSampleNum(|buckets[c]|, rateFactor)
    ensures buckets[c][p] in FloorAdditions(buckets, counts, k, rateFactor)
  {
    var prev := FloorAdditions(buckets, counts, k - 1, rateFactor);
    var extra := FloorExtra(buckets[k - 1], counts[k - 1], rateFactor);
    assert FloorAdditions(buckets, counts, k, rateFactor) == prev + extra;
    if c == k - 1 {
      assert extra[p - counts[c]] == buckets[c][p];
      assert buckets[c][p] in extra;
    } else {
      FloorIncludes(buckets, counts, k - 1, rateFactor, c, p);
      assert buckets[c][p] in prev;
    }
  }

  /** Every entry of class d's band is a sample of class d. */
  lemma BandLabels(order: seq<nat>, labels: seq<nat>, d: nat, rate: real)
    requires IndicesBelow(order, |labels|) && 0.0 <= rate <= 1.0
    ensures LabelledAs(Band(ClassBucket(order, labels, d), rate), labels, d)
  {
    var bucket := ClassBucket(order, labels, d);
    var band := Band(bucket, rate);
    forall i | 0 <= i < |band|
      ensures band[i] < |labels| && labels[band[i]] == d
    {
      assert band[i] in band;
      BandWithin(bucket, rate, band[i]);
      BucketMembers(order, labels, d, band[i]);
    }
  }

  /** The pieces laid end to end, piece 0 first. */
  function Joined(pieces: seq<seq<nat>>): seq<nat> {
    if |pieces| == 0 then [] else Joined(pieces[..|pieces| - 1]) + pieces[|pieces| - 1]
  }

  /** With piece d holding only class-d samples, the class-c entries of the joined pieces are piece c. */
  lemma {:induction false} JoinedPerClass(pieces: seq<seq<nat>>, labels: seq<nat>, c: nat)
    requires forall d :: 0 <= d < |pieces| ==> LabelledAs(pieces[d], labels, d)
    ensures IndicesBelow(Joined(pieces), |labels|)
    ensures ClassBucket(Joined(pieces), labels, c) == if c < |pieces| then pieces[c] else []
  {
    if |pieces| > 0 {
      var d := |pieces| - 1;
      var init := pieces[..d];
      assert forall e :: 0 <= e < |init| ==> init[e] == pieces[e];
      JoinedPerClass(init, labels, c);
      if c < d {
        ExtendPerClass(Joined(init), pieces[d], labels, c, d, pieces[c]);
      } else {
        ExtendPerClass(Joined(init), pieces[d], labels, c, d, if c == d then pieces[d] else []);
      }
    }
  }

  /** The bands of classes 0..k-1, in class order. */
  function Bands(order: seq<nat>, labels: seq<nat>, k: nat, rate: real): (r: seq<seq<nat>>)
    requires IndicesBelow(order, |labels|) && 0.0 <= rate <= 1.0
    ensures |r| == k
  {
    seq(k, d requires 0 <= d < k => Band(ClassBucket(order, labels, d), rate))
  }

  /** The median band is the class bands joined in class order. */
  lemma {:induction false} MedianBandJoined(order: seq<nat>, labels: seq<nat>, k: nat, rate: real)
    requires IndicesBelow(order, |labels|) && 0.0 <= rate <= 1.0
    ensures MedianBand(order, labels, k, rate) == Joined(Bands(order, labels, k, rate))
  {
    if k > 0 {
      MedianBandJoined(order, labels, k - 1, rate);
      assert Bands(order, labels, k, rate)[..k - 1] == Bands(order, labels, k - 1, rate);
    }
  }

  /** The median band holds, of each class, exactly that class's band. */
  lemma MedianBandPerClass(order: seq<nat>, labels: seq<nat>, k: nat, rate: real, c: nat)
    requires IndicesBelow(order, |labels|) && 0.0 <= rate <= 1.0
    ensures IndicesBelow(MedianBand(order, labels, k, rate), |labels|)
    ensures ClassBucket(MedianBand(order, labels, k, rate), labels, c)
            == if c < k then Band(ClassBucket(order, labels, c), rate) else []
  {
    var bands := Bands(order, labels, k, rate);
    forall d | 0 <= d < k
      ensures LabelledAs(bands[d], labels, d)
    {
      BandLabels(order, labels, d, rate);
    }
    MedianBandJoined(order, labels, k, rate);
    JoinedPerClass(bands, labels, c);
  }

  /**
   * The class-c part of the median set is the run `st .. ed-1` of the class's
   * loss-sorted bucket: every class-c sample ranked before the band has no
   * larger loss than a band entry, and every one ranked after it no smaller.
   */
  lemma MedianBandLossCentred(order: seq<nat>, labels: seq<nat>, losses: seq<real>, k: nat, rate: real, c: nat)
    requires |labels| == |losses| && IndicesBelow(order, |labels|) && LossOrdered(order, losses)
    requires 0.0 <= rate <= 1.0 && c < k
    ensures var bucket := ClassBucket(order, labels, c);
            var st, ed := BandStart(|bucket|, rate), BandEnd(|bucket|, rate);
            && 0 <= st <= ed <= |bucket|
            && IndicesBelow(MedianBand(order, labels, k, rate), |labels|)
            && ClassBucket(MedianBand(order, labels, k, rate), labels, c) == bucket[st..ed]
            && (forall i, j :: 0 <= i < st <= j < ed ==> losses[bucket[i]] <= losses[bucket[j]])
            && (forall i, j :: st <= i < ed <= j < |bucket| ==> losses[bucket[i]] <= losses[bucket[j]])
  {
    var bucket := ClassBucket(order, labels, c);
    BandBounds(|bucket|, rate);
    MedianBandPerClass(order, labels, k, rate, c);
    BucketLossOrdered(order, labels, losses, c);
  }
}
