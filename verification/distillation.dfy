/**
 * Sample distillation (`distill`): ranks the inspected samples by loss, keeps a
 * low-loss working set for the next confusion round with a per-class floor,
 * and cuts a per-class "median band" out of the loss ranking.
 *
 * The forward pass of the confused model is not modelled: each inspected sample
 * arrives as its loss, ground-truth label and predicted label, batch by batch,
 * and the loss ranking `np.argsort(loss_array)` is an input `order` that may be
 * any permutation of the indices that is non-decreasing in loss.
 */
module Distillation {
  import opened Wrappers
  import opened Indices
  import opened Arith

  /** What one forward pass of the confused model yields for one inspected sample. */
  datatype Sample = Sample(loss: real, gt: nat, pred: nat)

  function Max(a: int, b: int): int {
    if a < b then b else a
  }

  /** The samples of all batches, in loader order (shuffle=False). */
  function Flatten(batches: seq<seq<Sample>>): seq<Sample> {
    if batches == [] then [] else Flatten(batches[..|batches| - 1]) + batches[|batches| - 1]
  }

  function Losses(s: seq<Sample>): (r: seq<real>)
    ensures |r| == |s| && forall i :: 0 <= i < |s| ==> r[i] == s[i].loss
  {
    seq(|s|, i requires 0 <= i < |s| => s[i].loss)
  }

  function Labels(s: seq<Sample>): (r: seq<nat>)
    ensures |r| == |s| && forall i :: 0 <= i < |s| ==> r[i] == s[i].gt
  {
    seq(|s|, i requires 0 <= i < |s| => s[i].gt)
  }

  /** Every ground-truth label names one of the `numClasses` classes. */
  predicate Labelled(s: seq<Sample>, numClasses: nat) {
    forall j :: 0 <= j < |s| ==> s[j].gt < numClasses
  }

  /**
   * `correct_instances`: the global positions of the correctly classified
   * samples. They come out strictly increasing, and a position is listed
   * exactly when the prediction there equals the ground truth.
   */
  function CorrectPositions(s: seq<Sample>): (r: seq<nat>)
    ensures StrictlyIncreasing(r) && IndicesBelow(r, |s|)
    ensures forall j :: j in r <==> 0 <= j < |s| && s[j].pred == s[j].gt
  {
    if s == [] then []
    else
      var last := |s| - 1;
      CorrectPositions(s[..last]) + (if s[last].pred == s[last].gt then [last] else [])
  }

  predicate LossOrdered(order: seq<nat>, losses: seq<real>)
    requires IndicesBelow(order, |losses|)
  {
    forall i, j :: 0 <= i < j < |order| ==> losses[order[i]] <= losses[order[j]]
  }

  /**
   * `order` is a possible result of `np.argsort(losses)`: a permutation of the
   * indices, non-decreasing in loss. The default sort kind is not stable, so
   * samples of equal loss may come in any order.
   */
  predicate IsLossOrder(order: seq<nat>, losses: seq<real>) {
    IsIndexPermutation(order, |losses|) && IndicesBelow(order, |losses|) && LossOrdered(order, losses)
  }

  /** The distillation ratios, one per non-final round; None is the "correct-only" setting. */
  predicate ValidSchedule(schedule: seq<Option<real>>) {
    forall r :: 0 <= r < |schedule| && schedule[r].Some? ==> 0.0 <= schedule[r].value
  }

  // ---------------------------------------------------------------------------
  // Collecting losses, labels and correct positions

  lemma FlattenStep(batches: seq<seq<Sample>>, b: nat)
    requires b < |batches|
    ensures Flatten(batches[..b + 1]) == Flatten(batches[..b]) + batches[b]
  {
    assert batches[..b + 1][..b] == batches[..b];
  }

  lemma CollectStep(prefix: seq<Sample>, y: Sample)
    ensures Losses(prefix + [y]) == Losses(prefix) + [y.loss]
    ensures Labels(prefix + [y]) == Labels(prefix) + [y.gt]
  {
  }

  lemma CorrectStep(prefix: seq<Sample>, y: Sample)
    ensures CorrectPositions(prefix + [y]) == CorrectPositions(prefix) + (if y.pred == y.gt then [|prefix|] else [])
  {
    assert (prefix + [y])[..|prefix|] == prefix;
  }

  /**
   * The collection loop: walks the batches with the running offset `st` and
   * appends, per sample, its loss, its label and (when correctly classified)
   * its global position `st + i`.
   */
  method CollectSamples(batches: seq<seq<Sample>>) returns (losses: seq<real>, gts: seq<nat>, correct: IndexList)
    ensures fresh(correct)
    ensures losses == Losses(Flatten(batches))
    ensures gts == Labels(Flatten(batches))
    ensures correct.items == CorrectPositions(Flatten(batches))
  {
    losses, gts := [], [];
    correct := new IndexList.Empty();
    var st := 0;
    for b := 0 to |batches|
      invariant st == |Flatten(batches[..b])|
      invariant losses == Losses(Flatten(batches[..b]))
      invariant gts == Labels(Flatten(batches[..b]))
      invariant correct.items == CorrectPositions(Flatten(batches[..b]))
    {
      FlattenStep(batches, b);
      losses, gts := CollectBatch(batches[b], Flatten(batches[..b]), st, losses, gts, correct);
      st := st + |batches[b]|;
    }
    assert batches[..|batches|] == batches;
  }

  /** The inner loop over one batch that starts at global position `st`, after the samples `done`. */
  method CollectBatch(batch: seq<Sample>, ghost done: seq<Sample>, st: nat, losses0: seq<real>, gts0: seq<nat>,
                      correct: IndexList)
    returns (losses: seq<real>, gts: seq<nat>)
    requires st == |done| && losses0 == Losses(done) && gts0 == Labels(done)
    requires correct.items == CorrectPositions(done)
    modifies correct
    ensures losses == Losses(done + batch) && gts == Labels(done + batch)
    ensures correct.items == CorrectPositions(done + batch)
  {
    losses, gts := losses0, gts0;
    assert done + batch[..0] == done;
    for i := 0 to |batch|
      invariant losses == Losses(done + batch[..i])
      invariant gts == Labels(done + batch[..i])
      invariant correct.items == CorrectPositions(done + batch[..i])
    {
      assert done + batch[..i + 1] == (done + batch[..i]) + [batch[i]];
      losses, gts := CollectOne(done + batch[..i], batch[i], st + i, losses, gts, correct);
    }
    assert batch[..|batch|] == batch;
  }

  /** The loop body for one sample at global position `pos`, after the samples `seen`. */
  method CollectOne(ghost seen: seq<Sample>, y: Sample, pos: nat, losses0: seq<real>, gts0: seq<nat>, correct: IndexList)
    returns (losses: seq<real>, gts: seq<nat>)
    requires pos == |seen| && losses0 == Losses(seen) && gts0 == Labels(seen)
    requires correct.items == CorrectPositions(seen)
    modifies correct
    ensures losses == Losses(seen + [y]) && gts == Labels(seen + [y])
    ensures correct.items == CorrectPositions(seen + [y])
  {
    CollectStep(seen, y);
    CorrectStep(seen, y);
    losses := losses0 + [y.loss];
    gts := gts0 + [y.gt];
    if y.pred == y.gt {
      correct.Append(pos);
    }
  }

  // ---------------------------------------------------------------------------
  // The selection of one round

  /** `int(ratio * num_samples)` for a non-negative ratio. */
  function RatioCount(ratio: real, n: nat): nat
    requires 0.0 <= ratio
  {
    var x := ratio * (n as real);
    assert 0.0 <= x;
    x.Floor
  }

  /** `rate_factor` of non-final round `nIter` when there are `rounds` non-final rounds. */
  function RateFactor(nIter: nat, rounds: nat): (r: nat)
    requires nIter < rounds
    ensures r == 50 || r == 100
    ensures r == 100 <==> nIter == rounds - 1
  {
    var numConfusionIter := rounds + 1;
    if nIter < numConfusionIter - 2 then 50 else 100
  }

  function ClassCount(s: seq<nat>, labels: seq<nat>, c: nat): nat
    requires IndicesBelow(s, |labels|)
  {
    |ClassBucket(s, labels, c)|
  }

  /** The head of a non-final round: the correct positions, or the `int(ratio * N)` lowest-loss indices. */
  function RoundHead(samples: seq<Sample>, order: seq<nat>, ratio: Option<real>): (r: seq<nat>)
    requires IndicesBelow(order, |samples|)
    requires ratio.Some? ==> 0.0 <= ratio.value
    ensures IndicesBelow(r, |samples|)
  {
    match ratio
    case None => CorrectPositions(samples)
    case Some(q) => Take(order, RatioCount(q, |samples|))
  }

  /**
   * `minimal_sample_num = len(bucket) // rate_factor` (Python's `//` agrees with Dafny's `/` on
   * non-negative operands): never more than the bucket holds.
   */
  function MinimalSampleNum(bucketSize: nat, rateFactor: nat): (r: nat)
    requires rateFactor > 0
    ensures r <= bucketSize
  {
    DivAtMost(bucketSize, rateFactor);
    bucketSize / rateFactor
  }

  /** What the floor loop appends for one class: bucket positions `collected .. minimal-1`. */
  function FloorExtra(bucket: seq<nat>, collected: nat, rateFactor: nat): (r: seq<nat>)
    requires rateFactor > 0
    ensures collected + |r| == Max(collected, MinimalSampleNum(|bucket|, rateFactor))
    ensures forall i :: 0 <= i < |r| ==> collected + i < |bucket| && r[i] == bucket[collected + i]
  {
    var minimal := MinimalSampleNum(|bucket|, rateFactor);
    if collected < minimal then bucket[collected..minimal] else []
  }

  /** `class_dist`: the per-class counts of `s` for classes `0 .. numClasses-1`. */
  function ClassCounts(s: seq<nat>, labels: seq<nat>, numClasses: nat): (r: seq<nat>)
    requires IndicesBelow(s, |labels|)
  {
    seq(numClasses, c requires 0 <= c < numClasses => ClassCount(s, labels, c))
  }

  /** What the floor loop appends for classes `0 .. k-1`, given the buckets and the counted head. */
  function FloorAdditions(buckets: seq<seq<nat>>, counts: seq<nat>, k: nat, rateFactor: nat): (r: seq<nat>)
    requires k <= |buckets| && k <= |counts| && rateFactor > 0
  {
    if k == 0 then []
    else FloorAdditions(buckets, counts, k - 1, rateFactor) + FloorExtra(buckets[k - 1], counts[k - 1], rateFactor)
  }

  /** The floor additions are drawn from the buckets, so they index what the buckets index. */
  lemma {:induction false} FloorAdditionsBelow(buckets: seq<seq<nat>>, counts: seq<nat>, k: nat, rateFactor: nat, n: nat)
    requires k <= |buckets| && k <= |counts| && rateFactor > 0
    requires forall c :: 0 <= c < |buckets| ==> IndicesBelow(buckets[c], n)
    ensures IndicesBelow(FloorAdditions(buckets, counts, k, rateFactor), n)
  {
    if k > 0 {
      FloorAdditionsBelow(buckets, counts, k - 1, rateFactor, n);
      var extra := FloorExtra(buckets[k - 1], counts[k - 1], rateFactor);
      assert IndicesBelow(buckets[k - 1], n);
      assert IndicesBelow(extra, n);
    }
  }

  /**
   * The indices one round keeps, before the final sort. Non-final round: the
   * head followed by the per-class floor additions. Final round: the
   * `final_budget` lowest-loss indices, or the correct positions.
   */
  function Selection(samples: seq<Sample>, order: seq<nat>, numClasses: nat, schedule: seq<Option<real>>,
                     nIter: nat, finalBudget: Option<nat>): (r: seq<nat>)
    requires IndicesBelow(order, |samples|) && ValidSchedule(schedule)
    ensures IndicesBelow(r, |samples|)
  {
    if nIter < |schedule| then
      var head := RoundHead(samples, order, schedule[nIter]);
      var labels := Labels(samples);
      var buckets := ClassBuckets(order, labels, numClasses);
      assert forall c :: 0 <= c < |buckets| ==> IndicesBelow(buckets[c], |samples|);
      FloorAdditionsBelow(buckets, ClassCounts(head, labels, numClasses), numClasses, RateFactor(nIter, |schedule|), |samples|);
      head + FloorAdditions(ClassBuckets(order, labels, numClasses), ClassCounts(head, labels, numClasses),
                            numClasses, RateFactor(nIter, |schedule|))
    else if finalBudget.Some? then
      Take(order, finalBudget.value)
    else
      CorrectPositions(samples)
  }

  /** The rounds in which the returned list is the `correct_instances` list itself (`= head = correct_instances`). */
  predicate ReturnsCorrectList(schedule: seq<Option<real>>, nIter: nat, finalBudget: Option<nat>) {
    if nIter < |schedule| then schedule[nIter].None? else finalBudget.None?
  }

  /** `class_dist`: how many entries of `s` carry each of the `numClasses` labels. */
  method CountClasses(s: seq<nat>, gts: seq<nat>, numClasses: nat) returns (classDist: seq<nat>)
    requires IndicesBelow(s, |gts|)
    requires forall i :: 0 <= i < |s| ==> gts[s[i]] < numClasses
    ensures |classDist| == numClasses
    ensures classDist == ClassCounts(s, gts, numClasses)
  {
    classDist := seq(numClasses, _ => 0);
    for j := 0 to |s|
      invariant |classDist| == numClasses
      invariant forall c :: 0 <= c < numClasses ==> classDist[c] == ClassCount(s[..j], gts, c)
    {
      var g := gts[s[j]];
      assert s[..j + 1][..j] == s[..j];
      classDist := classDist[g := classDist[g] + 1];
    }
    assert s[..|s|] == s;
    assert classDist == ClassCounts(s, gts, numClasses);
  }

  /**
   * The floor step: counts the classes of the list's current entries
   * (`class_dist`), then for each class whose count is below
   * `len(bucket) // rate_factor` appends the bucket entries from that count on.
   */
  method EnforceClassFloor(list: IndexList, gts: seq<nat>, buckets: seq<seq<nat>>, rateFactor: nat)
    requires IndicesBelow(list.items, |gts|) && rateFactor > 0
    requires forall i :: 0 <= i < |list.items| ==> gts[list.items[i]] < |buckets|
    modifies list
    ensures list.items == old(list.items)
                          + FloorAdditions(buckets, ClassCounts(old(list.items), gts, |buckets|), |buckets|, rateFactor)
  {
    var classDist := CountClasses(list.items, gts, |buckets|);
    AddFloors(list, buckets, classDist, rateFactor);
  }

  /** The loop over the classes: each class tops the list up from its bucket. */
  method AddFloors(list: IndexList, buckets: seq<seq<nat>>, counts: seq<nat>, rateFactor: nat)
    requires |counts| == |buckets| && rateFactor > 0
    modifies list
    ensures list.items == old(list.items) + FloorAdditions(buckets, counts, |buckets|, rateFactor)
  {
    var head := list.items;
    assert head + FloorAdditions(buckets, counts, 0, rateFactor) == head;
    for i := 0 to |buckets|
      invariant list.items == head + FloorAdditions(buckets, counts, i, rateFactor)
    {
      ghost var done := FloorAdditions(buckets, counts, i, rateFactor);
      AddClassFloor(list, buckets[i], counts[i], rateFactor);
      AppendAssoc(head, done, FloorExtra(buckets[i], counts[i], rateFactor));
    }
  }

  /** One class of the floor loop: top the list up from the class bucket to `len(bucket) // rate_factor`. */
  method AddClassFloor(list: IndexList, bucket: seq<nat>, collected: nat, rateFactor: nat)
    requires rateFactor > 0
    modifies list
    ensures list.items == old(list.items) + FloorExtra(bucket, collected, rateFactor)
  {
    var minimal := MinimalSampleNum(|bucket|, rateFactor);
    if collected < minimal {
      AppendRange(list, bucket, collected, minimal);
    } else {
      assert list.items + [] == list.items;
    }
  }

  lemma AppendAssoc(a: seq<nat>, b: seq<nat>, c: seq<nat>)
    ensures (a + b) + c == a + (b + c)
  {
  }

  /** `for k in range(lo, hi): list.append(bucket[k])`. */
  method AppendRange(list: IndexList, bucket: seq<nat>, lo: nat, hi: nat)
    requires lo <= hi <= |bucket|
    modifies list
    ensures list.items == old(list.items) + bucket[lo..hi]
  {
    for k := lo to hi
      invariant list.items == old(list.items) + bucket[lo..k]
    {
      assert bucket[lo..k + 1] == bucket[lo..k] + [bucket[k]];
      list.Append(bucket[k]);
    }
  }

  // ---------------------------------------------------------------------------
  // The median band

  /** Python's `int()` on a float: truncation toward zero. */
  function Trunc(x: real): int {
    if x >= 0.0 then x.Floor else -((-x).Floor)
  }

  /** `st` of the band of a class of size n: `int(n/2 - n*rate/2)`. */
  function BandStart(n: nat, rate: real): int {
    Trunc((n as real) / 2.0 - (n as real) * rate / 2.0)
  }

  /** `ed` of the band of a class of size n: `int(n/2 + n*rate/2)`. */
  function BandEnd(n: nat, rate: real): int {
    Trunc((n as real) / 2.0 + (n as real) * rate / 2.0)
  }

  /** Both band ends are floors of non-negative reals that differ by n*rate and add up to n. */
  lemma BandFloors(n: nat, rate: real)
    requires 0.0 <= rate <= 1.0
    ensures var m, p := n as real, (n as real) * rate;
            var x, y := m / 2.0 - p / 2.0, m / 2.0 + p / 2.0;
            && 0.0 <= p <= m && 0.0 <= x <= y <= m
            && BandStart(n, rate) == x.Floor && BandEnd(n, rate) == y.Floor
  {
    var m, p := n as real, (n as real) * rate;
    assert m - p == m * (1.0 - rate);
    assert m * (1.0 - rate) >= 0.0;
    assert p >= 0.0;
  }

  /** For a rate in [0, 1] the band `[st, ed)` lies inside the class: every access is in bounds. */
  lemma BandBounds(n: nat, rate: real)
    requires 0.0 <= rate <= 1.0
    ensures 0 <= BandStart(n, rate) <= BandEnd(n, rate) <= n
  {
    BandFloors(n, rate);
  }

  /** The band's width is within one of n*rate, and it is centred: st + ed is n or n - 1. */
  lemma BandShape(n: nat, rate: real)
    requires 0.0 <= rate <= 1.0
    ensures (n as real) * rate - 1.0 < (BandEnd(n, rate) - BandStart(n, rate)) as real < (n as real) * rate + 1.0
    ensures n - 1 <= BandStart(n, rate) + BandEnd(n, rate) <= n
    ensures n == 0 ==> BandStart(n, rate) == BandEnd(n, rate) == 0
  {
    BandFloors(n, rate);
  }

  function Band(bucket: seq<nat>, rate: real): seq<nat>
    requires 0.0 <= rate <= 1.0
  {
    BandBounds(|bucket|, rate);
    bucket[BandStart(|bucket|, rate)..BandEnd(|bucket|, rate)]
  }

  /** The band is a run of the bucket: it holds nothing the bucket does not. */
  lemma BandWithin(bucket: seq<nat>, rate: real, x: nat)
    requires 0.0 <= rate <= 1.0
    ensures x in Band(bucket, rate) ==> x in bucket
  {
    BandBounds(|bucket|, rate);
    var st, ed := BandStart(|bucket|, rate), BandEnd(|bucket|, rate);
    if x in Band(bucket, rate) {
      var i :| st <= i < ed && bucket[i] == x;
    }
  }

  /** `median_sample_indices` for classes 0..k-1: each class's band of its loss-sorted bucket, in class order. */
  function MedianBand(order: seq<nat>, labels: seq<nat>, k: nat, rate: real): seq<nat>
    requires IndicesBelow(order, |labels|) && 0.0 <= rate <= 1.0
  {
    if k == 0 then [] else MedianBand(order, labels, k - 1, rate) + Band(ClassBucket(order, labels, k - 1), rate)
  }

  /** The median-band loop: for each class, appends bucket entries `st .. ed-1`. */
  method MedianSelect(buckets: seq<seq<nat>>, order: seq<nat>, labels: seq<nat>, rate: real) returns (median: seq<nat>)
    requires IndicesBelow(order, |labels|) && 0.0 <= rate <= 1.0
    requires forall c :: 0 <= c < |buckets| ==> buckets[c] == ClassBucket(order, labels, c)
    ensures median == MedianBand(order, labels, |buckets|, rate)
  {
    median := [];
    for i := 0 to |buckets|
      invariant median == MedianBand(order, labels, i, rate)
    {
      median := AppendBand(median, buckets[i], rate);
    }
  }

  /** One class of the median-band loop: appends bucket entries `st .. ed-1`. */
  method AppendBand(median: seq<nat>, bucket: seq<nat>, rate: real) returns (r: seq<nat>)
    requires 0.0 <= rate <= 1.0
    ensures r == median + Band(bucket, rate)
  {
    r := median;
    var n := |bucket|;
    var st := BandStart(n, rate);
    var ed := BandEnd(n, rate);
    BandBounds(n, rate);
    for t := st to ed
      invariant r == median + bucket[st..t]
    {
      assert bucket[st..t + 1] == bucket[st..t] + [bucket[t]];
      r := r + [bucket[t]];
    }
  }

  // ---------------------------------------------------------------------------
  // distill

  /**
   * `distill` from the collected batches onward. Returns the distilled indices,
   * the median band, and what the `correct_instances` list holds afterwards
   * (in the correct-only rounds it is the very list that was extended and sorted).
   */
  method Distill(batches: seq<seq<Sample>>, order: seq<nat>, numClasses: nat, schedule: seq<Option<real>>,
                 nIter: nat, finalBudget: Option<nat>, medianRate: real)
    returns (distilled: seq<nat>, median: seq<nat>, correctAfter: seq<nat>)
    requires Labelled(Flatten(batches), numClasses)
    requires IsLossOrder(order, Losses(Flatten(batches)))
    requires ValidSchedule(schedule)
    requires 0.0 <= medianRate <= 1.0
    ensures Sorted(distilled)
    ensures multiset(distilled) == multiset(Selection(Flatten(batches), order, numClasses, schedule, nIter, finalBudget))
    ensures median == MedianBand(order, Labels(Flatten(batches)), numClasses, medianRate)
    ensures correctAfter == if ReturnsCorrectList(schedule, nIter, finalBudget) then distilled
                            else CorrectPositions(Flatten(batches))
  {
    var losses, gts, correct := CollectSamples(batches);
    var list := SelectRound(correct, order, gts, numClasses, schedule, nIter, finalBudget, Flatten(batches));
    list.Sort();
    var sortedIndicesEachClass := BucketByClass(order, gts, numClasses);
    median := MedianSelect(sortedIndicesEachClass, order, gts, medianRate);
    distilled := list.items;
    correctAfter := correct.items;
  }

  /**
   * The branch on the round: which list becomes `distilled_samples_indices`
   * (the `correct_instances` list itself, or a new list of lowest-loss
   * indices) and, in a non-final round, its per-class floor.
   */
  method SelectRound(correct: IndexList, order: seq<nat>, gts: seq<nat>, numClasses: nat, schedule: seq<Option<real>>,
                     nIter: nat, finalBudget: Option<nat>, ghost samples: seq<Sample>)
    returns (list: IndexList)
    requires gts == Labels(samples) && Labelled(samples, numClasses)
    requires correct.items == CorrectPositions(samples)
    requires IndicesBelow(order, |samples|) && ValidSchedule(schedule)
    modifies correct
    ensures list.items == Selection(samples, order, numClasses, schedule, nIter, finalBudget)
    ensures ReturnsCorrectList(schedule, nIter, finalBudget) ==> list == correct
    ensures !ReturnsCorrectList(schedule, nIter, finalBudget) ==> fresh(list) && correct.items == old(correct.items)
  {
    if nIter < |schedule| {
      list := NonFinalRound(correct, order, gts, numClasses, schedule, nIter, samples);
    } else if finalBudget.Some? {
      list := new IndexList.FromSeq(Take(order, finalBudget.value));
    } else {
      list := correct;
    }
  }

  /** A non-final round: the head list, then the per-class floor appended to it. */
  method NonFinalRound(correct: IndexList, order: seq<nat>, gts: seq<nat>, numClasses: nat, schedule: seq<Option<real>>,
                       nIter: nat, ghost samples: seq<Sample>)
    returns (list: IndexList)
    requires gts == Labels(samples) && Labelled(samples, numClasses)
    requires correct.items == CorrectPositions(samples)
    requires IndicesBelow(order, |samples|) && ValidSchedule(schedule) && nIter < |schedule|
    modifies correct
    ensures list.items == Selection(samples, order, numClasses, schedule, nIter, None)
    ensures schedule[nIter].None? ==> list == correct
    ensures schedule[nIter].Some? ==> fresh(list) && correct.items == old(correct.items)
  {
    var topIndicesEachClass := BucketByClass(order, gts, numClasses);
    if schedule[nIter].None? {
      list := correct;
    } else {
      list := new IndexList.FromSeq(Take(order, RatioCount(schedule[nIter].value, |gts|)));
    }
    ghost var head := RoundHead(samples, order, schedule[nIter]);
    assert list.items == head;
    assert forall i :: 0 <= i < |head| ==> gts[head[i]] < numClasses;
    assert topIndicesEachClass == ClassBuckets(order, gts, numClasses);
    EnforceClassFloor(list, gts, topIndicesEachClass, RateFactor(nIter, |schedule|));
  }

  // ---------------------------------------------------------------------------
  // The debug recall counter

  /** How many entries of `collected` (with repetition) occur in `poison`. */
  function CountIn(collected: seq<nat>, poison: seq<nat>): nat {
    if collected == [] then 0
    else CountIn(collected[..|collected| - 1], poison) + (if collected[|collected| - 1] in poison then 1 else 0)
  }

  lemma {:induction false} CountInNone(collected: seq<nat>)
    ensures CountIn(collected, []) == 0
  {
    if collected != [] {
      CountInNone(collected[..|collected| - 1]);
    }
  }

  /**
   * The two-pointer recall counter over the collected indices and the poison
   * indices. For sorted inputs (the poison list without repeats) it counts the
   * collected entries that are poison.
   */
  method RecallCount(collected: seq<nat>, poison: seq<nat>) returns (recall: nat)
    ensures recall <= |collected|
    ensures Sorted(collected) && StrictlyIncreasing(poison) ==> recall == CountIn(collected, poison)
  {
    ghost var ordered := Sorted(collected) && StrictlyIncreasing(poison);
    var numPoison := |poison|;
    var pt := 0;
    recall := 0;
    for k := 0 to |collected|
      invariant recall <= k
      invariant pt == 0 || pt < numPoison
      invariant k == 0 ==> pt == 0
      invariant numPoison == 0 ==> recall == 0
      invariant ordered ==> recall == CountIn(collected[..k], poison)
      invariant ordered && k > 0 ==> forall j :: 0 <= j < pt ==> poison[j] < collected[k - 1]
    {
      var idx := collected[k];
      if pt >= numPoison {
        break;
      }
      while idx > poison[pt] && pt + 1 < numPoison
        invariant pt < numPoison
        decreases numPoison - pt
        invariant ordered ==> forall j :: 0 <= j < pt ==> poison[j] < idx
      {
        pt := pt + 1;
      }
      assert collected[..k + 1][..k] == collected[..k];
      assert ordered ==> (idx in poison <==> poison[pt] == idx) by {
        if ordered && idx in poison {
          var m :| 0 <= m < numPoison && poison[m] == idx;
          assert pt <= m;
        }
      }
      if pt < numPoison && poison[pt] == idx {
        recall := recall + 1;
      }
    }
    if numPoison == 0 {
      CountInNone(collected);
    } else {
      assert collected[..|collected|] == collected;
    }
  }
}
