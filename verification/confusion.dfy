/**
 * The distillation step of `confusion_train`: for `distillation_iters` steps it
 * draws a clean batch (restarting the clean loader when it runs out), gives it
 * confusion targets from the `rounder` schedule, and on every `batch_factor`-th
 * step also draws a batch of the distilled set, trains on the concatenation and
 * blends the two losses.
 *
 * The networks are not modelled: the base model's prediction on each clean
 * sample is part of the sample, and the per-sample loss of the model being
 * trained at step t, for position j of the batch it is given, is the input
 * function `lossAt(t, j)`. The SGD update itself is left out; what is modelled
 * is what each step trains on and the objective it minimises.
 */
module ConfusionTraining {
  import opened Wrappers
  import opened Arith

  /** A clean-set sample as the step sees it: its trusted label and the base model's prediction. */
  datatype CleanItem = CleanItem(gt: nat, basePred: nat)

  /** What one step trains on: the confusion targets, the inspection labels when it drew a batch, and the objective. */
  datatype StepRecord = StepRecord(confusionTargets: seq<nat>, inspectionTargets: Option<seq<nat>>, objective: real)

  datatype TrainError =
    | EmptyLoader           // `next(iter(loader))` on a loader with no batches: StopIteration escapes
    | ZeroFrequency(cls: nat) // `1 / freq[gt]` for a class of frequency zero
    | ZeroNormalizer        // `loss / normalizer` with a zero normalizer (an empty inspection batch)

  // ---------------------------------------------------------------------------
  // Cyclic batch streams

  /** The loader position of draw d over n batches, when the loader is restarted after its last batch. */
  function Cycle(d: nat, n: nat): (r: nat)
    requires n > 0
    ensures r < n
  {
    if d == 0 then 0
    else
      var p := Cycle(d - 1, n);
      if p + 1 == n then 0 else p + 1
  }

  /** Restarting on exhaustion is position modulo length. */
  lemma {:induction false} CycleIsMod(d: nat, n: nat)
    requires n > 0
    ensures Cycle(d, n) == d % n
  {
    if d == 0 {
      DivUnique(0, n, 0, 0);
    } else {
      CycleIsMod(d - 1, n);
      var q, p := (d - 1) / n, (d - 1) % n;
      assert d - 1 == n * q + p;
      assert n * (q + 1) == n * q + n;
      if p + 1 == n {
        DivUnique(d, n, q + 1, 0);
      } else {
        DivUnique(d, n, q, p + 1);
      }
    }
  }

  /**
   * `iter(loader)` with the `try: next(it) except: it = iter(loader); next(it)`
   * pattern: `pos` batches of the current pass have been handed out, `draws` in all.
   */
  class CyclicStream<T> {
    const batches: seq<seq<T>>
    var pos: nat
    ghost var draws: nat

    ghost predicate Valid()
      reads this
    {
      && pos <= |batches|
      && (draws == 0 ==> pos == 0)
      && (draws > 0 && |batches| > 0 ==> pos == Cycle(draws - 1, |batches|) + 1)
    }

    constructor (loader: seq<seq<T>>)
      ensures batches == loader && draws == 0 && Valid()
    {
      batches := loader;
      pos := 0;
      draws := 0;
    }

    /** The next batch: draw d is batch `d % len(loader)`; a loader with no batches fails. */
    method Next() returns (r: Result<seq<T>, TrainError>)
      requires Valid()
      modifies this
      ensures Valid()
      ensures |batches| == 0 ==> r == Failure(EmptyLoader) && draws == old(draws)
      ensures |batches| > 0 ==> r == Success(batches[old(draws) % |batches|]) && draws == old(draws) + 1
    {
      if pos == |batches| {
        pos := 0;
      }
      if pos == |batches| {
        return Failure(EmptyLoader);
      }
      CycleIsMod(draws, |batches|);
      r := Success(batches[pos]);
      pos := pos + 1;
      draws := draws + 1;
    }
  }

  // ---------------------------------------------------------------------------
  // The confusion-label schedule

  /** The `rounder` update of step t: bumped when `(rounder + batch_idx) % num_classes == 0`. */
  function NextRounder(rounder: nat, t: nat, numClasses: nat): nat
    requires numClasses > 0
  {
    if (rounder + t) % numClasses == 0 then rounder + 1 else rounder
  }

  /** `rounder` after the updates of steps 0 .. t-1. */
  function RounderAfter(t: nat, numClasses: nat): nat
    requires numClasses > 0
  {
    if t == 0 then 0 else NextRounder(RounderAfter(t - 1, numClasses), t - 1, numClasses)
  }

  /** `rounder` never decreases and grows by at most one per step. */
  lemma {:induction false} RounderGrowth(s: nat, t: nat, numClasses: nat)
    requires numClasses > 0 && s <= t
    ensures RounderAfter(s, numClasses) <= RounderAfter(t, numClasses) <= RounderAfter(s, numClasses) + (t - s)
    decreases t - s
  {
    if s < t {
      RounderGrowth(s, t - 1, numClasses);
    }
  }

  /** After the update the shift `rounder + batch_idx` is never a multiple of the class count. */
  lemma ShiftNotMultiple(rounder: nat, t: nat, numClasses: nat)
    requires numClasses >= 2
    ensures (NextRounder(rounder, t, numClasses) + t) % numClasses != 0
  {
    if (rounder + t) % numClasses == 0 {
      var q := (rounder + t) / numClasses;
      assert rounder + t == numClasses * q;
      DivUnique(rounder + 1 + t, numClasses, q, 1);
    }
  }

  /** `(pred + shift) % num_classes` for a shift that is not a multiple of the class count is a different class. */
  lemma ShiftedClassDiffers(pred: nat, shift: nat, numClasses: nat)
    requires numClasses >= 2 && pred < numClasses && shift % numClasses != 0
    ensures (pred + shift) % numClasses != pred
  {
    var q, r := shift / numClasses, shift % numClasses;
    assert shift == numClasses * q + r;
    if pred + r < numClasses {
      DivUnique(pred + shift, numClasses, q, pred + r);
    } else {
      assert numClasses * (q + 1) == numClasses * q + numClasses;
      DivUnique(pred + shift, numClasses, q + 1, pred + r - numClasses);
    }
  }

  /** `next_target = (preds + rounder + batch_idx) % num_classes`, sample by sample. */
  function ConfusionTargets(batch: seq<CleanItem>, rounder: nat, t: nat, numClasses: nat): (r: seq<nat>)
    requires numClasses > 0
  {
    seq(|batch|, i requires 0 <= i < |batch| => (batch[i].basePred + rounder + t) % numClasses)
  }

  function TrustedLabels(batch: seq<CleanItem>): seq<nat> {
    seq(|batch|, i requires 0 <= i < |batch| => batch[i].gt)
  }

  /** The targets of step t: the rotated predictions, or in the `ember` setting the trusted labels. */
  function StepTargets(batch: seq<CleanItem>, t: nat, numClasses: nat, ember: bool): seq<nat>
    requires ember || numClasses > 0
  {
    if ember then TrustedLabels(batch) else ConfusionTargets(batch, RounderAfter(t + 1, numClasses), t, numClasses)
  }

  /**
   * With two classes or more every confusion target is a class and differs from
   * the base model's prediction; in the `ember` setting the target is the label.
   */
  lemma StepTargetsMeaning(batch: seq<CleanItem>, t: nat, numClasses: nat, ember: bool)
    requires numClasses >= 2
    requires forall i :: 0 <= i < |batch| ==> batch[i].basePred < numClasses
    ensures |StepTargets(batch, t, numClasses, ember)| == |batch|
    ensures !ember ==> forall i :: 0 <= i < |batch| ==>
              StepTargets(batch, t, numClasses, ember)[i] < numClasses
              && StepTargets(batch, t, numClasses, ember)[i] != batch[i].basePred
    ensures ember ==> forall i :: 0 <= i < |batch| ==> StepTargets(batch, t, numClasses, ember)[i] == batch[i].gt
  {
    if !ember {
      var rounder := RounderAfter(t + 1, numClasses);
      ShiftNotMultiple(RounderAfter(t, numClasses), t, numClasses);
      forall i | 0 <= i < |batch|
        ensures (batch[i].basePred + rounder + t) % numClasses != batch[i].basePred
      {
        ShiftedClassDiffers(batch[i].basePred, rounder + t, numClasses);
      }
    }
  }

  // ---------------------------------------------------------------------------
  // When inspection batches are drawn

  /** How many inspection batches steps 0 .. t-1 drew (one at each `batch_idx % batch_factor == 0`). */
  function InspectionDraws(t: nat, batchFactor: nat): nat
    requires batchFactor > 0
  {
    if t == 0 then 0 else InspectionDraws(t - 1, batchFactor) + (if (t - 1) % batchFactor == 0 then 1 else 0)
  }

  lemma {:induction false} InspectionDrawsBlock(k: nat, j: nat, batchFactor: nat)
    requires batchFactor > 0 && j <= batchFactor
    ensures InspectionDraws(k * batchFactor + j, batchFactor) == k + (if j == 0 then 0 else 1)
    decreases k, j
  {
    if j == 0 {
      if k > 0 {
        assert k * batchFactor == (k - 1) * batchFactor + batchFactor;
        InspectionDrawsBlock(k - 1, batchFactor, batchFactor);
      }
    } else {
      InspectionDrawsBlock(k, j - 1, batchFactor);
      DivUnique(k * batchFactor + j - 1, batchFactor, k, j - 1);
    }
  }

  /** The step that draws an inspection batch draws batch number `batch_idx // batch_factor`. */
  lemma InspectionDrawsAtMixedStep(t: nat, batchFactor: nat)
    requires batchFactor > 0 && t % batchFactor == 0
    ensures InspectionDraws(t, batchFactor) == t / batchFactor
  {
    var k := t / batchFactor;
    assert t == k * batchFactor;
    InspectionDrawsBlock(k, 0, batchFactor);
  }

  // ---------------------------------------------------------------------------
  // Loss weighting

  function Sum(s: seq<real>): real {
    if s == [] then 0.0 else Sum(s[..|s| - 1]) + s[|s| - 1]
  }

  /** `tensor.mean()` of a non-empty batch. */
  function Mean(s: seq<real>): real
    requires |s| > 0
  {
    Sum(s) / (|s| as real)
  }

  /** Every label of the batch has a frequency entry, and frequencies are non-negative. */
  predicate FrequenciesCover(targets: seq<nat>, freq: seq<real>) {
    && (forall i :: 0 <= i < |targets| ==> targets[i] < |freq|)
    && (forall g :: 0 <= g < |freq| ==> 0.0 <= freq[g])
  }

  /**
   * The accumulators `loss_inspection_batch` and `normalizer` after the loop
   * over the batch, or the error of the first sample whose class has frequency zero.
   */
  function Accumulate(losses: seq<real>, targets: seq<nat>, freq: seq<real>): Result<(real, real), TrainError>
    requires |losses| == |targets| && FrequenciesCover(targets, freq)
  {
    if losses == [] then Success((0.0, 0.0))
    else
      var n := |losses| - 1;
      match Accumulate(losses[..n], targets[..n], freq)
      case Failure(e) => Failure(e)
      case Success(acc) =>
        var f := freq[targets[n]];
        if f == 0.0 then Failure(ZeroFrequency(targets[n]))
        else Success((acc.0 + losses[n] / f, acc.1 + 1.0 / f))
  }

  /** `loss_inspection_batch / normalizer`: the class-inverse-frequency weighted mean. */
  function InspectionLoss(losses: seq<real>, targets: seq<nat>, freq: seq<real>): Result<real, TrainError>
    requires |losses| == |targets| && FrequenciesCover(targets, freq)
  {
    match Accumulate(losses, targets, freq)
    case Failure(e) => Failure(e)
    case Success(acc) => if acc.1 == 0.0 then Failure(ZeroNormalizer) else Success(acc.0 / acc.1)
  }

  /** The accumulation succeeds exactly when no sample's class has frequency zero. */
  lemma {:induction false} AccumulateSucceeds(losses: seq<real>, targets: seq<nat>, freq: seq<real>)
    requires |losses| == |targets| && FrequenciesCover(targets, freq)
    ensures Accumulate(losses, targets, freq).Success? <==> forall i :: 0 <= i < |targets| ==> freq[targets[i]] != 0.0
  {
    if losses != [] {
      var n := |losses| - 1;
      AccumulateSucceeds(losses[..n], targets[..n], freq);
      assert forall i :: 0 <= i < n ==> targets[..n][i] == targets[i];
    }
  }

  /** Weighted by positive weights, the loss sum lies between lo and hi times the normalizer. */
  lemma {:induction false} AccumulateBounds(losses: seq<real>, targets: seq<nat>, freq: seq<real>, lo: real, hi: real)
    requires |losses| == |targets| && FrequenciesCover(targets, freq)
    requires forall i :: 0 <= i < |losses| ==> lo <= losses[i] <= hi
    requires Accumulate(losses, targets, freq).Success?
    ensures var acc := Accumulate(losses, targets, freq).value;
            lo * acc.1 <= acc.0 <= hi * acc.1 && 0.0 <= acc.1 && (|losses| > 0 ==> acc.1 > 0.0)
  {
    if losses != [] {
      var n := |losses| - 1;
      AccumulateBounds(losses[..n], targets[..n], freq, lo, hi);
      var prev := Accumulate(losses[..n], targets[..n], freq).value;
      var f := freq[targets[n]];
      assert Accumulate(losses, targets, freq) == Success((prev.0 + losses[n] / f, prev.1 + 1.0 / f));
      WeightedStep(lo, hi, losses[n], f, prev.0, prev.1);
    } else {
      assert lo * 0.0 == 0.0 == hi * 0.0;
    }
  }

  /** Adding one sample of loss in [lo, hi] with weight 1/f keeps the weighted sum within lo and hi times the weights. */
  lemma WeightedStep(lo: real, hi: real, loss: real, f: real, sum: real, weights: real)
    requires lo * weights <= sum <= hi * weights && lo <= loss <= hi && f > 0.0 && weights >= 0.0
    ensures lo * (weights + 1.0 / f) <= sum + loss / f <= hi * (weights + 1.0 / f)
    ensures weights + 1.0 / f > 0.0
  {
    var w := 1.0 / f;
    assert w > 0.0;
    assert loss / f == loss * w;
    assert lo * w <= loss * w <= hi * w;
  }

  /** The inspection loss of a batch lies between the smallest and the largest per-sample loss. */
  lemma InspectionLossBetween(losses: seq<real>, targets: seq<nat>, freq: seq<real>, lo: real, hi: real)
    requires |losses| == |targets| && FrequenciesCover(targets, freq)
    requires forall i :: 0 <= i < |losses| ==> lo <= losses[i] <= hi
    requires InspectionLoss(losses, targets, freq).Success?
    ensures lo <= InspectionLoss(losses, targets, freq).value <= hi
  {
    AccumulateBounds(losses, targets, freq, lo, hi);
    var acc := Accumulate(losses, targets, freq).value;
    var m := acc.0 / acc.1;
    assert m * acc.1 == acc.0;
  }

  /** With one frequency f for every sample, the accumulators are the plain sum and the count, both over f. */
  lemma {:induction false} AccumulateUniform(losses: seq<real>, targets: seq<nat>, freq: seq<real>, f: real)
    requires |losses| == |targets| && FrequenciesCover(targets, freq) && f > 0.0
    requires forall i :: 0 <= i < |targets| ==> freq[targets[i]] == f
    ensures Accumulate(losses, targets, freq) == Success((Sum(losses) / f, (|losses| as real) / f))
  {
    if losses != [] {
      var n := |losses| - 1;
      assert forall i :: 0 <= i < n ==> targets[..n][i] == targets[i];
      AccumulateUniform(losses[..n], targets[..n], freq, f);
      assert Accumulate(losses, targets, freq)
             == Success((Sum(losses[..n]) / f + losses[n] / f, (n as real) / f + 1.0 / f));
      assert Sum(losses) == Sum(losses[..n]) + losses[n];
      assert Sum(losses[..n]) / f + losses[n] / f == Sum(losses) / f;
      assert (n as real) / f + 1.0 / f == (|losses| as real) / f;
    }
  }

  /** When all classes of the batch are equally frequent the inspection loss is the plain mean. */
  lemma InspectionLossUniform(losses: seq<real>, targets: seq<nat>, freq: seq<real>, f: real)
    requires |losses| == |targets| && FrequenciesCover(targets, freq) && f > 0.0 && |losses| > 0
    requires forall i :: 0 <= i < |targets| ==> freq[targets[i]] == f
    ensures InspectionLoss(losses, targets, freq) == Success(Mean(losses))
  {
    AccumulateUniform(losses, targets, freq, f);
    var n := |losses| as real;
    assert (Sum(losses) / f) / (n / f) == Sum(losses) / n;
  }

  /** The per-sample loop over the inspection segment (`loss_inspection_batch`, `normalizer`). */
  method WeightedInspectionLoss(losses: seq<real>, targets: seq<nat>, freq: seq<real>) returns (r: Result<real, TrainError>)
    requires |losses| == |targets| && FrequenciesCover(targets, freq)
    ensures r == InspectionLoss(losses, targets, freq)
  {
    var lossSum, normalizer := 0.0, 0.0;
    for i := 0 to |losses|
      invariant Accumulate(losses[..i], targets[..i], freq) == Success((lossSum, normalizer))
    {
      assert losses[..i + 1][..i] == losses[..i];
      assert targets[..i + 1][..i] == targets[..i];
      var gt := targets[i];
      if freq[gt] == 0.0 {
        assert Accumulate(losses[..i + 1], targets[..i + 1], freq) == Failure(ZeroFrequency(gt));
        AccumulateFailureKept(losses, targets, freq, i + 1);
        return Failure(ZeroFrequency(gt));
      }
      lossSum := lossSum + losses[i] / freq[gt];
      normalizer := normalizer + 1.0 / freq[gt];
    }
    assert losses[..|losses|] == losses;
    assert targets[..|targets|] == targets;
    if normalizer == 0.0 {
      return Failure(ZeroNormalizer);
    }
    r := Success(lossSum / normalizer);
  }

  /** Once the accumulation of a prefix fails, the accumulation of the whole batch fails the same way. */
  lemma {:induction false} AccumulateFailureKept(losses: seq<real>, targets: seq<nat>, freq: seq<real>, k: nat)
    requires |losses| == |targets| && FrequenciesCover(targets, freq) && k <= |losses|
    requires Accumulate(losses[..k], targets[..k], freq).Failure?
    ensures Accumulate(losses, targets, freq) == Accumulate(losses[..k], targets[..k], freq)
    decreases |losses| - k
  {
    if k < |losses| {
      assert losses[..k + 1][..k] == losses[..k];
      assert targets[..k + 1][..k] == targets[..k];
      AccumulateFailureKept(losses, targets, freq, k + 1);
    } else {
      assert losses[..k] == losses;
      assert targets[..k] == targets;
    }
  }

  /** `(loss_confusion * (lamb - 1) + loss_inspection) / lamb`. */
  function Blend(confusion: real, inspection: real, lamb: real): real
    requires lamb != 0.0
  {
    (confusion * (lamb - 1.0) + inspection) / lamb
  }

  /** For a mixing coefficient of at least 1 the objective lies between the two losses. */
  lemma BlendBetween(confusion: real, inspection: real, lamb: real)
    requires lamb >= 1.0
    ensures confusion <= inspection ==> confusion <= Blend(confusion, inspection, lamb) <= inspection
    ensures inspection <= confusion ==> inspection <= Blend(confusion, inspection, lamb) <= confusion
  {
    var b := Blend(confusion, inspection, lamb);
    assert b * lamb == confusion * (lamb - 1.0) + inspection;
    assert b == confusion + (inspection - confusion) / lamb;
    var w := 1.0 / lamb;
    assert 0.0 < w <= 1.0;
    assert (inspection - confusion) / lamb == (inspection - confusion) * w;
    if confusion <= inspection {
      assert 0.0 <= (inspection - confusion) * w <= inspection - confusion;
    } else {
      assert inspection - confusion <= (inspection - confusion) * w <= 0.0;
    }
  }

  /** The sum of n values in [lo, hi] lies in [n * lo, n * hi]. */
  lemma {:induction false} SumBounds(s: seq<real>, lo: real, hi: real)
    requires forall i :: 0 <= i < |s| ==> lo <= s[i] <= hi
    ensures (|s| as real) * lo <= Sum(s) <= (|s| as real) * hi
  {
    if s != [] {
      var n := |s| - 1;
      SumBounds(s[..n], lo, hi);
      assert (|s| as real) * lo == (n as real) * lo + lo;
      assert (|s| as real) * hi == (n as real) * hi + hi;
    }
  }

  /** The plain mean lies between the smallest and the largest loss. */
  lemma MeanBetween(s: seq<real>, lo: real, hi: real)
    requires |s| > 0 && forall i :: 0 <= i < |s| ==> lo <= s[i] <= hi
    ensures lo <= Mean(s) <= hi
  {
    SumBounds(s, lo, hi);
    var n := |s| as real;
    var m := Mean(s);
    assert m * n == Sum(s);
  }

  // ---------------------------------------------------------------------------
  // One step, and the loop over `distillation_iters` steps

  /** The configuration of the loop: `num_classes`, the `ember` switch, `lamb`, `freq` and `batch_factor`. */
  datatype Settings = Settings(numClasses: nat, ember: bool, lamb: real, freq: seq<real>, batchFactor: nat)

  /**
   * What the loop needs of its inputs: at least one class unless `ember` (only
   * the non-ember branch reduces modulo `num_classes`), a non-zero `lamb`
   * and `batch_factor`, loaders that yield only non-empty batches, and a
   * non-negative frequency for every label of the distilled set.
   */
  predicate ValidInputs(cleanLoader: seq<seq<CleanItem>>, distilledLoader: seq<seq<nat>>, cfg: Settings) {
    && (cfg.ember || cfg.numClasses > 0) && cfg.batchFactor > 0 && cfg.lamb != 0.0
    && (forall b :: 0 <= b < |cleanLoader| ==> |cleanLoader[b]| > 0)
    && (forall b :: 0 <= b < |distilledLoader| ==> FrequenciesCover(distilledLoader[b], cfg.freq))
  }

  /** The per-sample losses of step t's forward pass over a batch of n samples. */
  function StepLosses(lossAt: (nat, nat) -> real, t: nat, n: nat): (r: seq<real>)
    ensures |r| == n
  {
    seq(n, j requires 0 <= j < n => lossAt(t, j))
  }

  /**
   * Step t: clean batch `t % len(clean_loader)` with its targets; on a
   * `batch_factor` step also distilled batch `(t // batch_factor) % len(distilled_loader)`,
   * trained on after the clean batch, the objective blending the two segment losses.
   */
  function StepSpec(cleanLoader: seq<seq<CleanItem>>, distilledLoader: seq<seq<nat>>, cfg: Settings,
                    lossAt: (nat, nat) -> real, t: nat): Result<StepRecord, TrainError>
    requires ValidInputs(cleanLoader, distilledLoader, cfg)
  {
    if |cleanLoader| == 0 then Failure(EmptyLoader)
    else StepWithBatch(cleanLoader[t % |cleanLoader|], distilledLoader, cfg, lossAt, t)
  }

  /** Step t once its clean batch is drawn. */
  function StepWithBatch(batch: seq<CleanItem>, distilledLoader: seq<seq<nat>>, cfg: Settings,
                         lossAt: (nat, nat) -> real, t: nat): Result<StepRecord, TrainError>
    requires |batch| > 0 && ValidInputs([], distilledLoader, cfg)
  {
    var targets := StepTargets(batch, t, cfg.numClasses, cfg.ember);
    if t % cfg.batchFactor != 0 then
      Success(StepRecord(targets, None, Mean(StepLosses(lossAt, t, |batch|))))
    else if |distilledLoader| == 0 then Failure(EmptyLoader)
    else MixedRecord(|batch|, targets, distilledLoader[(t / cfg.batchFactor) % |distilledLoader|], cfg, lossAt, t)
  }

  /**
   * A mixed step: the forward pass runs over the clean batch followed by the
   * inspection batch, and the objective blends the plain mean over the first
   * `size` losses with the weighted mean over the rest.
   */
  function MixedRecord(size: nat, targets: seq<nat>, inspection: seq<nat>, cfg: Settings,
                       lossAt: (nat, nat) -> real, t: nat): Result<StepRecord, TrainError>
    requires size > 0 && cfg.lamb != 0.0 && FrequenciesCover(inspection, cfg.freq)
  {
    var losses := StepLosses(lossAt, t, size + |inspection|);
    match InspectionLoss(losses[size..], inspection, cfg.freq)
    case Failure(e) => Failure(e)
    case Success(w) => Success(StepRecord(targets, Some(inspection), Blend(Mean(losses[..size]), w, cfg.lamb)))
  }

  /** Steps 0 .. n-1 in order; the first failing step ends the run. */
  function Run(cleanLoader: seq<seq<CleanItem>>, distilledLoader: seq<seq<nat>>, cfg: Settings,
               lossAt: (nat, nat) -> real, n: nat): Result<seq<StepRecord>, TrainError>
    requires ValidInputs(cleanLoader, distilledLoader, cfg)
  {
    if n == 0 then Success([])
    else
      match Run(cleanLoader, distilledLoader, cfg, lossAt, n - 1)
      case Failure(e) => Failure(e)
      case Success(records) =>
        match StepSpec(cleanLoader, distilledLoader, cfg, lossAt, n - 1)
        case Failure(e) => Failure(e)
        case Success(x) => Success(records + [x])
  }

  /** A successful run of n steps records every step, in order. */
  lemma {:induction false} RunRecords(cleanLoader: seq<seq<CleanItem>>, distilledLoader: seq<seq<nat>>, cfg: Settings,
                                      lossAt: (nat, nat) -> real, n: nat)
    requires ValidInputs(cleanLoader, distilledLoader, cfg)
    requires Run(cleanLoader, distilledLoader, cfg, lossAt, n).Success?
    ensures |Run(cleanLoader, distilledLoader, cfg, lossAt, n).value| == n
    ensures forall t :: 0 <= t < n ==>
              StepSpec(cleanLoader, distilledLoader, cfg, lossAt, t) == Success(Run(cleanLoader, distilledLoader, cfg, lossAt, n).value[t])
  {
    if n > 0 {
      RunRecords(cleanLoader, distilledLoader, cfg, lossAt, n - 1);
    }
  }

  /** Once a step fails, every longer run fails the same way. */
  lemma {:induction false} RunFailureKept(cleanLoader: seq<seq<CleanItem>>, distilledLoader: seq<seq<nat>>, cfg: Settings,
                                          lossAt: (nat, nat) -> real, k: nat, n: nat)
    requires ValidInputs(cleanLoader, distilledLoader, cfg) && k <= n
    requires Run(cleanLoader, distilledLoader, cfg, lossAt, k).Failure?
    ensures Run(cleanLoader, distilledLoader, cfg, lossAt, n) == Run(cleanLoader, distilledLoader, cfg, lossAt, k)
    decreases n - k
  {
    if k < n {
      RunFailureKept(cleanLoader, distilledLoader, cfg, lossAt, k, n - 1);
    }
  }

  /**
   * What a recorded step means: it drew an inspection batch exactly on the
   * `batch_factor` steps; its inspection targets are the drawn batch's labels,
   * split back off after the clean segment; and for `lamb >= 1` its objective
   * lies within the range of the per-sample losses of the step, those at the
   * positions of its clean batch and, on a mixed step, of its inspection batch.
   */
  lemma StepMeaning(cleanLoader: seq<seq<CleanItem>>, distilledLoader: seq<seq<nat>>, cfg: Settings,
                    lossAt: (nat, nat) -> real, t: nat, lo: real, hi: real)
    requires ValidInputs(cleanLoader, distilledLoader, cfg)
    requires StepSpec(cleanLoader, distilledLoader, cfg, lossAt, t).Success?
    ensures var x := StepSpec(cleanLoader, distilledLoader, cfg, lossAt, t).value;
            && |cleanLoader| > 0
            && (x.inspectionTargets.Some? <==> t % cfg.batchFactor == 0)
            && (x.inspectionTargets.Some? ==>
                 x.inspectionTargets.value == distilledLoader[(t / cfg.batchFactor) % |distilledLoader|])
            && var used := |cleanLoader[t % |cleanLoader|]|
                           + (if t % cfg.batchFactor == 0
                              then |distilledLoader[(t / cfg.batchFactor) % |distilledLoader|]| else 0);
               (cfg.lamb >= 1.0 && (forall j :: 0 <= j < used ==> lo <= lossAt(t, j) <= hi) ==> lo <= x.objective <= hi)
  {
    var x := StepSpec(cleanLoader, distilledLoader, cfg, lossAt, t).value;
    var batch := cleanLoader[t % |cleanLoader|];
    var used := |batch| + (if t % cfg.batchFactor == 0
                           then |distilledLoader[(t / cfg.batchFactor) % |distilledLoader|]| else 0);
    if cfg.lamb >= 1.0 && (forall j :: 0 <= j < used ==> lo <= lossAt(t, j) <= hi) {
      if t % cfg.batchFactor != 0 {
        MeanBetween(StepLosses(lossAt, t, |batch|), lo, hi);
      } else {
        var inspection := distilledLoader[(t / cfg.batchFactor) % |distilledLoader|];
        var losses := StepLosses(lossAt, t, |batch| + |inspection|);
        var c := Mean(losses[..|batch|]);
        MeanBetween(losses[..|batch|], lo, hi);
        InspectionLossBetween(losses[|batch|..], inspection, cfg.freq, lo, hi);
        var w := InspectionLoss(losses[|batch|..], inspection, cfg.freq).value;
        BlendBetween(c, w, cfg.lamb);
      }
    }
  }

  /**
   * The loop of `confusion_train` over `distillation_iters` steps: the two
   * loader iterators restart on exhaustion, `rounder` is updated before the
   * targets are formed, and every `batch_factor`-th step draws a distilled batch.
   */
  method ConfusionTrain(cleanLoader: seq<seq<CleanItem>>, distilledLoader: seq<seq<nat>>, cfg: Settings,
                        lossAt: (nat, nat) -> real, steps: nat)
    returns (r: Result<seq<StepRecord>, TrainError>)
    requires ValidInputs(cleanLoader, distilledLoader, cfg)
    ensures r == Run(cleanLoader, distilledLoader, cfg, lossAt, steps)
  {
    var clean := new CyclicStream(cleanLoader);
    var distilled := new CyclicStream(distilledLoader);
    var rounder := 0;
    var records := [];
    for t := 0 to steps
      invariant clean.Valid() && clean.batches == cleanLoader
      invariant distilled.Valid() && distilled.batches == distilledLoader
      invariant |cleanLoader| > 0 ==> clean.draws == t
      invariant |distilledLoader| > 0 ==> distilled.draws == InspectionDraws(t, cfg.batchFactor)
      invariant !cfg.ember ==> rounder == RounderAfter(t, cfg.numClasses)
      invariant Run(cleanLoader, distilledLoader, cfg, lossAt, t) == Success(records)
    {
      var step;
      step, rounder := TrainStep(clean, distilled, cfg, lossAt, t, rounder);
      if step.Failure? {
        RunFailureKept(cleanLoader, distilledLoader, cfg, lossAt, t + 1, steps);
        return Failure(step.error);
      }
      records := records + [step.value];
    }
    r := Success(records);
  }

  /** One iteration of the loop body (the training update itself left out). */
  method TrainStep(clean: CyclicStream<CleanItem>, distilled: CyclicStream<nat>, cfg: Settings,
                   lossAt: (nat, nat) -> real, t: nat, rounder: nat)
    returns (r: Result<StepRecord, TrainError>, rounder': nat)
    requires clean.Valid() && distilled.Valid()
    requires ValidInputs(clean.batches, distilled.batches, cfg)
    requires |clean.batches| > 0 ==> clean.draws == t
    requires |distilled.batches| > 0 ==> distilled.draws == InspectionDraws(t, cfg.batchFactor)
    requires !cfg.ember ==> rounder == RounderAfter(t, cfg.numClasses)
    modifies clean, distilled
    ensures clean.Valid() && distilled.Valid()
    ensures r == StepSpec(clean.batches, distilled.batches, cfg, lossAt, t)
    ensures r.Success? ==> clean.draws == t + 1
    ensures r.Success? && |distilled.batches| > 0 ==> distilled.draws == InspectionDraws(t + 1, cfg.batchFactor)
    ensures r.Success? && !cfg.ember ==> rounder' == RounderAfter(t + 1, cfg.numClasses)
  {
    var next := clean.Next();
    if next.Failure? {
      return Failure(next.error), rounder;
    }
    r, rounder' := StepOnBatch(next.value, distilled, cfg, lossAt, t, rounder);
  }

  /** The loop body once the clean batch of step t is drawn. */
  method StepOnBatch(batch: seq<CleanItem>, distilled: CyclicStream<nat>, cfg: Settings,
                     lossAt: (nat, nat) -> real, t: nat, rounder: nat)
    returns (r: Result<StepRecord, TrainError>, rounder': nat)
    requires distilled.Valid() && |batch| > 0
    requires ValidInputs([], distilled.batches, cfg)
    requires |distilled.batches| > 0 ==> distilled.draws == InspectionDraws(t, cfg.batchFactor)
    requires !cfg.ember ==> rounder == RounderAfter(t, cfg.numClasses)
    modifies distilled
    ensures distilled.Valid()
    ensures r == StepWithBatch(batch, distilled.batches, cfg, lossAt, t)
    ensures r.Success? && |distilled.batches| > 0 ==> distilled.draws == InspectionDraws(t + 1, cfg.batchFactor)
    ensures !cfg.ember ==> rounder' == RounderAfter(t + 1, cfg.numClasses)
  {
    var targets;
    targets, rounder' := BatchTargets(batch, cfg, t, rounder);
    if t % cfg.batchFactor == 0 {
      InspectionDrawsAtMixedStep(t, cfg.batchFactor);
      var drawn := distilled.Next();
      if drawn.Failure? {
        return Failure(drawn.error), rounder';
      }
      r := MixedStep(batch, targets, drawn.value, cfg, lossAt, t);
    } else {
      r := Success(StepRecord(targets, None, Mean(StepLosses(lossAt, t, |batch|))));
    }
  }

  /** The targets of a clean batch, after the `rounder` update of step t. */
  method BatchTargets(batch: seq<CleanItem>, cfg: Settings, t: nat, rounder: nat) returns (targets: seq<nat>, rounder': nat)
    requires cfg.ember || cfg.numClasses > 0
    requires !cfg.ember ==> rounder == RounderAfter(t, cfg.numClasses)
    ensures targets == StepTargets(batch, t, cfg.numClasses, cfg.ember)
    ensures !cfg.ember ==> rounder' == RounderAfter(t + 1, cfg.numClasses)
  {
    rounder' := rounder;
    if !cfg.ember {
      if (rounder' + t) % cfg.numClasses == 0 {
        rounder' := rounder' + 1;
      }
      targets := ConfusionTargets(batch, rounder', t, cfg.numClasses);
    } else {
      targets := TrustedLabels(batch);
    }
  }

  /**
   * A mixed step: the targets are concatenated with the inspection labels, one
   * forward pass runs over both, and the losses and targets are split back at
   * the boundary `len(target_confusion)`.
   */
  method MixedStep(batch: seq<CleanItem>, targets: seq<nat>, inspection: seq<nat>, cfg: Settings,
                   lossAt: (nat, nat) -> real, t: nat) returns (r: Result<StepRecord, TrainError>)
    requires |batch| > 0 && |targets| == |batch| && cfg.lamb != 0.0 && FrequenciesCover(inspection, cfg.freq)
    ensures r == MixedRecord(|batch|, targets, inspection, cfg, lossAt, t)
  {
    var targetMix := targets + inspection;
    var boundary := |targets|;
    var lossMix := StepLosses(lossAt, t, |targetMix|);
    var confusionLoss := Mean(lossMix[..boundary]);
    var inspectionTargets := targetMix[boundary..];
    assert inspectionTargets == inspection;
    var inspectionLoss := WeightedInspectionLoss(lossMix[boundary..], inspectionTargets, cfg.freq);
    if inspectionLoss.Failure? {
      return Failure(inspectionLoss.error);
    }
    r := Success(StepRecord(targets, Some(inspectionTargets), Blend(confusionLoss, inspectionLoss.value, cfg.lamb)));
  }
}
