# Confusion training and poison-sample isolation, modelled in Dafny

This project models the core of `confusion_training.py`. That file implements a
backdoor-poison detector. It iterates three steps:

- **distillation** (`distill`): rank the inspected samples by the confused
  model's loss, keep a low-loss working set with a per-class floor, and cut a
  per-class "median band" out of the loss ranking;
- **confusion training** (`confusion_train`): train on a clean chunklet whose
  labels are rotated away from a base model's predictions, and every
  `batch_factor`-th step also on a batch of the distilled set, blending the two
  losses;
- **identification** (`identify_poison_samples_simplified`): split each class
  into the samples the confused model still predicts as that class and the
  others, obtain a likelihood ratio per class, and report the isolated samples
  of the flagged classes.

The model keeps the source's own form:

- The lists whose identity matters, `correct_instances`, `head` and
  `distilled_samples_indices`, become objects of the class `Indices.IndexList`.
  This keeps the aliasing at lines 461 and 491, where the returned list *is*
  `correct_instances`.
- The lists that are only appended to or sorted and never shared become
  sequences built by method loops: `loss_array` and `gts` (433-435), the
  per-class buckets (449-452, 501-503), `class_indices` and the chunklet shares
  (61-71), the isolated and other lists (115-122), `suspicious_indices`
  (177-179) and `median_sample_indices` (510).
- The loader iterators become objects of the class
  `ConfusionTraining.CyclicStream`.
- Every loop becomes a method with a `while`/`for` loop. Each method is proved
  against a specification function, and the properties the code promises are
  proved as lemmas about those functions.

Files:

- `wrappers.dfy`: `Option` and `Result`.
- `arith.dfy`: three facts about integer division.
- `indices.dfy`: index lists, sorting, and the per-class buckets built by the
  `for t in sorted_indices: bucket[gts[t]].append(t)` loops.
- `distillation.dfy` and `distillation_facts.dfy`: `distill` and the debug
  recall counter.
- `confusion.dfy`: the training loop of `confusion_train`.
- `detection.dfy` and `detection_facts.dfy`: `identify_poison_samples_simplified`.

What the networks compute is an input everywhere:

- Each inspected sample arrives as its loss, its ground-truth label and its
  predicted label.
- The loss ranking `np.argsort(loss_array)` is an input `order`. It may be any
  permutation that is non-decreasing in loss.
- The training step's per-sample losses are an input function `lossAt(step, position)`.
- The base model's prediction is part of each clean sample.
- The fitted likelihood ratio of each class is an input `fitted`.
- The poison index list of the recall counter is a parameter.

The model follows the code, including where it behaves differently from how the method is usually described:

- `np.argsort` is not a stable sort, so samples of equal loss may be ranked in
  any order. `IsLossOrder` admits every such ranking.
- The per-class floor appends bucket positions `class_dist[c] .. minimal-1`. It
  does not append "samples not already included". In a correct-only round this
  can append an index that is already in the list:
  `DistillationFacts.CorrectOnlyRoundMayRepeat` exhibits the duplicate. In a
  ratio round there is no duplicate: `DistillationFacts.RatioRoundNoDups`.
- The identification step raises also when a class's share of the clean
  chunklet has fewer than two samples, not only when the class itself does.
- The decision flags *every* class whose ratio equals the maximum and exceeds
  1.5, not a single class. `PoisonDetection.FlagPolicy` states the policy and
  `DetectionFacts.FlagExamples` shows ties.

## Model

| member | source | states |
|---|---|---|
| Indices.Take | confusion_training.py:464 | `sorted_indices[:k]` is the prefix of length min(k, N) |
| Indices.SortAsc | confusion_training.py:493 | the result is sorted and a permutation (same multiset) of the input |
| Indices.SortedUnique | confusion_training.py:493 | two sorted lists with the same multiset are equal, so the sorted list is determined by its contents |
| Indices.PermutationFacts | confusion_training.py:446 | a ranking of N indices has length N, holds each of 0..N-1 exactly once and nothing else |
| Indices.IndexList.FromSeq | confusion_training.py:465 | `list(head)`: the new list holds exactly the given indices |
| Indices.IndexList.Append | confusion_training.py:483 | `append` adds the index at the end and changes nothing else |
| Indices.IndexList.Sort | confusion_training.py:493 | `sort()` leaves the list sorted and a permutation of its old contents |
| Indices.ClassBucket | confusion_training.py:449-452 | a class bucket is no longer than the ranking and holds only sample indices |
| Indices.BucketMembers | confusion_training.py:449-452 | x is in the class-c bucket iff x is in the ranking and labelled c |
| Indices.BucketConcat | confusion_training.py:449-452 | the bucket of a concatenation is the concatenation of the buckets |
| Indices.BucketOfUniform | confusion_training.py:449-452 | a list all of class c is its own class-c bucket; a list with no class-c sample has an empty one |
| Indices.BucketPrefix | confusion_training.py:449-452 | the bucket of a prefix of the ranking is a prefix of the bucket |
| Indices.NoDupsByClass | confusion_training.py:449-452 | a list whose every class bucket is repeat-free is repeat-free |
| Indices.BucketNoDups | confusion_training.py:449-452 | the bucket of a repeat-free list is repeat-free |
| Indices.BucketIncreasing | confusion_training.py:61-67 | the bucket of a strictly increasing list is strictly increasing |
| Indices.BucketsPartition | confusion_training.py:449-452 | for a ranking of all indices, each sample is in exactly the bucket of its label, once; the loss order of the buckets is `DistillationFacts.BucketLossOrdered` |
| Indices.BucketByClass | confusion_training.py:449-452 | the bucketing loop yields, for every class, exactly that class's entries in ranking order (so in loss order, by `DistillationFacts.BucketLossOrdered`) |
| Distillation.Losses | confusion_training.py:433 | `loss_array` holds sample j's loss at position j |
| Distillation.Labels | confusion_training.py:435 | `gts` holds sample j's ground-truth label at position j |
| Distillation.CorrectPositions | confusion_training.py:436-441 | `correct_instances` is strictly increasing and lists j iff sample j's prediction equals its label |
| Distillation.CollectStep | confusion_training.py:432-435 | one more sample appends its loss and its label |
| Distillation.CorrectStep | confusion_training.py:436-441 | one more sample appends its global position to the correct list iff it is classified correctly |
| Distillation.CollectSamples | confusion_training.py:409-443 | the collection loop over the batches yields the loss array, the labels and the correct positions of the flattened samples |
| Distillation.CollectBatch | confusion_training.py:417-443 | one batch extends the three lists by exactly that batch's samples, positions offset by `st` |
| Distillation.CollectOne | confusion_training.py:432-441 | one sample extends the three lists by exactly that sample |
| Distillation.RateFactor | confusion_training.py:468-469 | `rate_factor` is 50 or 100, and 100 exactly in the last non-final round |
| Distillation.RoundHead | confusion_training.py:460-466 | the head holds only sample indices |
| Distillation.MinimalSampleNum | confusion_training.py:479 | `minimal_sample_num` never exceeds the bucket size, so the floor loop stays in bounds |
| Distillation.FloorExtra | confusion_training.py:481-483 | the floor loop tops class c up to max(count, minimal), appending bucket positions count.. in order, which for a loss ranking are the class's next-lowest losses (`DistillationFacts.RatioRoundClassShare`) |
| Distillation.FloorAdditionsBelow | confusion_training.py:478-483 | what the floor loop appends are sample indices |
| Distillation.Selection | confusion_training.py:458-491 | every index a round keeps is a sample index |
| Distillation.CountClasses | confusion_training.py:473-476 | `class_dist[c]` is the number of class-c entries of the list |
| Distillation.EnforceClassFloor | confusion_training.py:471-483 | the list becomes its old contents followed by the floor additions computed from its own class counts |
| Distillation.AddFloors | confusion_training.py:478-483 | the class loop appends each class's floor addition in class order |
| Distillation.AddClassFloor | confusion_training.py:479-483 | one class appends exactly its floor addition |
| Distillation.AppendRange | confusion_training.py:482-483 | the inner loop appends bucket positions lo..hi-1 |
| Distillation.BandFloors | confusion_training.py:507-508 | `st` and `ed` are floors of reals 0 <= x <= y <= n that differ by n*rate and add up to n |
| Distillation.BandBounds | confusion_training.py:505-510 | for a rate in [0,1], 0 <= st <= ed <= n: every band access is in bounds, and an empty class gives an empty band |
| Distillation.BandShape | confusion_training.py:506-508 | the band width is within 1 of n*rate and the band is centred: st + ed is n or n-1 |
| Distillation.BandWithin | confusion_training.py:509-510 | the band holds only entries of the class's bucket |
| Distillation.MedianSelect | confusion_training.py:505-510 | the median loop yields the class bands laid end to end in class order |
| Distillation.AppendBand | confusion_training.py:506-510 | one class appends its bucket positions st..ed-1 |
| Distillation.Distill | confusion_training.py:409-510 | the distilled list is sorted and a permutation of the round's selection; the median set is the per-class bands; `correct_instances` afterwards is the distilled list itself in correct-only rounds and the correct positions otherwise |
| Distillation.SelectRound | confusion_training.py:458-491 | the chosen list holds the round's selection; it is `correct_instances` itself in correct-only rounds, otherwise a new list with `correct_instances` untouched |
| Distillation.NonFinalRound | confusion_training.py:458-483 | a non-final round's list is the head followed by the per-class floor additions |
| Distillation.CountInNone | confusion_training.py:557-558 | the reference count `CountIn` is zero for an empty poison list, which is what the counter returns when its first test `pt >= num_poison` breaks at once |
| Distillation.RecallCount | confusion_training.py:551-561 | the recall never exceeds the number of collected indices, and for sorted inputs (poison without repeats) it is the number of collected entries that are poison |
| DistillationFacts.BucketLossOrdered | confusion_training.py:446-452 | drawn from a loss ranking, a class bucket is itself in non-decreasing loss order |
| DistillationFacts.BucketLabelled | confusion_training.py:449-452 | every entry of the class-c bucket is a sample labelled c |
| DistillationFacts.AdditionsPerClass | confusion_training.py:478-483 | the class-c entries of the floor additions are exactly class c's own addition |
| DistillationFacts.FloorAdditionsPerClass | confusion_training.py:478-483 | the same, for the buckets and counts of a round |
| DistillationFacts.NonFinalClassShare | confusion_training.py:458-483 | a non-final round keeps of class c the head's entries followed by bucket positions count..minimal-1 |
| DistillationFacts.NonFinalClassCount | confusion_training.py:473-483 | after a non-final round class c has max(head count, len(bucket)//rate_factor) entries: the floor is met |
| DistillationFacts.HeadSharePrefix | confusion_training.py:449-466 | the class-c entries of the `int(ratio*N)` lowest-loss indices are a prefix of class c's bucket |
| DistillationFacts.PrefixThenFloor | confusion_training.py:481-483 | a bucket prefix followed by the floor addition is the bucket prefix of the larger length |
| DistillationFacts.RatioRoundClassShare | confusion_training.py:463-483 | a ratio round keeps of class c exactly the prefix of its bucket of length max(head count, floor), and no kept class-c sample has a larger loss than a class-c sample left out |
| DistillationFacts.RatioRoundNoDups | confusion_training.py:458-483 | a ratio round keeps no index twice |
| DistillationFacts.RatioRoundDistilled | confusion_training.py:458-493 | after a ratio round the distilled list is strictly increasing and as long as the selection |
| DistillationFacts.TakeIsLowestLoss | confusion_training.py:446-464 | every index among the first k of the ranking has no larger loss than any index outside them |
| DistillationFacts.FinalBudgetResult | confusion_training.py:485-493 | with a final budget b the distilled list is min(b, N) distinct indices in increasing order, none with a larger loss than any index left out |
| DistillationFacts.FinalCorrectResult | confusion_training.py:490-493 | without a final budget the distilled list is exactly the correctly classified positions |
| DistillationFacts.CorrectOnlyRoundMayRepeat | confusion_training.py:460-483 | in a correct-only round a correctly classified class-c sample at bucket position p, class_dist[c] <= p < minimal, is kept twice |
| DistillationFacts.FloorIncludes | confusion_training.py:478-483 | bucket position p with count <= p < minimal is among the floor additions |
| DistillationFacts.BandLabels | confusion_training.py:498-510 | every entry of class d's band is a sample labelled d |
| DistillationFacts.MedianBandJoined | confusion_training.py:505-510 | the median set is the class bands joined in class order |
| DistillationFacts.MedianBandPerClass | confusion_training.py:496-510 | the median set holds, of each class below num_classes, exactly that class's band, and nothing of other classes |
| DistillationFacts.MedianBandLossCentred | confusion_training.py:498-510 | the class-c part of the median set is bucket run st..ed-1: class-c samples ranked before it have no larger loss, those ranked after it no smaller |
| ConfusionTraining.CycleIsMod | confusion_training.py:291-295 | restarting the loader after its last batch makes draw d yield batch d mod len(loader) |
| ConfusionTraining.CyclicStream.constructor | confusion_training.py:283-284 | `iter(loader)`: a fresh stream over the loader with nothing drawn |
| ConfusionTraining.CyclicStream.Next | confusion_training.py:291-295 | a draw yields batch `draws mod len(loader)` and advances, or fails on an empty loader |
| ConfusionTraining.RounderGrowth | confusion_training.py:303-304 | `rounder` never decreases and grows by at most one per step |
| ConfusionTraining.ShiftNotMultiple | confusion_training.py:303-305 | after the update `rounder + batch_idx` is never a multiple of num_classes |
| ConfusionTraining.ShiftedClassDiffers | confusion_training.py:305 | shifting a class by a non-multiple of num_classes gives a different class |
| ConfusionTraining.StepTargetsMeaning | confusion_training.py:298-308 | every confusion target is a class that differs from the base model's prediction; in the `ember` setting the target is the trusted label |
| ConfusionTraining.InspectionDrawsBlock | confusion_training.py:312-318 | after k*batch_factor + j steps, k or k+1 inspection batches have been drawn |
| ConfusionTraining.InspectionDrawsAtMixedStep | confusion_training.py:312-318 | the step that draws an inspection batch draws number `batch_idx // batch_factor` |
| ConfusionTraining.AccumulateSucceeds | confusion_training.py:335-338 | the weighting loop succeeds iff no sample's class has frequency zero |
| ConfusionTraining.AccumulateBounds | confusion_training.py:335-338 | the weighted loss sum lies between lo and hi times the normalizer, and the normalizer is positive for a non-empty batch |
| ConfusionTraining.InspectionLossBetween | confusion_training.py:333-339 | the inspection loss lies between the smallest and the largest per-sample loss |
| ConfusionTraining.AccumulateUniform | confusion_training.py:335-338 | with equal frequencies the accumulators are the plain sum and the count, each divided by the frequency |
| ConfusionTraining.InspectionLossUniform | confusion_training.py:333-339 | with equal frequencies the inspection loss is the plain mean |
| ConfusionTraining.WeightedInspectionLoss | confusion_training.py:332-339 | the loop computes the inverse-frequency weighted mean, or fails on a zero frequency or an empty batch |
| ConfusionTraining.AccumulateFailureKept | confusion_training.py:335-338 | once a prefix of the batch fails, the whole batch fails the same way |
| ConfusionTraining.BlendBetween | confusion_training.py:341 | for lamb >= 1 the objective lies between the confusion loss and the inspection loss |
| ConfusionTraining.MeanBetween | confusion_training.py:330 | the plain mean lies between the smallest and the largest loss |
| ConfusionTraining.RunRecords | confusion_training.py:289-348 | a successful run of n steps records every step, in order |
| ConfusionTraining.RunFailureKept | confusion_training.py:289-348 | once a step fails, every longer run fails the same way |
| ConfusionTraining.StepMeaning | confusion_training.py:312-348 | a step draws an inspection batch iff `batch_idx % batch_factor == 0`; its inspection targets are distilled batch `batch_idx // batch_factor` (cyclically), split back off after the clean segment; for lamb >= 1 its objective lies within any range [lo, hi] holding the per-sample losses at the step's own positions (the clean batch and, on a mixed step, the inspection batch) |
| ConfusionTraining.ConfusionTrain | confusion_training.py:283-348 | the loop over `distillation_iters` steps produces exactly the step records of the specification, or its first error |
| ConfusionTraining.TrainStep | confusion_training.py:289-348 | one loop iteration draws clean batch `t mod len`, keeps the stream and `rounder` state in step with the schedule, and yields step t's record |
| ConfusionTraining.StepOnBatch | confusion_training.py:298-348 | with the clean batch drawn, a step yields its record and draws an inspection batch exactly on `batch_factor` steps |
| ConfusionTraining.BatchTargets | confusion_training.py:298-308 | the targets are the rotated predictions after the `rounder` update, or the trusted labels for `ember` |
| ConfusionTraining.MixedStep | confusion_training.py:320-341 | concatenating, one forward pass and splitting at the boundary gives the blended objective of the two segments |
| PoisonDetection.ClassMembersFacts | confusion_training.py:58-71 | `class_indices[c]` after its sort is strictly increasing and holds exactly the samples labelled c |
| PoisonDetection.SizeErrorMeaning | confusion_training.py:69-77 | the checks raise iff some class or its chunklet share has fewer than two samples, naming the first such class, bucket before share |
| PoisonDetection.SizeErrorKept | confusion_training.py:69-77 | once a class fails, the raised exception does not change with more classes |
| PoisonDetection.SizesHoldStep | confusion_training.py:73-77 | a class passing both checks extends the passing prefix |
| PoisonDetection.SizeErrorAt | confusion_training.py:73-77 | when all earlier classes pass and class c fails, the step raises for class c |
| PoisonDetection.ChecksPassed | confusion_training.py:69-77 | when every class passes, nothing is raised and every list is sorted |
| PoisonDetection.SortedUpToRest | confusion_training.py:69-71 | the loop has not yet touched the lists of later classes |
| PoisonDetection.SortedUpToAll | confusion_training.py:69-71 | after the loop every list is sorted |
| PoisonDetection.CheckClassSizes | confusion_training.py:69-77 | the check loop raises exactly the specified first error; if it passes, every list is sorted |
| PoisonDetection.SortAndCheck | confusion_training.py:70-77 | one iteration sorts both lists of class c and raises iff one has fewer than two entries |
| PoisonDetection.ChunkletPositions | confusion_training.py:88-98 | the scan yields ascending positions within the class, at most one per share member, and when the share lies within the class and has no repeated index it finds the position of every share member |
| PoisonDetection.ChunkletShareFits | confusion_training.py:58-98 | with no repeated clean index, the class list and its chunklet share meet the scan's condition |
| PoisonDetection.PositionsMembers | confusion_training.py:115-122 | position pt is isolated iff its sample is predicted as the class, and "other" iff it is not |
| PoisonDetection.PositionsCounts | confusion_training.py:111-131 | both position lists are ascending, together have one entry per member, and `num_isolated` equals the number of isolated samples |
| PoisonDetection.Partition | confusion_training.py:111-122 | the partition loop yields the isolated samples, both position lists, and a 0/1 label per member that is 1 iff predicted as the class |
| PoisonDetection.RatioSentinel | confusion_training.py:131-164 | the ratio is the sentinel 1 when fewer than two members are isolated or fewer than two are not, and the fitted ratio otherwise |
| PoisonDetection.LikelihoodRatios | confusion_training.py:84-164 | the per-class loop yields the specified ratio of each class, in class order |
| PoisonDetection.MaxOf | confusion_training.py:168 | `max_ratio` is one of the ratios and no ratio exceeds it |
| PoisonDetection.FlagPolicy | confusion_training.py:170-189 | a class is flagged iff its ratio exceeds 2, or exceeds 1.5 and no class has a larger one |
| PoisonDetection.AppendIsolated | confusion_training.py:177-179 | the inner loop appends the class members predicted as the class, in order |
| PoisonDetection.CollectSuspicious | confusion_training.py:170-192 | the decision loop appends the isolated members of each flagged class, class by class |
| PoisonDetection.IdentifyPoisonSamples | confusion_training.py:58-194 | the whole step returns the specified suspicious list or raises the specified error |
| DetectionFacts.AllClassLists | confusion_training.py:58-71 | every class list is ascending, within the inspection set, and holds only samples of its class |
| DetectionFacts.SuspiciousMembers | confusion_training.py:170-192 | a sample is reported iff its class is flagged and the confused model predicts its own label |
| DetectionFacts.IsolatedClassList | confusion_training.py:177-179 | the isolated members of a class list form an ascending list of that class |
| DetectionFacts.AppendClassList | confusion_training.py:170-192 | appending a class's list after earlier classes keeps the class-then-index order |
| DetectionFacts.SuspiciousOrdered | confusion_training.py:170-192 | the report runs class by class, in index order within a class |
| DetectionFacts.DetectionReport | confusion_training.py:58-194 | the step reports x iff the model predicts x's label and x's class is flagged; the list is ordered by class then index and has no repeats |
| DetectionFacts.DetectionFailure | confusion_training.py:58-168 | the step raises iff there are no classes or some class or its chunklet share has fewer than two samples |
| DetectionFacts.DetectionFailureNames | confusion_training.py:69-77 | the exception names the first failing class, its bucket checked before its share |
| DetectionFacts.AllSentinelReportsNone | confusion_training.py:160-192 | when every ratio is the sentinel 1, nobody is reported |
| DetectionFacts.FlagExamples | confusion_training.py:173-189 | the policy on sample ratios: a ratio above 1.5 that is not the maximum is not flagged; ties at the maximum are all flagged; every ratio above 2 is flagged |

## Left out

- Networks and checkpoints: every forward pass, `torch.load` of checkpoints (273-281, 400-404), `get_features` (11-36) and the SGD update (350-352). Their results are inputs: losses, predictions, `lossAt`, `fitted`.
- The PCA projection and the Gaussian fit with its covariance offset (100-108, 124-158). The fitted ratio of each class is an input, used only when the degenerate-fit test passes.
- Floating point: losses, ratios, frequencies and the blend are exact reals. `np.exp` and NaN ratios are not modelled.
- Per-epoch shuffling of the data loaders. A restarted stream yields the same batches in the same order.
- `print`, `tqdm`, the debug statistics other than the recall counter (516-549, 563-566) and the loading of the poison and cover index files (519-521). The poison list is a parameter of `RecallCount`.
- `confidence_array` (410, 434), `target_clean` (299) and the chunklet scan's result (89-98): none of them affects what the code returns.
- The 0/1 `labels` list of the partition (114-122) is modelled as the `flags` result of `PoisonDetection.Partition`; the Gaussian fit that consumes it (155) is abstracted into the input `fitted`.
- The `ember` prediction rule `output >= 0.5` (424): the prediction is an input, and both branches at 436-441 do the same thing.
- The `class_wise` return of `top_indices_each_class` (568-569). `BucketByClass` models that list.
- Labels at or above `num_classes` and clean indices at or above `num_samples` raise an `IndexError` in the code (63, 66, 452, 476), and so does a distilled label at or above `len(freq)` (337-338). The model excludes them with `requires` instead of modelling the crash.
- A negative distillation ratio is excluded by `requires`; Python's `sorted_indices[:num_expected]` (464) would then drop that many entries from the end.
- A median rate outside [0, 1] is excluded by `requires`. For a negative rate `st` exceeds `ed`, so `range(st, ed)` (509) is empty and the class contributes nothing. A rate above 1 can make `st` negative and `ed` exceed the class size (4 samples at rate 1.5 give st = -1, ed = 5): the index -1 appends the class's last, highest-loss entry, and a later index raises `IndexError` at 510.
- `num_classes == 0` in the training loop is excluded by `requires` outside the `ember` setting; there `(rounder + batch_idx) % num_classes` (303) raises `ZeroDivisionError`. The `ember` branch (306-307) does not use `num_classes`, and the model admits 0 there.
- Empty clean batches are excluded by `requires`; for one, `.mean()` (330, 347) gives NaN, not a loss.
- Negative class frequencies are excluded by `requires`; Python accepts them and they give negative weights at 337-338.
- A negative `final_budget` is excluded by its type (a natural number); `sorted_indices[:final_budget]` (487) would then drop that many indices from the end.
- `lamb == 0` and `batch_factor == 0` are excluded by `requires`. A zero `freq` entry is modelled as the error `ZeroFrequency`. Whether the code raises or produces an infinite weight there depends on the element type of `freq`, which the file does not fix.
- RecallCount: when the collected list is not sorted or the poison list has repeats, its contract only bounds the count by the number of collected indices.
- ChunkletPositions: when the share does not lie within the class, its contract only bounds the positions. `ChunkletShareFits` shows that, when no clean index is repeated, the share does lie within the class in the step itself. With a repeated clean index the scan (91-98) can report a position holding a different sample (members [3, 5], share [3, 3] give positions [0, 1]); the model does not state the result for that case.
- TrainStep, StepOnBatch: they state what each step trains on and its objective, not the parameter update.
