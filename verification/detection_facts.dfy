/**
 * What the identification step promises about its result: who is reported,
 * in which order, when it raises, and that an all-sentinel run reports nobody.
 */
module DetectionFacts {
  import opened Wrappers
  import opened Indices
  import opened PoisonDetection

  /** Each class list is ascending, within the inspection set, and holds only samples of its class. */
  predicate ClassLists(classes: seq<seq<nat>>, labels: seq<nat>) {
    forall c :: 0 <= c < |classes| ==> ClassList(classes[c], labels, c)
  }

  /** An ascending list of samples of class c. */
  predicate ClassList(members: seq<nat>, labels: seq<nat>, c: nat) {
    StrictlyIncreasing(members) && IndicesBelow(members, |labels|)
    && forall i :: 0 <= i < |members| ==> labels[members[i]] == c
  }

  /** The member lists of the step are such class lists. */
  lemma AllClassLists(labels: seq<nat>, numClasses: nat)
    ensures ClassLists(AllClassMembers(labels, numClasses), labels)
  {
    var classes := AllClassMembers(labels, numClasses);
    forall c | 0 <= c < numClasses
      ensures StrictlyIncreasing(classes[c]) && IndicesBelow(classes[c], |labels|)
      ensures forall i :: 0 <= i < |classes[c]| ==> labels[classes[c][i]] == c
    {
      ClassMembersFacts(labels, c, 0);
      forall i | 0 <= i < |classes[c]|
        ensures labels[classes[c][i]] == c
      {
        ClassMembersFacts(labels, c, classes[c][i]);
      }
    }
  }

  /**
   * A sample is appended by the decision loop over classes `0 .. k-1` exactly
   * when its class is among them and flagged, it is in its class list, and the
   * confused model predicts its own label for it.
   */
  lemma {:induction false} SuspiciousMembers(classes: seq<seq<nat>>, labels: seq<nat>, preds: seq<nat>,
                                             ratios: seq<real>, maxRatio: real, k: nat, x: int)
    requires k <= |classes| && k <= |ratios| && |preds| == |labels|
    requires ClassLists(classes, labels)
    ensures x in SuspiciousOf(classes, preds, ratios, maxRatio, k) <==>
              && 0 <= x < |labels| && labels[x] < k
              && x in classes[labels[x]] && preds[x] == labels[x]
              && Flagged(ratios[labels[x]], maxRatio)
  {
    if k > 0 {
      SuspiciousMembers(classes, labels, preds, ratios, maxRatio, k - 1, x);
      var c := k - 1;
      BucketMembers(classes[c], preds, c, x);
      if x in classes[c] {
        var i :| 0 <= i < |classes[c]| && classes[c][i] == x;
        assert labels[x] == c;
      }
    }
  }

  /** Ordered by class first and by index within a class. */
  predicate ClassThenIndex(s: seq<nat>, labels: seq<nat>)
    requires IndicesBelow(s, |labels|)
  {
    forall i, j :: 0 <= i < j < |s| ==> labels[s[i]] < labels[s[j]] || (labels[s[i]] == labels[s[j]] && s[i] < s[j])
  }

  /** The isolated members of a class list form an ascending list of that class. */
  lemma IsolatedClassList(members: seq<nat>, labels: seq<nat>, preds: seq<nat>, c: nat)
    requires |preds| == |labels| && ClassList(members, labels, c)
    ensures ClassList(ClassBucket(members, preds, c), labels, c)
  {
    var piece := ClassBucket(members, preds, c);
    BucketIncreasing(members, preds, c);
    forall i | 0 <= i < |piece|
      ensures piece[i] < |labels| && labels[piece[i]] == c
    {
      BucketMembers(members, preds, c, piece[i]);
      var m :| 0 <= m < |members| && members[m] == piece[i];
    }
  }

  /** Appending an ascending list of class c to a list of earlier classes keeps the order. */
  lemma AppendClassList(prev: seq<nat>, piece: seq<nat>, labels: seq<nat>, c: nat)
    requires IndicesBelow(prev, |labels|) && ClassThenIndex(prev, labels)
    requires forall i :: 0 <= i < |prev| ==> labels[prev[i]] < c
    requires ClassList(piece, labels, c)
    ensures IndicesBelow(prev + piece, |labels|) && ClassThenIndex(prev + piece, labels)
    ensures forall i :: 0 <= i < |prev + piece| ==> labels[(prev + piece)[i]] < c + 1
  {
    var s := prev + piece;
    forall i, j | 0 <= i < j < |s|
      ensures labels[s[i]] < labels[s[j]] || (labels[s[i]] == labels[s[j]] && s[i] < s[j])
    {
      if j < |prev| {
        assert s[i] == prev[i] && s[j] == prev[j];
      } else if i < |prev| {
        assert s[i] == prev[i] && s[j] == piece[j - |prev|];
      } else {
        assert s[i] == piece[i - |prev|] && s[j] == piece[j - |prev|];
      }
    }
  }

  /**
   * The decision loop reports class by class and, within a class, in index
   * order; all reported samples are of the classes it has passed.
   */
  lemma {:induction false} SuspiciousOrdered(classes: seq<seq<nat>>, labels: seq<nat>, preds: seq<nat>,
                                             ratios: seq<real>, maxRatio: real, k: nat)
    requires k <= |classes| && k <= |ratios| && |preds| == |labels|
    requires ClassLists(classes, labels)
    ensures var s := SuspiciousOf(classes, preds, ratios, maxRatio, k);
            && IndicesBelow(s, |labels|)
            && (forall i :: 0 <= i < |s| ==> labels[s[i]] < k)
            && ClassThenIndex(s, labels)
  {
    if k > 0 {
      var c := k - 1;
      SuspiciousOrdered(classes, labels, preds, ratios, maxRatio, c);
      var prev := SuspiciousOf(classes, preds, ratios, maxRatio, c);
      assert ClassList(classes[c], labels, c);
      IsolatedClassList(classes[c], labels, preds, c);
      var piece := if Flagged(ratios[c], maxRatio) then ClassBucket(classes[c], preds, c) else [];
      AppendClassList(prev, piece, labels, c);
      assert SuspiciousOf(classes, preds, ratios, maxRatio, k) == prev + piece;
    }
  }

  /**
   * What the identification step reports: a sample is suspicious exactly when
   * the confused model predicts its own label and its class is flagged; the
   * list runs class by class, in index order within a class, with no repeats.
   */
  lemma DetectionReport(labels: seq<nat>, preds: seq<nat>, clean: seq<nat>, numClasses: nat, fitted: seq<real>, x: int)
    requires |preds| == |labels| && |fitted| == numClasses && IndicesBelow(clean, |labels|)
    requires forall i :: 0 <= i < |labels| ==> labels[i] < numClasses
    requires Detection(labels, preds, clean, numClasses, fitted).Success?
    ensures var s := Detection(labels, preds, clean, numClasses, fitted).value;
            var ratios := DetectionRatios(labels, preds, numClasses, fitted);
            && numClasses > 0
            && (x in s <==> 0 <= x < |labels| && preds[x] == labels[x] && Flagged(ratios[labels[x]], MaxOf(ratios)))
            && IndicesBelow(s, |labels|)
            && ClassThenIndex(s, labels)
            && NoDups(s)
  {
    var classes := AllClassMembers(labels, numClasses);
    var ratios := DetectionRatios(labels, preds, numClasses, fitted);
    AllClassLists(labels, numClasses);
    var s := SuspiciousOf(classes, preds, ratios, MaxOf(ratios), numClasses);
    assert Detection(labels, preds, clean, numClasses, fitted).value == s;
    SuspiciousMembers(classes, labels, preds, ratios, MaxOf(ratios), numClasses, x);
    if 0 <= x < |labels| {
      ClassMembersFacts(labels, labels[x], x);
    }
    SuspiciousOrdered(classes, labels, preds, ratios, MaxOf(ratios), numClasses);
    forall i, j | 0 <= i < j < |s|
      ensures s[i] != s[j]
    {
    }
  }

  /**
   * The step raises exactly when there are no classes or some class, or its
   * share of the clean chunklet, has fewer than two samples.
   */
  lemma DetectionFailure(labels: seq<nat>, preds: seq<nat>, clean: seq<nat>, numClasses: nat, fitted: seq<real>)
    requires |preds| == |labels| && |fitted| == numClasses && IndicesBelow(clean, |labels|)
    ensures Detection(labels, preds, clean, numClasses, fitted).Failure? <==>
              numClasses == 0
              || exists c :: 0 <= c < numClasses &&
                   (|ClassBucket(Range(|labels|), labels, c)| < 2 || |ClassBucket(clean, labels, c)| < 2)
  {
    var classes := ClassBuckets(Range(|labels|), labels, numClasses);
    var shares := ClassBuckets(clean, labels, numClasses);
    SizeErrorMeaning(classes, shares, numClasses);
    assert Detection(labels, preds, clean, numClasses, fitted).Failure?
           <==> SizeError(classes, shares, numClasses).Some? || numClasses == 0;
    if !SizesHold(classes, shares, numClasses) {
      var c :| 0 <= c < numClasses && !(|classes[c]| >= 2 && |shares[c]| >= 2);
      assert |ClassBucket(Range(|labels|), labels, c)| < 2 || |ClassBucket(clean, labels, c)| < 2;
    } else {
      forall c | 0 <= c < numClasses
        ensures |ClassBucket(Range(|labels|), labels, c)| >= 2 && |ClassBucket(clean, labels, c)| >= 2
      {
        assert |classes[c]| >= 2 && |shares[c]| >= 2;
      }
    }
  }

  /**
   * The exception names the first failing class, its bucket checked before its
   * share; the empty-maximum error comes only with no classes.
   */
  lemma DetectionFailureNames(labels: seq<nat>, preds: seq<nat>, clean: seq<nat>, numClasses: nat, fitted: seq<real>)
    requires |preds| == |labels| && |fitted| == numClasses && IndicesBelow(clean, |labels|)
    requires Detection(labels, preds, clean, numClasses, fitted).Failure?
    ensures var e := Detection(labels, preds, clean, numClasses, fitted).error;
            var classes := ClassBuckets(Range(|labels|), labels, numClasses);
            var shares := ClassBuckets(clean, labels, numClasses);
            && (e.NoClasses? ==> numClasses == 0)
            && (!e.NoClasses? ==> e.cls < numClasses && SizesHold(classes, shares, e.cls))
            && (e.ClassTooSmall? ==> |classes[e.cls]| < 2)
            && (e.ChunkletTooSmall? ==> |classes[e.cls]| >= 2 && |shares[e.cls]| < 2)
  {
    var classes := ClassBuckets(Range(|labels|), labels, numClasses);
    var shares := ClassBuckets(clean, labels, numClasses);
    SizeErrorMeaning(classes, shares, numClasses);
  }

  /** When every class's ratio is the sentinel 1, nobody is reported. */
  lemma AllSentinelReportsNone(labels: seq<nat>, preds: seq<nat>, clean: seq<nat>, numClasses: nat, fitted: seq<real>)
    requires |preds| == |labels| && |fitted| == numClasses && IndicesBelow(clean, |labels|)
    requires forall i :: 0 <= i < |labels| ==> labels[i] < numClasses
    requires forall c :: 0 <= c < numClasses ==> DetectionRatios(labels, preds, numClasses, fitted)[c] == 1.0
    ensures Detection(labels, preds, clean, numClasses, fitted).Success? ==>
              Detection(labels, preds, clean, numClasses, fitted).value == []
  {
    if Detection(labels, preds, clean, numClasses, fitted).Success? {
      var s := Detection(labels, preds, clean, numClasses, fitted).value;
      var ratios := DetectionRatios(labels, preds, numClasses, fitted);
      assert MaxOf(ratios) == 1.0;
      forall x | 0 <= x < |labels|
        ensures x !in s
      {
        DetectionReport(labels, preds, clean, numClasses, fitted, x);
      }
      DetectionReport(labels, preds, clean, numClasses, fitted, 0);
      NoMemberEmpty(s, |labels|);
    }
  }

  /** A list of indices below n that holds none of them is empty. */
  lemma NoMemberEmpty(s: seq<nat>, n: nat)
    ensures (forall x :: 0 <= x < n ==> x !in s) && IndicesBelow(s, n) ==> s == []
  {
    if s != [] && IndicesBelow(s, n) {
      assert s[0] < n && s[0] in s;
    }
  }

  /**
   * The policy on sample ratios: with ratios 0.5, 3.0, 1.6, 1.0 only class 1
   * is flagged (1.6 is neither the maximum nor above 2); with 1.8, 1.8, 0.3
   * both tied classes are flagged; with 2.5, 3.0 both are flagged.
   */
  lemma FlagExamples()
    ensures var r := [0.5, 3.0, 1.6, 1.0];
            forall c :: 0 <= c < 4 ==> (Flagged(r[c], MaxOf(r)) <==> c == 1)
    ensures var r := [1.8, 1.8, 0.3];
            forall c :: 0 <= c < 3 ==> (Flagged(r[c], MaxOf(r)) <==> c < 2)
    ensures var r := [2.5, 3.0];
            Flagged(r[0], MaxOf(r)) && Flagged(r[1], MaxOf(r))
  {
    var r := [0.5, 3.0, 1.6, 1.0];
    assert [0.5, 3.0][..1] == [0.5];
    assert [0.5, 3.0, 1.6][..2] == [0.5, 3.0];
    assert r[..3] == [0.5, 3.0, 1.6];
    assert MaxOf(r) == 3.0;
    var t := [1.8, 1.8, 0.3];
    assert [1.8, 1.8][..1] == [1.8];
    assert t[..2] == [1.8, 1.8];
    assert MaxOf(t) == 1.8;
    var u := [2.5, 3.0];
    assert u[..1] == [2.5];
    assert MaxOf(u) == 3.0;
  }
}
