// The ROC sweep of the driver in Machine_Learning/svm/src/main.rs: for each
// threshold, label every probability by "strictly above the threshold", count
// against the true labels, and record the true- and false-positive rates.
module Roc {
  import opened Trainer
  import opened Confusion

  /** The confusion matrix of the labels against the probabilities cut at `t`. */
  function CountsAt(y: seq<real>, z: seq<real>, t: real): ConfusionMatrix {
    var pred := ThresholdLabels(z, t);
    Tally(y, pred, PairCount(y, pred))
  }

  /** The body of the sweep for one threshold: label the probabilities,
      count them against the true labels, and read off the two rates. */
  method RocPoint(y: seq<real>, z: seq<real>, t: real) returns (tpr: Option<real>, fpr: Option<real>)
    ensures tpr == CountsAt(y, z, t).Tpr() && fpr == CountsAt(y, z, t).Fpr()
  {
    var pred := ThresholdLabels(z, t);
    var cm := New(y, pred);
    tpr, fpr := cm.Tpr(), cm.Fpr();
  }

  /** One (tpr, fpr) point per threshold, in threshold order. */
  method RocCurve(y: seq<real>, z: seq<real>, thr: seq<real>) returns (tpr: seq<Option<real>>, fpr: seq<Option<real>>)
    ensures |tpr| == |thr| && |fpr| == |thr|
    ensures forall k :: 0 <= k < |thr| ==> tpr[k] == CountsAt(y, z, thr[k]).Tpr()
    ensures forall k :: 0 <= k < |thr| ==> fpr[k] == CountsAt(y, z, thr[k]).Fpr()
  {
    tpr, fpr := [], [];
    for k := 0 to |thr|
      invariant |tpr| == k && |fpr| == k
      invariant forall j :: 0 <= j < k ==> tpr[j] == CountsAt(y, z, thr[j]).Tpr()
      invariant forall j :: 0 <= j < k ==> fpr[j] == CountsAt(y, z, thr[j]).Fpr()
    {
      var tp, fp := RocPoint(y, z, thr[k]);
      tpr := tpr + [tp];
      fpr := fpr + [fp];
    }
  }

  /** Counting against predictions `p2` that are positive only where `p1` is
      never yields more true or false positives, and leaves the number of
      actual positives (TP+FN) and actual negatives (FP+TN) unchanged. */
  lemma {:induction false} TallyDominated(y: seq<real>, p1: seq<real>, p2: seq<real>, n: nat)
    requires n <= |y| && n <= |p1| && n <= |p2|
    requires forall i :: 0 <= i < n ==> IsLabel(p1[i]) && IsLabel(p2[i]) && (p2[i] == 1.0 ==> p1[i] == 1.0)
    ensures Tally(y, p2, n).tp <= Tally(y, p1, n).tp
    ensures Tally(y, p2, n).fp <= Tally(y, p1, n).fp
    ensures Tally(y, p2, n).tp + Tally(y, p2, n).fn == Tally(y, p1, n).tp + Tally(y, p1, n).fn
    ensures Tally(y, p2, n).fp + Tally(y, p2, n).tn == Tally(y, p1, n).fp + Tally(y, p1, n).tn
  {
    if n > 0 {
      TallyDominated(y, p1, p2, n - 1);
    }
  }

  /** A ratio over a fixed denominator grows with its numerator. */
  lemma RatioMonotone(a: nat, b: nat, d: nat)
    requires a <= b <= d && d > 0
    ensures Ratio(a, d).value <= Ratio(b, d).value
  {
    QuotientMonotone(a as real, b as real, d as real);
  }

  /** Raising the threshold never raises the true- or false-positive rate, and
      whether each rate is defined does not depend on the threshold. */
  lemma RocMonotone(y: seq<real>, z: seq<real>, t1: real, t2: real)
    requires t1 <= t2
    ensures CountsAt(y, z, t2).Tpr().Some? <==> CountsAt(y, z, t1).Tpr().Some?
    ensures CountsAt(y, z, t2).Fpr().Some? <==> CountsAt(y, z, t1).Fpr().Some?
    ensures CountsAt(y, z, t2).Tpr().Some? ==> CountsAt(y, z, t2).Tpr().value <= CountsAt(y, z, t1).Tpr().value
    ensures CountsAt(y, z, t2).Fpr().Some? ==> CountsAt(y, z, t2).Fpr().value <= CountsAt(y, z, t1).Fpr().value
  {
    var p1, p2 := ThresholdLabels(z, t1), ThresholdLabels(z, t2);
    var n := PairCount(y, p1);
    assert PairCount(y, p2) == n;
    TallyDominated(y, p1, p2, n);
    var c1, c2 := Tally(y, p1, n), Tally(y, p2, n);
    if c1.tp + c1.fn > 0 {
      RatioMonotone(c2.tp, c1.tp, c1.tp + c1.fn);
    }
    if c1.fp + c1.tn > 0 {
      RatioMonotone(c2.fp, c1.fp, c1.fp + c1.tn);
    }
  }

  /** Predictions that are all +1 leave no true or false negatives; predictions
      that are all -1 leave no true or false positives. */
  lemma {:induction false} TallyConstant(y: seq<real>, p: seq<real>, n: nat, v: real)
    requires n <= |y| && n <= |p| && IsLabel(v)
    requires forall i :: 0 <= i < n ==> p[i] == v
    ensures v == 1.0 ==> Tally(y, p, n).tn == 0 && Tally(y, p, n).fn == 0
    ensures v == -1.0 ==> Tally(y, p, n).tp == 0 && Tally(y, p, n).fp == 0
  {
    if n > 0 {
      TallyConstant(y, p, n - 1, v);
    }
  }

  /** With every probability above the threshold all predictions are +1, so
      TPR and FPR are 1 where they are defined. */
  lemma AllAbove(y: seq<real>, z: seq<real>, t: real)
    requires forall i :: 0 <= i < |z| ==> z[i] > t
    ensures CountsAt(y, z, t).Tpr().Some? ==> CountsAt(y, z, t).Tpr().value == 1.0
    ensures CountsAt(y, z, t).Fpr().Some? ==> CountsAt(y, z, t).Fpr().value == 1.0
  {
    var p := ThresholdLabels(z, t);
    var n := PairCount(y, p);
    assert forall i :: 0 <= i < n ==> p[i] == 1.0;
    TallyConstant(y, p, n, 1.0);
    assert CountsAt(y, z, t) == Tally(y, p, n);
  }

  /** With every probability at or below the threshold all predictions are
      -1, so TPR and FPR are 0 where they are defined. */
  lemma AllAtOrBelow(y: seq<real>, z: seq<real>, t: real)
    requires forall i :: 0 <= i < |z| ==> z[i] <= t
    ensures CountsAt(y, z, t).Tpr().Some? ==> CountsAt(y, z, t).Tpr().value == 0.0
    ensures CountsAt(y, z, t).Fpr().Some? ==> CountsAt(y, z, t).Fpr().value == 0.0
  {
    var p := ThresholdLabels(z, t);
    var n := PairCount(y, p);
    assert forall i :: 0 <= i < n ==> p[i] == -1.0;
    TallyConstant(y, p, n, -1.0);
    assert CountsAt(y, z, t) == Tally(y, p, n);
  }
}
