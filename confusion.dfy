// The confusion matrix of true against predicted ±1 labels and the rates
// derived from it (struct `ConfusionMatrix` of Machine_Learning/svm/src/main.rs).
// A ratio whose denominator is zero is NaN in the source; here it is None.
module Confusion {

  datatype Option<T> = None | Some(value: T)

  /** A value the matrix counts: +1 or -1. */
  predicate IsLabel(v: real) {
    v == 1.0 || v == -1.0
  }

  /** Bounds of a quotient n/d with 0 ≤ n ≤ d and d > 0. */
  lemma QuotientFacts(n: real, d: real)
    requires 0.0 <= n <= d && d > 0.0
    ensures 0.0 <= n / d <= 1.0
    ensures n / d * d == n
    ensures n / d == 1.0 <==> n == d
    ensures n / d == 0.0 <==> n == 0.0
  {
    var q := n / d;
    assert q * d == n;
    assert q == 0.0 ==> q * d == 0.0;
    assert q < 0.0 ==> q * d < 0.0;
    assert q > 1.0 ==> (q - 1.0) * d > 0.0;
    assert q != 1.0 ==> (q - 1.0) * d != 0.0;
  }

  /** Dividing by a positive number keeps the order. */
  lemma QuotientMonotone(a: real, b: real, d: real)
    requires a <= b && d > 0.0
    ensures a / d <= b / d
  {
    var qa, qb := a / d, b / d;
    assert (qb - qa) * d == b - a;
    assert qb < qa ==> (qb - qa) * d < 0.0;
  }

  /** `num / den` for counts, undefined when `den` is zero. */
  function Ratio(num: nat, den: nat): (r: Option<real>)
    requires num <= den
    ensures r.Some? <==> den > 0
    ensures r.Some? ==> 0.0 <= r.value <= 1.0 && r.value * den as real == num as real
    ensures r.Some? ==> (r.value == 1.0 <==> num == den)
    ensures r.Some? ==> (r.value == 0.0 <==> num == 0)
  {
    if den == 0 then None
    else
      QuotientFacts(num as real, den as real);
      Some(num as real / den as real)
  }

  datatype ConfusionMatrix = ConfusionMatrix(tp: nat, tn: nat, fp: nat, fn: nat) {

    function Total(): nat {
      tp + tn + fp + fn
    }

    /** Accuracy (TP+TN)/(TP+TN+FP+FN). */
    function Acc(): (r: Option<real>)
      ensures r.Some? <==> Total() > 0
      ensures r.Some? ==> 0.0 <= r.value <= 1.0
      ensures r.Some? ==> (r.value == 1.0 <==> fp + fn == 0)
    {
      Ratio(tp + tn, Total())
    }

    /** Precision TP/(TP+FP). */
    function Ppv(): (r: Option<real>)
      ensures r.Some? <==> tp + fp > 0
      ensures r.Some? ==> 0.0 <= r.value <= 1.0
    {
      Ratio(tp, tp + fp)
    }

    /** Recall TP/(TP+FN). */
    function Tpr(): (r: Option<real>)
      ensures r.Some? <==> tp + fn > 0
      ensures r.Some? ==> 0.0 <= r.value <= 1.0
    {
      Ratio(tp, tp + fn)
    }

    /** Specificity TN/(TN+FP). */
    function Tnr(): (r: Option<real>)
      ensures r.Some? <==> tn + fp > 0
      ensures r.Some? ==> 0.0 <= r.value <= 1.0
    {
      Ratio(tn, tn + fp)
    }

    /** Negative predictive value TN/(TN+FN). */
    function Npv(): (r: Option<real>)
      ensures r.Some? <==> tn + fn > 0
      ensures r.Some? ==> 0.0 <= r.value <= 1.0
    {
      Ratio(tn, tn + fn)
    }

    /** Miss rate FN/(FN+TP). */
    function Fnr(): (r: Option<real>)
      ensures r.Some? <==> tp + fn > 0
      ensures r.Some? ==> 0.0 <= r.value <= 1.0
    {
      Ratio(fn, fn + tp)
    }

    /** Fall-out FP/(FP+TN). */
    function Fpr(): (r: Option<real>)
      ensures r.Some? <==> tn + fp > 0
      ensures r.Some? ==> 0.0 <= r.value <= 1.0
    {
      Ratio(fp, fp + tn)
    }

    /** Harmonic mean of precision and recall. It is defined exactly when
        there is a true positive (otherwise precision or recall is NaN, or
        both are 0 and the quotient is 0/0), and then equals 2TP/(2TP+FP+FN). */
    function F1Score(): (r: Option<real>)
      ensures r.Some? <==> tp > 0
      ensures r.Some? ==> r.value == (2 * tp) as real / (2 * tp + fp + fn) as real
      ensures r.Some? ==> 0.0 < r.value <= 1.0
    {
      match (Ppv(), Tpr())
      case (Some(p), Some(q)) =>
        if p + q == 0.0 then None
        else
          HarmonicMean(tp as real, (tp + fp) as real, (tp + fn) as real);
          Some(2.0 * p * q / (p + q))
      case _ => None
    }
  }

  /** x/y == z/w follows from x·w == z·y when both denominators are non-zero. */
  lemma CrossMultiply(x: real, y: real, z: real, w: real)
    requires y != 0.0 && w != 0.0 && x * w == z * y
    ensures x / y == z / w
  {
    assert x / y * (y * w) == z / w * (y * w);
  }

  /** The cross-multiplied form of 2pq/(p+q) == 2a/(c+d) when p·c == q·d == a. */
  lemma HarmonicCross(a: real, c: real, d: real, p: real, q: real)
    requires p * c == a && q * d == a
    ensures 2.0 * p * q * (c + d) == 2.0 * a * (p + q)
  {
    assert 2.0 * p * q * (c + d) == 2.0 * q * (p * c) + 2.0 * p * (q * d);
  }

  /** Sign of a quotient of positive numbers. */
  lemma QuotientPositive(a: real, c: real)
    requires a > 0.0 && c > 0.0
    ensures a / c > 0.0 && a / c * c == a
  {
  }

  lemma HarmonicMean(a: real, c: real, d: real)
    requires 0.0 < a <= c && a <= d
    ensures 2.0 * (a / c) * (a / d) / (a / c + a / d) == 2.0 * a / (c + d)
    ensures 0.0 < 2.0 * a / (c + d) <= 1.0
  {
    var p, q := a / c, a / d;
    QuotientPositive(a, c);
    QuotientPositive(a, d);
    HarmonicCross(a, c, d, p, q);
    CrossMultiply(2.0 * p * q, p + q, 2.0 * a, c + d);
    QuotientFacts(2.0 * a, c + d);
  }

  /** Two ratios over the same non-zero count whose numerators add up to it
      sum to 1. */
  lemma ComplementaryRatios(x: nat, y: nat)
    requires x + y > 0
    ensures Ratio(x, x + y).value + Ratio(y, y + x).value == 1.0
  {
    var d := (x + y) as real;
    assert Ratio(x, x + y).value == x as real / d;
    assert Ratio(y, y + x).value == y as real / d;
    CrossMultiply(x as real / d + y as real / d, 1.0, d, d);
  }

  lemma TprFnrComplement(cm: ConfusionMatrix)
    ensures cm.Tpr().Some? <==> cm.Fnr().Some?
    ensures cm.Tpr().Some? ==> cm.Tpr().value + cm.Fnr().value == 1.0
  {
    if cm.tp + cm.fn > 0 {
      ComplementaryRatios(cm.tp, cm.fn);
    }
  }

  lemma TnrFprComplement(cm: ConfusionMatrix)
    ensures cm.Tnr().Some? <==> cm.Fpr().Some?
    ensures cm.Tnr().Some? ==> cm.Tnr().value + cm.Fpr().value == 1.0
  {
    if cm.tn + cm.fp > 0 {
      ComplementaryRatios(cm.tn, cm.fp);
    }
  }

  /** The bucket one (label, prediction) pair falls into; a pair with a value
      outside {+1, -1} falls into none. */
  function Record(cm: ConfusionMatrix, y: real, yHat: real): ConfusionMatrix {
    if y == 1.0 && yHat == 1.0 then cm.(tp := cm.tp + 1)
    else if y == -1.0 && yHat == -1.0 then cm.(tn := cm.tn + 1)
    else if y == -1.0 && yHat == 1.0 then cm.(fp := cm.fp + 1)
    else if y == 1.0 && yHat == -1.0 then cm.(fn := cm.fn + 1)
    else cm
  }

  /** Number of pairs when two sequences are zipped: the shorter length. */
  function PairCount(y: seq<real>, yHat: seq<real>): nat {
    if |y| < |yHat| then |y| else |yHat|
  }

  /** The counts over the first `n` pairs. */
  function Tally(y: seq<real>, yHat: seq<real>, n: nat): ConfusionMatrix
    requires n <= |y| && n <= |yHat|
  {
    if n == 0 then ConfusionMatrix(0, 0, 0, 0)
    else Record(Tally(y, yHat, n - 1), y[n - 1], yHat[n - 1])
  }

  /** Builds the matrix in one pass over the zipped sequences; pairs past the
      end of the shorter sequence are not looked at. */
  method New(y: seq<real>, yHat: seq<real>) returns (cm: ConfusionMatrix)
    ensures cm == Tally(y, yHat, PairCount(y, yHat))
    ensures cm.Total() <= |y| && cm.Total() <= |yHat|
  {
    var tp, tn, fp, fn := 0, 0, 0, 0;
    var n := PairCount(y, yHat);
    var i := 0;
    while i < n
      invariant i <= n
      invariant ConfusionMatrix(tp, tn, fp, fn) == Tally(y, yHat, i)
    {
      if y[i] == 1.0 && yHat[i] == 1.0 {
        tp := tp + 1;
      } else if y[i] == -1.0 && yHat[i] == -1.0 {
        tn := tn + 1;
      } else if y[i] == -1.0 && yHat[i] == 1.0 {
        fp := fp + 1;
      } else if y[i] == 1.0 && yHat[i] == -1.0 {
        fn := fn + 1;
      }
      i := i + 1;
    }
    cm := ConfusionMatrix(tp, tn, fp, fn);
    TallyTotal(y, yHat, n);
  }

  /** At most one count per pair, and every pair is counted exactly when
      both its values are ±1. */
  lemma {:induction false} TallyTotal(y: seq<real>, yHat: seq<real>, n: nat)
    requires n <= |y| && n <= |yHat|
    ensures Tally(y, yHat, n).Total() <= n
    ensures Tally(y, yHat, n).Total() == n <==>
      forall i :: 0 <= i < n ==> IsLabel(y[i]) && IsLabel(yHat[i])
  {
    if n > 0 {
      TallyTotal(y, yHat, n - 1);
    }
  }

  /** Predictions that equal the labels never count as false positives or
      false negatives. */
  lemma {:induction false} PerfectPrediction(y: seq<real>, n: nat)
    requires n <= |y|
    ensures Tally(y, y, n).fp == 0 && Tally(y, y, n).fn == 0
  {
    if n > 0 {
      PerfectPrediction(y, n - 1);
    }
  }

  /** Perfect ±1 predictions on a non-empty sequence have accuracy 1. */
  lemma PerfectAccuracy(y: seq<real>)
    requires |y| > 0
    requires forall i :: 0 <= i < |y| ==> IsLabel(y[i])
    ensures Tally(y, y, |y|).Acc() == Some(1.0)
  {
    TallyTotal(y, y, |y|);
    PerfectPrediction(y, |y|);
  }
}
