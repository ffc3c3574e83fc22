// The linear SVM trained by stochastic sub-gradient descent on the hinge
// loss with L2 regularisation (struct `SVM` of Machine_Learning/svm/src/main.rs).
// The training rule is first stated on values (Step, Epoch, Train); the class
// Svm then updates its fields in place and is proved to follow that rule.
module Trainer {
  import opened LinAlg

  /** The ±1 class of every raw label: exactly 1 is the positive class and
      every other value, -1 or not, is the negative class. */
  function ClassMap(y: seq<real>): (r: seq<real>)
    ensures |r| == |y|
    ensures forall i :: 0 <= i < |y| ==> (r[i] == 1.0 || r[i] == -1.0) && (r[i] == 1.0 <==> y[i] == 1.0)
  {
    if y == [] then [] else [if y[0] == 1.0 then 1.0 else -1.0] + ClassMap(y[1..])
  }

  /** Hard labels from scores: +1 strictly above the threshold, -1 otherwise
      (a score equal to the threshold is -1). */
  function ThresholdLabels(v: seq<real>, t: real): (r: seq<real>)
    ensures |r| == |v|
    ensures forall i :: 0 <= i < |v| ==> (r[i] == 1.0 || r[i] == -1.0) && (r[i] == 1.0 <==> v[i] > t)
  {
    if v == [] then [] else [if v[0] > t then 1.0 else -1.0] + ThresholdLabels(v[1..], t)
  }

  /** The trained quantities: weight vector and bias. */
  datatype Params = Params(w: seq<real>, b: real)

  /** The linear model w·x + b of one row. */
  function Score(p: Params, x: seq<real>): real
    requires |x| == |p.w|
  {
    Dot(p.w, x) + p.b
  }

  /** The label-weighted margin (w·x + b)·y of one row. */
  function Margin(p: Params, x: seq<real>, y: real): real
    requires |x| == |p.w|
  {
    Score(p, x) * y
  }

  /** Sub-gradients (dw, db): pure regularisation when the constraint holds,
      regularisation plus the hinge term when it is violated. */
  function Gradients(satisfied: bool, w: seq<real>, x: seq<real>, y: real, lam: real): (seq<real>, real)
    requires |x| == |w|
  {
    if satisfied then (seq(|w|, j requires 0 <= j < |w| => lam * w[j]), 0.0)
    else (seq(|w|, j requires 0 <= j < |w| => lam * w[j] - y * x[j]), -y)
  }

  /** One gradient step of size `lr`. */
  function Update(p: Params, dw: seq<real>, db: real, lr: real): Params
    requires |dw| == |p.w|
  {
    Params(seq(|p.w|, j requires 0 <= j < |p.w| => p.w[j] - lr * dw[j]), p.b - lr * db)
  }

  /** The update for one row with label y: test the margin, pick the
      sub-gradient, take the step. */
  function Step(p: Params, x: seq<real>, y: real, lr: real, lam: real): (q: Params)
    requires |x| == |p.w|
    ensures |q.w| == |p.w|
    ensures Margin(p, x, y) >= 1.0 ==>
      q.b == p.b && forall j :: 0 <= j < |p.w| ==> q.w[j] == p.w[j] - lr * lam * p.w[j]
    ensures Margin(p, x, y) < 1.0 ==>
      q.b == p.b + lr * y && forall j :: 0 <= j < |p.w| ==> q.w[j] == p.w[j] - lr * (lam * p.w[j] - y * x[j])
  {
    var g := Gradients(Margin(p, x, y) >= 1.0, p.w, x, y, lam);
    Update(p, g.0, g.1, lr)
  }

  /** Step is the update by the sub-gradients its own margin test selects. */
  lemma StepByParts(p: Params, x: seq<real>, y: real, lr: real, lam: real, c: bool, g: (seq<real>, real))
    requires |x| == |p.w|
    requires c == (Margin(p, x, y) >= 1.0) && g == Gradients(c, p.w, x, y, lam)
    ensures |g.0| == |p.w| && Step(p, x, y, lr, lam) == Update(p, g.0, g.1, lr)
  {
  }

  /** The first `n` rows of one pass, each step seeing the weights left by
      the previous one. */
  function Epoch(p: Params, rows: seq<seq<real>>, ys: seq<real>, n: nat, lr: real, lam: real): (q: Params)
    requires n <= |rows| && n <= |ys|
    requires forall i :: 0 <= i < |rows| ==> |rows[i]| == |p.w|
    ensures |q.w| == |p.w|
    decreases n
  {
    if n == 0 then p
    else Step(Epoch(p, rows, ys, n - 1, lr, lam), rows[n - 1], ys[n - 1], lr, lam)
  }

  /** One more row of a pass is one more step. */
  lemma EpochNext(p: Params, rows: seq<seq<real>>, ys: seq<real>, n: nat, lr: real, lam: real)
    requires n < |rows| && n < |ys|
    requires forall i :: 0 <= i < |rows| ==> |rows[i]| == |p.w|
    ensures |Epoch(p, rows, ys, n, lr, lam).w| == |p.w|
    ensures Epoch(p, rows, ys, n + 1, lr, lam) == Step(Epoch(p, rows, ys, n, lr, lam), rows[n], ys[n], lr, lam)
  {
  }

  /** `k` full passes over all rows. */
  function Train(p: Params, rows: seq<seq<real>>, ys: seq<real>, k: nat, lr: real, lam: real): (q: Params)
    requires k == 0 || |rows| <= |ys|
    requires forall i :: 0 <= i < |rows| ==> |rows[i]| == |p.w|
    ensures |q.w| == |p.w|
    decreases k
  {
    if k == 0 then p
    else Epoch(Train(p, rows, ys, k - 1, lr, lam), rows, ys, |rows|, lr, lam)
  }

  /** The arithmetic of one weight entry under a hinge step without
      regularisation. */
  lemma HingeEntry(wj: real, xj: real, y: real, lr: real)
    ensures wj - lr * (0.0 * wj - y * xj) == wj + (lr * y) * xj
  {
  }

  /** How much a hinge step of size lr raises the margin of its own row
      (x, y): lr·y²·(x·x + 1). */
  function Gain(x: seq<real>, y: real, lr: real): real {
    lr * y * y * (Dot(x, x) + 1.0)
  }

  lemma ProductPositive(a: real, b: real)
    requires a > 0.0 && b > 0.0
    ensures a * b > 0.0
  {
  }

  /** The gain is strictly positive for a positive learning rate and a
      non-zero label. */
  lemma GainPositive(x: seq<real>, y: real, lr: real)
    requires lr > 0.0 && y != 0.0
    ensures Gain(x, y, lr) > 0.0
  {
    DotSelfNonNegative(x);
    if y > 0.0 {
      ProductPositive(lr, y);
      ProductPositive(lr * y, y);
    } else {
      ProductPositive(lr, -y);
      ProductPositive(lr * -y, -y);
      assert lr * -y * -y == lr * y * y;
    }
    ProductPositive(lr * y * y, Dot(x, x) + 1.0);
  }

  /** Moving the weights by c·x and the bias by c moves the score of x by
      c·(x·x + 1). */
  lemma ShiftedScore(p: Params, q: Params, x: seq<real>, c: real)
    requires |q.w| == |p.w| == |x|
    requires q.b == p.b + c
    requires forall j :: 0 <= j < |q.w| ==> q.w[j] == p.w[j] + c * x[j]
    ensures Score(q, x) == Score(p, x) + c * (Dot(x, x) + 1.0)
  {
    DotShift(q.w, p.w, x, c);
  }

  /** Scaling a score shift of (lr·y)·(d + 1) by the label y: the margins
      mp = sp·y and mq = sq·y differ by g = lr·y²·(d + 1). */
  lemma ScaleByLabel(mp: real, mq: real, sp: real, sq: real, g: real, d: real, y: real, lr: real)
    requires mp == sp * y && mq == sq * y && g == lr * y * y * (d + 1.0)
    requires sq == sp + (lr * y) * (d + 1.0)
    ensures mq == mp + g
  {
    var h := (lr * y) * (d + 1.0);
    assert sq * y == sp * y + h * y;
    assert h * y == lr * y * y * (d + 1.0);
  }

  /** Moving the weights by c·x and the bias by c, with c = lr·y, raises the
      margin of (x, y) by the gain lr·y²·(x·x + 1). */
  lemma ShiftedMargin(p: Params, q: Params, x: seq<real>, y: real, lr: real)
    requires |q.w| == |p.w| == |x|
    requires q.b == p.b + lr * y
    requires forall j :: 0 <= j < |q.w| ==> q.w[j] == p.w[j] + (lr * y) * x[j]
    ensures Margin(q, x, y) == Margin(p, x, y) + Gain(x, y, lr)
  {
    ShiftedScore(p, q, x, lr * y);
    ScaleByLabel(Margin(p, x, y), Margin(q, x, y), Score(p, x), Score(q, x), Gain(x, y, lr), Dot(x, x), y, lr);
  }

  /** Without regularisation, the step for a row that violates the margin
      moves that row's own margin up by the gain lr·y²·(x·x + 1); for a
      positive learning rate and a non-zero label this is a strict increase. */
  lemma HingeStepRaisesMargin(p: Params, x: seq<real>, y: real, lr: real)
    requires |x| == |p.w| && Margin(p, x, y) < 1.0
    ensures Margin(Step(p, x, y, lr, 0.0), x, y) == Margin(p, x, y) + Gain(x, y, lr)
    ensures lr > 0.0 && y != 0.0 ==> Margin(Step(p, x, y, lr, 0.0), x, y) > Margin(p, x, y)
  {
    var q := Step(p, x, y, lr, 0.0);
    forall j | 0 <= j < |q.w| ensures q.w[j] == p.w[j] + (lr * y) * x[j] {
      HingeEntry(p.w[j], x[j], y, lr);
    }
    ShiftedMargin(p, q, x, y, lr);
    if lr > 0.0 && y != 0.0 {
      GainPositive(x, y, lr);
    }
  }

  /** A hand-computed pass: two rows on the x-axis, learning rate 0.1, no
      regularisation. Both rows violate the margin; the first moves w to
      (0.2, 0) and b to 0.1, the second to (0.4, 0) and b back to 0. */
  lemma TrainTwoPoints()
    ensures Train(Params([0.0, 0.0], 0.0), [[2.0, 0.0], [-2.0, 0.0]], [1.0, -1.0], 1, 0.1, 0.0)
         == Params([0.4, 0.0], 0.0)
  {
    var rows := [[2.0, 0.0], [-2.0, 0.0]];
    var ys := [1.0, -1.0];
    var p0 := Params([0.0, 0.0], 0.0);
    DotPair(p0.w, rows[0]);
    assert Margin(p0, rows[0], 1.0) == 0.0;
    var p1 := Step(p0, rows[0], 1.0, 0.1, 0.0);
    assert p1 == Params([0.2, 0.0], 0.1);
    assert Epoch(p0, rows, ys, 1, 0.1, 0.0) == p1;
    DotPair(p1.w, rows[1]);
    assert Margin(p1, rows[1], -1.0) == 0.3;
    var p2 := Step(p1, rows[1], -1.0, 0.1, 0.0);
    assert p2 == Params([0.4, 0.0], 0.0);
    assert Epoch(p0, rows, ys, 2, 0.1, 0.0) == p2;
  }

  /** The SVM object: hyper-parameters fixed at construction, weight, bias and
      class map updated in place. */
  class Svm {
    const lr: real
    const lam: real
    const nIters: nat
    var w: seq<real>
    var b: real
    var clsMap: seq<real>

    constructor (lr: real, lam: real, nIters: nat)
      ensures this.lr == lr && this.lam == lam && this.nIters == nIters
      ensures w == [0.0] && b == 0.0 && clsMap == [0.0]
    {
      this.lr := lr;
      this.lam := lam;
      this.nIters := nIters;
      w := [0.0];
      b := 0.0;
      clsMap := [0.0];
    }

    method InitWeight(x: Matrix)
      modifies this`w
      ensures w == Zeros(x.col)
    {
      w := Zeros(x.col);
    }

    method GetClsMap(y: seq<real>)
      modifies this`clsMap
      ensures clsMap == ClassMap(y)
    {
      clsMap := ClassMap(y);
    }

    /** Whether the row meets the margin: its label-weighted score
        (w·x + b)·y reaches 1. */
    function SatisfyConstraint(x: seq<real>, idx: nat): (r: bool)
      reads this
      requires |x| == |w| && idx < |clsMap|
      ensures r <==> (Dot(w, x) + b) * clsMap[idx] >= 1.0
    {
      Margin(Params(w, b), x, clsMap[idx]) >= 1.0
    }

    /** The sub-gradients for one row: only the regularisation term λ·w when
        the constraint holds, and the hinge term -y·x and -y on top of it when
        it is violated. */
    function GetGradients(constrain: bool, x: seq<real>, idx: nat): (r: (seq<real>, real))
      reads this
      requires |x| == |w| && idx < |clsMap|
      ensures |r.0| == |w|
      ensures constrain ==> r.1 == 0.0 && forall j :: 0 <= j < |w| ==> r.0[j] == lam * w[j]
      ensures !constrain ==>
        r.1 == -clsMap[idx] && forall j :: 0 <= j < |w| ==> r.0[j] == lam * w[j] - clsMap[idx] * x[j]
    {
      Gradients(constrain, w, x, clsMap[idx], lam)
    }

    method UpdateWeightBias(dw: seq<real>, db: real)
      requires |dw| == |w|
      modifies this`w, this`b
      ensures Params(w, b) == Update(Params(old(w), old(b)), dw, db, lr)
    {
      var w0, rate := w, lr;
      w := seq(|w0|, j requires 0 <= j < |w0| => w0[j] - rate * dw[j]);
      b := b - lr * db;
    }

    /** The body of the training loop for row `idx`: test its margin, take
        the sub-gradient the test selects, and update w and b. */
    method RowStep(x: seq<real>, idx: nat)
      requires |x| == |w| && idx < |clsMap|
      modifies this`w, this`b
      ensures Params(w, b) == Step(old(Params(w, b)), x, clsMap[idx], lr, lam)
    {
      ghost var before := Params(w, b);
      var constrain := SatisfyConstraint(x, idx);
      var (dw, db) := GetGradients(constrain, x, idx);
      StepByParts(before, x, clsMap[idx], lr, lam, constrain, (dw, db));
      UpdateWeightBias(dw, db);
    }

    /** One pass over all rows in order, each row updating w and b before the
        next row is looked at. */
    method Pass(x: Matrix)
      requires x.Valid() && |w| == x.col && |x.rows| <= |clsMap|
      modifies this`w, this`b
      ensures Params(w, b) == Epoch(old(Params(w, b)), x.rows, clsMap, |x.rows|, lr, lam)
    {
      ghost var start, ys := Params(w, b), clsMap;
      var i := 0;
      while i < |x.rows|
        invariant i <= |x.rows| && |start.w| == x.col && |w| == x.col && clsMap == ys
        invariant Params(w, b) == Epoch(start, x.rows, ys, i, lr, lam)
      {
        RowStep(x.rows[i], i);
        EpochNext(start, x.rows, ys, i, lr, lam);
        i := i + 1;
      }
    }

    /** Resets the weights to zero (but not the bias), derives the class map
        and runs `nIters` passes of per-row updates in row order. Row i reads
        class i, so training needs a label for every row. */
    method Fit(x: Matrix, y: seq<real>)
      requires x.Valid()
      requires nIters == 0 || |x.rows| <= |y|
      modifies this`w, this`b, this`clsMap
      ensures clsMap == ClassMap(y)
      ensures |w| == x.col
      ensures Params(w, b) == Train(Params(Zeros(x.col), old(b)), x.rows, ClassMap(y), nIters, lr, lam)
      ensures nIters == 0 ==> w == Zeros(x.col) && b == old(b)
    {
      InitWeight(x);
      GetClsMap(y);
      ghost var p0 := Params(w, b);
      assert nIters > 0 ==> |x.rows| <= |clsMap|;
      var it := 0;
      while it < nIters
        invariant it <= nIters
        invariant clsMap == ClassMap(y) && |p0.w| == x.col && |w| == x.col
        invariant Params(w, b) == Train(p0, x.rows, clsMap, it, lr, lam)
      {
        Pass(x);
        it := it + 1;
      }
    }

    /** The unclipped score w·x + b of every row. */
    function ComputeDecisionValues(x: Matrix): (r: seq<real>)
      reads this
      requires x.Valid() && |w| == x.col
      ensures |r| == |x.rows|
      ensures forall i :: 0 <= i < |r| ==> r[i] == Dot(w, x.rows[i]) + b
    {
      var s := Apply(x, w);
      assert forall i :: 0 <= i < |s| ==> s[i] == Dot(w, x.rows[i]) by {
        forall i | 0 <= i < |s| ensures s[i] == Dot(w, x.rows[i]) {
          DotComm(x.rows[i], w);
        }
      }
      AddScalar(s, b)
    }

    /** +1 where the score is strictly positive, -1 elsewhere. */
    function Predict(x: Matrix): (r: seq<real>)
      reads this
      requires x.Valid() && |w| == x.col
      ensures |r| == |x.rows|
      ensures forall i :: 0 <= i < |r| ==>
        (r[i] == 1.0 || r[i] == -1.0) && (r[i] == 1.0 <==> Dot(w, x.rows[i]) + b > 0.0)
    {
      ThresholdLabels(ComputeDecisionValues(x), 0.0)
    }

    /** Zeroes the weights, keeps the bias, and predicts: every row gets the
        sign of the bias. */
    method Baseline(x: Matrix) returns (r: seq<real>)
      requires x.Valid()
      modifies this`w
      ensures w == Zeros(x.col) && b == old(b)
      ensures r == Predict(x)
      ensures |r| == |x.rows|
      ensures forall i :: 0 <= i < |r| ==> r[i] == if b > 0.0 then 1.0 else -1.0
    {
      w := Zeros(x.col);
      r := Predict(x);
      forall i | 0 <= i < |x.rows| ensures Dot(w, x.rows[i]) == 0.0 {
        DotZeros(x.rows[i]);
      }
    }
  }
}
