// The discrete part of Platt scaling (function `platt_scaling` of
// Machine_Learning/svm/src/main.rs): the smoothed per-example targets that
// the logistic fit is asked to match. The fit itself is not part of this model.
module Platt {

  /** How many entries of `y` equal `v`. */
  function Count(y: seq<real>, v: real): (k: nat)
    ensures k <= |y|
  {
    if y == [] then 0 else (if y[0] == v then 1 else 0) + Count(y[1..], v)
  }

  /** The positive and the negative count never exceed the number of labels
      (values outside {+1, -1} are in neither). */
  lemma {:induction false} ClassCountsBound(y: seq<real>)
    ensures Count(y, 1.0) + Count(y, -1.0) <= |y|
  {
    if y != [] {
      ClassCountsBound(y[1..]);
    }
  }

  /** Target for a positive example, (1 + Np) / (2 + Np). */
  function PositiveTarget(np: nat): (t: real)
    ensures 0.5 <= t < 1.0
    ensures np > 0 ==> 0.5 < t
  {
    var d := 2.0 + np as real;
    var t := (1.0 + np as real) / d;
    assert t * d == 1.0 + np as real;
    assert (t - 0.5) * d == 0.5 * np as real;
    assert (1.0 - t) * d == 1.0;
    t
  }

  /** Target for any other example, 1 / (2 + Nn). */
  function NegativeTarget(nn: nat): (t: real)
    ensures 0.0 < t <= 0.5
    ensures nn > 0 ==> t < 0.5
  {
    var d := 2.0 + nn as real;
    var t := 1.0 / d;
    assert t * d == 1.0;
    assert (0.5 - t) * d == 0.5 * nn as real;
    t
  }

  /** The two targets coincide (both 1/2) exactly when no label is ±1. */
  lemma TargetsCoincide(np: nat, nn: nat)
    ensures PositiveTarget(np) == NegativeTarget(nn) <==> np == 0 && nn == 0
  {
  }

  /** Replaces every label equal to 1 by `tp` and every other by `tn`. */
  function Relabel(y: seq<real>, tp: real, tn: real): (r: seq<real>)
    ensures |r| == |y|
    ensures forall i :: 0 <= i < |y| ==> r[i] == if y[i] == 1.0 then tp else tn
  {
    if y == [] then [] else [if y[0] == 1.0 then tp else tn] + Relabel(y[1..], tp, tn)
  }

  /** The per-example targets of the logistic fit. Each lies strictly between
      0 and 1; an example gets the positive target exactly when its label is
      1, provided at least one label is ±1 (otherwise both targets are 1/2). */
  function Targets(y: seq<real>): (t: seq<real>)
    ensures |t| == |y|
    ensures forall i :: 0 <= i < |y| ==> 0.0 < t[i] < 1.0
    ensures forall i :: 0 <= i < |y| ==> (y[i] == 1.0 ==> t[i] == PositiveTarget(Count(y, 1.0)))
    ensures forall i :: 0 <= i < |y| ==> (y[i] != 1.0 ==> t[i] == NegativeTarget(Count(y, -1.0)))
    ensures Count(y, 1.0) + Count(y, -1.0) > 0 ==>
      forall i :: 0 <= i < |y| ==> (t[i] == PositiveTarget(Count(y, 1.0)) <==> y[i] == 1.0)
  {
    TargetsCoincide(Count(y, 1.0), Count(y, -1.0));
    Relabel(y, PositiveTarget(Count(y, 1.0)), NegativeTarget(Count(y, -1.0)))
  }
}
