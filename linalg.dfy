// The vector and matrix primitives the SVM uses from its numeric library:
// the dot product of two vectors and the product of a matrix with a vector.
// Floating-point numbers are modelled as exact reals.
module LinAlg {

  /** A dense matrix stored row by row; `col` is kept apart so that a matrix
      with no rows still has a width. */
  datatype Matrix = Matrix(rows: seq<seq<real>>, col: nat) {
    /** Every row has exactly `col` entries. */
    predicate Valid() {
      forall i :: 0 <= i < |rows| ==> |rows[i]| == col
    }
  }

  /** The vector of `n` zeros. */
  function Zeros(n: nat): seq<real> {
    seq(n, _ => 0.0)
  }

  /** Sum of the products of the first `n` pairs of entries. */
  function DotTo(u: seq<real>, v: seq<real>, n: nat): real
    requires n <= |u| && n <= |v|
  {
    if n == 0 then 0.0 else DotTo(u, v, n - 1) + u[n - 1] * v[n - 1]
  }

  /** Sum of the products of corresponding entries. */
  function Dot(u: seq<real>, v: seq<real>): real
    requires |u| == |v|
  {
    DotTo(u, v, |u|)
  }

  lemma {:induction false} DotToComm(u: seq<real>, v: seq<real>, n: nat)
    requires n <= |u| && n <= |v|
    ensures DotTo(u, v, n) == DotTo(v, u, n)
  {
    if n > 0 {
      DotToComm(u, v, n - 1);
    }
  }

  /** The dot product is symmetric. */
  lemma DotComm(u: seq<real>, v: seq<real>)
    requires |u| == |v|
    ensures Dot(u, v) == Dot(v, u)
  {
    DotToComm(u, v, |u|);
  }

  lemma {:induction false} DotToZeros(v: seq<real>, n: nat)
    requires n <= |v|
    ensures DotTo(Zeros(|v|), v, n) == 0.0
  {
    if n > 0 {
      DotToZeros(v, n - 1);
    }
  }

  /** The zero vector contributes nothing, whatever the other vector is. */
  lemma DotZeros(v: seq<real>)
    ensures Dot(Zeros(|v|), v) == 0.0
  {
    DotToZeros(v, |v|);
  }

  /** The arithmetic of one step of the shift below, with su, sw and sx the
      three partial sums split into the previous sum and one product. */
  lemma ShiftTerm(su: real, sw: real, sx: real, u0: real, w0: real, x0: real, c: real,
                  du: real, dw: real, dx: real)
    requires su == du + u0 * x0 && sw == dw + w0 * x0 && sx == dx + x0 * x0
    requires u0 == w0 + c * x0 && du == dw + c * dx
    ensures su == sw + c * sx
  {
    assert u0 * x0 == w0 * x0 + c * (x0 * x0);
    assert c * sx == c * dx + c * (x0 * x0);
  }

  lemma {:induction false} DotToShift(u: seq<real>, w: seq<real>, x: seq<real>, c: real, n: nat)
    requires n <= |u| == |w| == |x|
    requires forall j :: 0 <= j < |u| ==> u[j] == w[j] + c * x[j]
    ensures DotTo(u, x, n) == DotTo(w, x, n) + c * DotTo(x, x, n)
  {
    if n > 0 {
      DotToShift(u, w, x, c, n - 1);
      ShiftTerm(DotTo(u, x, n), DotTo(w, x, n), DotTo(x, x, n), u[n - 1], w[n - 1], x[n - 1], c,
                DotTo(u, x, n - 1), DotTo(w, x, n - 1), DotTo(x, x, n - 1));
    }
  }

  /** Dot products are linear in the first argument: (w + c·x)·x = w·x + c·(x·x). */
  lemma DotShift(u: seq<real>, w: seq<real>, x: seq<real>, c: real)
    requires |u| == |w| == |x|
    requires forall j :: 0 <= j < |u| ==> u[j] == w[j] + c * x[j]
    ensures Dot(u, x) == Dot(w, x) + c * Dot(x, x)
  {
    DotToShift(u, w, x, c, |u|);
  }

  lemma SquareNonNegative(a: real)
    ensures a * a >= 0.0
  {
    if a < 0.0 {
      assert a * a == (-a) * (-a);
    }
  }

  lemma {:induction false} DotToSelfNonNegative(x: seq<real>, n: nat)
    requires n <= |x|
    ensures DotTo(x, x, n) >= 0.0
  {
    if n > 0 {
      DotToSelfNonNegative(x, n - 1);
      SquareNonNegative(x[n - 1]);
    }
  }

  /** A vector's dot product with itself is never negative. */
  lemma DotSelfNonNegative(x: seq<real>)
    ensures Dot(x, x) >= 0.0
  {
    DotToSelfNonNegative(x, |x|);
  }

  /** The dot product of two vectors of length 2, written out. */
  lemma DotPair(u: seq<real>, v: seq<real>)
    requires |u| == |v| == 2
    ensures Dot(u, v) == u[0] * v[0] + u[1] * v[1]
  {
    assert DotTo(u, v, 1) == u[0] * v[0];
  }

  /** Matrix times column vector: one dot product per row. */
  function Apply(m: Matrix, v: seq<real>): (r: seq<real>)
    requires m.Valid() && |v| == m.col
    ensures |r| == |m.rows|
    ensures forall i :: 0 <= i < |r| ==> r[i] == Dot(m.rows[i], v)
    decreases |m.rows|
  {
    if m.rows == [] then []
    else [Dot(m.rows[0], v)] + Apply(Matrix(m.rows[1..], m.col), v)
  }

  /** Adds the scalar `s` to every entry of `v`. */
  function AddScalar(v: seq<real>, s: real): (r: seq<real>)
    ensures |r| == |v|
    ensures forall i :: 0 <= i < |v| ==> r[i] == v[i] + s
  {
    if v == [] then [] else [v[0] + s] + AddScalar(v[1..], s)
  }
}
