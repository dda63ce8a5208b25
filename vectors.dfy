/**
 * Real vectors, standing in for the one-dimensional numpy arrays of the
 * environment. Floating point is not modelled: every entry is an exact `real`.
 */
module Vectors {

  type Vec = seq<real>

  /** Elementwise difference `a - b` (numpy `a - b` on equal shapes). */
  function Sub(a: Vec, b: Vec): (r: Vec)
    requires |a| == |b|
    ensures |r| == |a|
    ensures forall i :: 0 <= i < |r| ==> r[i] == a[i] - b[i]
  {
    seq(|a|, i requires 0 <= i < |a| => a[i] - b[i])
  }

  /** Scalar times vector (numpy `c * a`). */
  function ScaleBy(c: real, a: Vec): (r: Vec)
    ensures |r| == |a|
    ensures forall i :: 0 <= i < |r| ==> r[i] == c * a[i]
  {
    seq(|a|, i requires 0 <= i < |a| => c * a[i])
  }

  /** Elementwise product (numpy `a * b` on equal shapes). */
  function Mul(a: Vec, b: Vec): (r: Vec)
    requires |a| == |b|
    ensures |r| == |a|
    ensures forall i :: 0 <= i < |r| ==> r[i] == a[i] * b[i]
  {
    seq(|a|, i requires 0 <= i < |a| => a[i] * b[i])
  }

  function Abs(x: real): real {
    if x < 0.0 then -x else x
  }

  /** Elementwise absolute value (numpy `np.abs`). */
  function AbsAll(a: Vec): (r: Vec)
    ensures |r| == |a|
    ensures forall i :: 0 <= i < |r| ==> r[i] == Abs(a[i])
  {
    seq(|a|, i requires 0 <= i < |a| => Abs(a[i]))
  }

  /** Inner product, summed from the front (one row times one column of a numpy `@`). */
  function Dot(a: Vec, b: Vec): real
    requires |a| == |b|
  {
    if |a| == 0 then 0.0 else a[0] * b[0] + Dot(a[1..], b[1..])
  }
}
