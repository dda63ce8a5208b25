/**
 * The rest-pose cost `len_to_init`: a diagonal weight matrix `mat_dt_init`
 * built once from the configured per-joint weights, and the cost of a
 * configuration computed from it with numpy broadcasting.
 */
module RestPose {
  import opened Vectors
  import opened Wrappers

  /** The named joint has a slot numpy can index in a vector of length `nq` (negative indices count from the end). */
  predicate Known(jointIndex: map<string, int>, nq: nat, name: string) {
    name in jointIndex && -(nq as int) <= jointIndex[name] < nq
  }

  /** The position written by `mat_dt_init[order_positions[name]]`. */
  function Slot(jointIndex: map<string, int>, nq: nat, name: string): (j: nat)
    requires Known(jointIndex, nq, name)
    ensures j < nq
  {
    if jointIndex[name] < 0 then jointIndex[name] + nq else jointIndex[name]
  }

  predicate AllKnown(weights: seq<(string, real)>, jointIndex: map<string, int>, nq: nat) {
    forall k :: 0 <= k < |weights| ==> Known(jointIndex, nq, weights[k].0)
  }

  /**
   * The weight that ends up on diagonal entry `j`: the value of the last
   * configured joint written to slot `j`, and 0 if none is.
   */
  function LastWeight(weights: seq<(string, real)>, jointIndex: map<string, int>, nq: nat, j: nat): real
    requires AllKnown(weights, jointIndex, nq)
  {
    if |weights| == 0 then 0.0
    else
      var last := weights[|weights| - 1];
      if Slot(jointIndex, nq, last.0) == j then last.1
      else LastWeight(weights[..|weights| - 1], jointIndex, nq, j)
  }

  /**
   * Builds the diagonal of `mat_dt_init`: zeros, then one write per entry
   * of `w_joints_to_init` (absent: all zeros). An unknown joint name or an
   * index out of range makes the construction fail (`None`).
   */
  method RestPoseWeights(nq: nat, jointIndex: map<string, int>, weights: Option<seq<(string, real)>>)
    returns (r: Option<Vec>)
    ensures r.None? <==> weights.Some? && !AllKnown(weights.value, jointIndex, nq)
    ensures r.Some? ==> |r.value| == nq
    ensures r.Some? && weights.None? ==> forall j :: 0 <= j < nq ==> r.value[j] == 0.0
    ensures r.Some? && weights.Some? ==>
      forall j :: 0 <= j < nq ==> r.value[j] == LastWeight(weights.value, jointIndex, nq, j)
  {
    var diag := new real[nq](_ => 0.0);
    if weights.None? {
      return Some(diag[..]);
    }
    var ws := weights.value;
    for k := 0 to |ws|
      invariant AllKnown(ws[..k], jointIndex, nq)
      invariant forall j :: 0 <= j < nq ==> diag[j] == LastWeight(ws[..k], jointIndex, nq, j)
    {
      var name := ws[k].0;
      if !Known(jointIndex, nq, name) {
        return None;
      }
      assert ws[..k + 1][..k] == ws[..k];
      diag[Slot(jointIndex, nq, name)] := ws[k].1;
    }
    assert ws[..|ws|] == ws;
    return Some(diag[..]);
  }

  /** A joint that no configured name points at keeps weight 0. */
  lemma {:induction false} UnnamedJointHasZeroWeight(weights: seq<(string, real)>, jointIndex: map<string, int>, nq: nat, j: nat)
    requires AllKnown(weights, jointIndex, nq)
    requires forall k :: 0 <= k < |weights| ==> Slot(jointIndex, nq, weights[k].0) != j
    ensures LastWeight(weights, jointIndex, nq, j) == 0.0
  {
    if |weights| > 0 {
      var init := weights[..|weights| - 1];
      assert forall k :: 0 <= k < |init| ==> init[k] == weights[k];
      UnnamedJointHasZeroWeight(init, jointIndex, nq, j);
    }
  }

  /** When the configured joints occupy distinct slots, each slot carries exactly its joint's weight. */
  lemma {:induction false} NamedJointHasItsWeight(weights: seq<(string, real)>, jointIndex: map<string, int>, nq: nat, k: nat)
    requires AllKnown(weights, jointIndex, nq)
    requires forall a, b :: 0 <= a < b < |weights| ==> Slot(jointIndex, nq, weights[a].0) != Slot(jointIndex, nq, weights[b].0)
    requires k < |weights|
    ensures LastWeight(weights, jointIndex, nq, Slot(jointIndex, nq, weights[k].0)) == weights[k].1
  {
    if k < |weights| - 1 {
      var init := weights[..|weights| - 1];
      assert forall a :: 0 <= a < |init| ==> init[a] == weights[a];
      NamedJointHasItsWeight(init, jointIndex, nq, k);
    }
  }

  /** The diagonal matrix `np.diag(w)`. */
  function Diag(w: Vec): (m: seq<Vec>)
    ensures |m| == |w|
    ensures forall i :: 0 <= i < |w| ==> |m[i]| == |w|
  {
    seq(|w|, i requires 0 <= i < |w| => seq(|w|, j requires 0 <= j < |w| => if i == j then w[i] else 0.0))
  }

  /** Sum over the first `cols` entries of one row of the broadcast product `d * row * d`. */
  function RowSum(d: Vec, row: Vec, cols: nat): real
    requires cols <= |d| == |row|
  {
    if cols == 0 then 0.0 else RowSum(d, row, cols - 1) + d[cols - 1] * row[cols - 1] * d[cols - 1]
  }

  /**
   * `np.sum(d.T * m * d)` over the first `rows` rows: with a one-dimensional
   * `d`, broadcasting makes entry `(i, j)` equal to `d[j] * m[i][j] * d[j]`.
   */
  function BroadcastSum(d: Vec, m: seq<Vec>, rows: nat): real
    requires rows <= |m|
    requires forall i :: 0 <= i < |m| ==> |m[i]| == |d|
  {
    if rows == 0 then 0.0 else BroadcastSum(d, m, rows - 1) + RowSum(d, m[rows - 1], |d|)
  }

  /**
   * `len_to_init` for joint positions `positions` and rest configuration
   * `qC0`: the broadcast sum, which with the diagonal `mat_dt_init` is the
   * weighted sum of squared deviations `sum_j W_jj (qC0_j - q_j)^2`.
   */
  function RestPoseCost(qC0: Vec, positions: Vec, w: Vec): (c: real)
    requires |qC0| == |positions| == |w|
    ensures c == WeightedSquares(w, Sub(qC0, positions), |w|)
  {
    DiagBroadcastSum(Sub(qC0, positions), w, |w|);
    BroadcastSum(Sub(qC0, positions), Diag(w), |w|)
  }

  /** The weighted sum of squares `sum_{j < n} w[j] * d[j]^2`. */
  function WeightedSquares(w: Vec, d: Vec, n: nat): real
    requires n <= |w| == |d|
  {
    if n == 0 then 0.0 else WeightedSquares(w, d, n - 1) + w[n - 1] * (d[n - 1] * d[n - 1])
  }

  /** Row `i` of the broadcast product with a diagonal matrix holds only its diagonal term. */
  lemma {:induction false} DiagRowSum(d: Vec, w: Vec, i: nat, cols: nat)
    requires |d| == |w| && i < |w| && cols <= |w|
    ensures RowSum(d, Diag(w)[i], cols) == if i < cols then w[i] * (d[i] * d[i]) else 0.0
  {
    if cols > 0 {
      DiagRowSum(d, w, i, cols - 1);
      var row := Diag(w)[i];
      assert RowSum(d, row, cols) == RowSum(d, row, cols - 1) + d[cols - 1] * row[cols - 1] * d[cols - 1];
      assert row[cols - 1] == if i == cols - 1 then w[i] else 0.0;
      assert d[cols - 1] * row[cols - 1] * d[cols - 1] == row[cols - 1] * (d[cols - 1] * d[cols - 1]);
    }
  }

  lemma {:induction false} DiagBroadcastSum(d: Vec, w: Vec, rows: nat)
    requires |d| == |w| && rows <= |w|
    ensures BroadcastSum(d, Diag(w), rows) == WeightedSquares(w, d, rows)
  {
    if rows > 0 {
      DiagBroadcastSum(d, w, rows - 1);
      DiagRowSum(d, w, rows - 1, |d|);
      assert BroadcastSum(d, Diag(w), rows) == BroadcastSum(d, Diag(w), rows - 1) + RowSum(d, Diag(w)[rows - 1], |d|);
      assert WeightedSquares(w, d, rows) == WeightedSquares(w, d, rows - 1) + w[rows - 1] * (d[rows - 1] * d[rows - 1]);
    }
  }

  lemma {:induction false} WeightedSquaresNonNegative(w: Vec, d: Vec, n: nat)
    requires n <= |w| == |d|
    requires forall j :: 0 <= j < |w| ==> w[j] >= 0.0
    ensures WeightedSquares(w, d, n) >= 0.0
  {
    if n > 0 {
      WeightedSquaresNonNegative(w, d, n - 1);
      var s := d[n - 1] * d[n - 1];
      assert s >= 0.0;
      assert w[n - 1] * s >= 0.0;
    }
  }

  /** With non-negative joint weights the rest-pose cost is never negative. */
  lemma RestPoseCostNonNegative(qC0: Vec, positions: Vec, w: Vec)
    requires |qC0| == |positions| == |w|
    requires forall j :: 0 <= j < |w| ==> w[j] >= 0.0
    ensures RestPoseCost(qC0, positions, w) >= 0.0
  {
    WeightedSquaresNonNegative(w, Sub(qC0, positions), |w|);
  }

  lemma {:induction false} WeightedSquaresIgnoresZeroWeights(w: Vec, d1: Vec, d2: Vec, n: nat)
    requires n <= |w| == |d1| == |d2|
    requires forall j :: 0 <= j < |w| && w[j] != 0.0 ==> d1[j] == d2[j]
    ensures WeightedSquares(w, d1, n) == WeightedSquares(w, d2, n)
  {
    if n > 0 {
      WeightedSquaresIgnoresZeroWeights(w, d1, d2, n - 1);
    }
  }

  /** Joints with weight 0 (those not named in `w_joints_to_init`) do not affect the cost. */
  lemma RestPoseCostIgnoresUnweightedJoints(qC0: Vec, p1: Vec, p2: Vec, w: Vec)
    requires |qC0| == |p1| == |p2| == |w|
    requires forall j :: 0 <= j < |w| && w[j] != 0.0 ==> p1[j] == p2[j]
    ensures RestPoseCost(qC0, p1, w) == RestPoseCost(qC0, p2, w)
  {
    WeightedSquaresIgnoresZeroWeights(w, Sub(qC0, p1), Sub(qC0, p2), |w|);
  }
}
