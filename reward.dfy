/**
 * The two reward policies. Each is a fixed coefficient column multiplied
 * (numpy `@`) with a feature matrix: one row per transition, holding the
 * three recorded features `param_rew` followed by one goal-dependent
 * column. Both are vectorised over a batch of rows so that hindsight
 * relabelling can call them on replayed transitions.
 */
module Reward {
  import opened Vectors

  /** `param_rew`: torque norm, rest-pose cost and the "not truncated" flag of one step. */
  datatype Features = Features(torqueNorm: real, restPoseCost: real, alive: bool)

  /**
   * Reward weights: `w_control_reg`, `w_target_pos`,
   * `w_penalization_truncation` and `w_target_reached`.
   */
  datatype Weights = Weights(control: real, target: real, truncation: real, targetReached: real)

  /** The reward policy chosen by `rewardType`. */
  datatype RewardType = Dense | Sparse

  /** The constant subtracted from the sparse success indicator. */
  const StepCost: real := 0.002

  /** A boolean as numpy stores it in a float array. */
  function Indicator(b: bool): real {
    if b then 1.0 else 0.0
  }

  /** One row of `info_matrix` before the goal-dependent column is appended. */
  function FeatureRow(f: Features): (row: Vec)
    ensures |row| == 3
  {
    [f.torqueNorm, f.restPoseCost, Indicator(f.alive)]
  }

  /** Coefficient column of the dense policy. */
  function DenseCoefficients(w: Weights): (c: Vec)
    ensures |c| == 4
  {
    [-w.control, -1.0, w.truncation, -w.target]
  }

  /** Coefficient column of the sparse policy: rest pose and alive flag weigh nothing. */
  function SparseCoefficients(w: Weights): (c: Vec)
    ensures |c| == 4
  {
    [-w.control, 0.0, 0.0, w.targetReached]
  }

  /** Goal-dependent column of the sparse policy: success indicator minus the step cost. */
  function SparseColumn(dst: real, thresholdSuccess: real): real {
    Indicator(dst < thresholdSuccess) - StepCost
  }

  /**
   * Dense reward of one transition: its feature row, then the goal
   * distance, times the dense column. In closed form: the control cost,
   * minus the rest-pose cost, plus `w_penalization_truncation` while not
   * truncated, minus the weighted distance to the goal.
   */
  function DenseRowReward(w: Weights, f: Features, dst: real): (r: real)
    ensures r == -w.control * f.torqueNorm - f.restPoseCost + w.truncation * Indicator(f.alive) - w.target * dst
  {
    Dot4(FeatureRow(f) + [dst], DenseCoefficients(w));
    Dot(FeatureRow(f) + [dst], DenseCoefficients(w))
  }

  /**
   * Sparse reward of one transition: its feature row, then the sparse
   * column entry, times the sparse column. In closed form the step cost
   * sits inside the column that `w_target_reached` multiplies, so the
   * constant cost per step is `w_target_reached * 0.002`.
   */
  function SparseRowReward(w: Weights, f: Features, dst: real, thresholdSuccess: real): (r: real)
    ensures r == -w.control * f.torqueNorm + w.targetReached * Indicator(dst < thresholdSuccess) - w.targetReached * StepCost
  {
    Dot4(FeatureRow(f) + [SparseColumn(dst, thresholdSuccess)], SparseCoefficients(w));
    Dot(FeatureRow(f) + [SparseColumn(dst, thresholdSuccess)], SparseCoefficients(w))
  }

  /** The reward the selected policy gives one transition. */
  function RowReward(rewardType: RewardType, w: Weights, thresholdSuccess: real, f: Features, dst: real): real {
    match rewardType
    case Dense => DenseRowReward(w, f, dst)
    case Sparse => SparseRowReward(w, f, dst, thresholdSuccess)
  }

  /** The inner product of two 4-vectors, written out term by term. */
  lemma Dot4(a: Vec, b: Vec)
    requires |a| == |b| == 4
    ensures Dot(a, b) == a[0] * b[0] + a[1] * b[1] + a[2] * b[2] + a[3] * b[3]
  {
    assert Dot(a[3..], b[3..]) == a[3] * b[3] + Dot(a[4..], b[4..]);
    assert Dot(a[2..], b[2..]) == a[2] * b[2] + Dot(a[3..], b[3..]) by {
      assert a[2..][1..] == a[3..] && b[2..][1..] == b[3..];
    }
    assert Dot(a[1..], b[1..]) == a[1] * b[1] + Dot(a[2..], b[2..]) by {
      assert a[1..][1..] == a[2..] && b[1..][1..] == b[2..];
    }
  }

  /** The sparse reward depends on neither the rest-pose cost nor the truncation flag. */
  lemma SparseIgnoresRestPoseAndAlive(w: Weights, f: Features, g: Features, dst: real, thresholdSuccess: real)
    requires f.torqueNorm == g.torqueNorm
    ensures SparseRowReward(w, f, dst, thresholdSuccess) == SparseRowReward(w, g, dst, thresholdSuccess)
  {
  }

  /** Staying within the safety limits is worth exactly `w_penalization_truncation` under the dense policy. */
  lemma DenseAliveBonus(w: Weights, tor: real, cost: real, dst: real)
    ensures DenseRowReward(w, Features(tor, cost, true), dst) - DenseRowReward(w, Features(tor, cost, false), dst)
         == w.truncation
  {
  }

  /** Under the dense policy, moving closer to the goal never lowers the reward when `w_target_pos >= 0`. */
  lemma DenseRewardMonotoneInDistance(w: Weights, f: Features, d1: real, d2: real)
    requires w.target >= 0.0 && d1 <= d2
    ensures DenseRowReward(w, f, d1) >= DenseRowReward(w, f, d2)
  {
    assert w.target * d1 <= w.target * d2;
  }

  /**
   * A zero-torque sparse step: inside the threshold it earns
   * `w_target_reached * (1 - 0.002)`, outside it costs `w_target_reached * 0.002`.
   * With `w_target_reached = 5` that is 4.99 and -0.01.
   */
  lemma SparseZeroTorqueRewards(w: Weights, f: Features, dst: real, thresholdSuccess: real)
    requires f.torqueNorm == 0.0
    ensures dst < thresholdSuccess ==> SparseRowReward(w, f, dst, thresholdSuccess) == w.targetReached * (1.0 - StepCost)
    ensures dst >= thresholdSuccess ==> SparseRowReward(w, f, dst, thresholdSuccess) == -w.targetReached * StepCost
    ensures w.targetReached == 5.0 ==>
      SparseRowReward(w, f, dst, thresholdSuccess) == if dst < thresholdSuccess then 4.99 else -0.01
  {
  }

  /** np.linalg.norm(achieved_goal - desired_goal, axis=-1): one distance per row. */
  function GoalDistances(achievedGoal: seq<Vec>, desiredGoal: seq<Vec>, norm: Vec -> real): (dst: seq<real>)
    requires |achievedGoal| == |desiredGoal|
    requires forall i :: 0 <= i < |achievedGoal| ==> |achievedGoal[i]| == |desiredGoal[i]|
    ensures |dst| == |achievedGoal|
    ensures forall i :: 0 <= i < |dst| ==> dst[i] == norm(Sub(achievedGoal[i], desiredGoal[i]))
  {
    seq(|achievedGoal|, i requires 0 <= i < |achievedGoal| => norm(Sub(achievedGoal[i], desiredGoal[i])))
  }

  /**
   * Copies `param_rew` of every transition into a fresh `n x 3` matrix, row
   * by row, as `info_matrix[i] = inf["param_rew"]` does.
   */
  method FillInfoMatrix(info: seq<Features>) returns (m: array2<real>)
    ensures fresh(m) && m.Length0 == |info| && m.Length1 == 3
    ensures forall i, c :: 0 <= i < |info| && 0 <= c < 3 ==> m[i, c] == FeatureRow(info[i])[c]
  {
    m := new real[|info|, 3];
    for i := 0 to |info|
      invariant forall k, c :: 0 <= k < i && 0 <= c < 3 ==> m[k, c] == FeatureRow(info[k])[c]
    {
      var row := FeatureRow(info[i]);
      m[i, 0], m[i, 1], m[i, 2] := row[0], row[1], row[2];
    }
  }

  /** `np.concatenate((m, column), axis=1) @ coeff`, one entry per row. */
  function AppendAndMultiply(m: array2<real>, column: seq<real>, coeff: Vec): (r: seq<real>)
    reads m
    requires m.Length1 == 3 && |column| == m.Length0 && |coeff| == 4
    ensures |r| == m.Length0
  {
    seq(m.Length0, i requires 0 <= i < m.Length0 reads m => Dot([m[i, 0], m[i, 1], m[i, 2], column[i]], coeff))
  }

  /**
   * `compute_reward_dense`: the batch of rewards, row `i` being the dense
   * reward of transition `i` alone.
   */
  method ComputeRewardDense(w: Weights, achievedGoal: seq<Vec>, desiredGoal: seq<Vec>, info: seq<Features>, norm: Vec -> real)
    returns (rewards: seq<real>)
    requires |achievedGoal| == |desiredGoal| == |info|
    requires forall i :: 0 <= i < |achievedGoal| ==> |achievedGoal[i]| == |desiredGoal[i]|
    ensures |rewards| == |info|
    ensures forall i :: 0 <= i < |info| ==>
      rewards[i] == DenseRowReward(w, info[i], norm(Sub(achievedGoal[i], desiredGoal[i])))
  {
    var dst := GoalDistances(achievedGoal, desiredGoal, norm);
    var infoMatrix := FillInfoMatrix(info);
    rewards := AppendAndMultiply(infoMatrix, dst, DenseCoefficients(w));
    forall i | 0 <= i < |info|
      ensures rewards[i] == DenseRowReward(w, info[i], dst[i])
    {
      assert [infoMatrix[i, 0], infoMatrix[i, 1], infoMatrix[i, 2], dst[i]] == FeatureRow(info[i]) + [dst[i]];
    }
  }

  /**
   * `compute_reward_sparse`: the batch of rewards, row `i` being the sparse
   * reward of transition `i` alone.
   */
  method ComputeRewardSparse(
    w: Weights, thresholdSuccess: real,
    achievedGoal: seq<Vec>, desiredGoal: seq<Vec>, info: seq<Features>, norm: Vec -> real)
    returns (rewards: seq<real>)
    requires |achievedGoal| == |desiredGoal| == |info|
    requires forall i :: 0 <= i < |achievedGoal| ==> |achievedGoal[i]| == |desiredGoal[i]|
    ensures |rewards| == |info|
    ensures forall i :: 0 <= i < |info| ==>
      rewards[i] == SparseRowReward(w, info[i], norm(Sub(achievedGoal[i], desiredGoal[i])), thresholdSuccess)
  {
    var dst := GoalDistances(achievedGoal, desiredGoal, norm);
    var column := seq(|dst|, i requires 0 <= i < |dst| => SparseColumn(dst[i], thresholdSuccess));
    var infoMatrix := FillInfoMatrix(info);
    rewards := AppendAndMultiply(infoMatrix, column, SparseCoefficients(w));
    forall i | 0 <= i < |info|
      ensures rewards[i] == SparseRowReward(w, info[i], dst[i], thresholdSuccess)
    {
      assert [infoMatrix[i, 0], infoMatrix[i, 1], infoMatrix[i, 2], column[i]]
          == FeatureRow(info[i]) + [SparseColumn(dst[i], thresholdSuccess)];
    }
  }

  /** `compute_reward`: whichever policy `rewardType` selected at construction. */
  method ComputeReward(
    rewardType: RewardType, w: Weights, thresholdSuccess: real,
    achievedGoal: seq<Vec>, desiredGoal: seq<Vec>, info: seq<Features>, norm: Vec -> real)
    returns (rewards: seq<real>)
    requires |achievedGoal| == |desiredGoal| == |info|
    requires forall i :: 0 <= i < |achievedGoal| ==> |achievedGoal[i]| == |desiredGoal[i]|
    ensures |rewards| == |info|
    ensures forall i :: 0 <= i < |info| ==>
      rewards[i] == RowReward(rewardType, w, thresholdSuccess, info[i], norm(Sub(achievedGoal[i], desiredGoal[i])))
  {
    match rewardType
    case Dense =>
      rewards := ComputeRewardDense(w, achievedGoal, desiredGoal, info, norm);
    case Sparse =>
      rewards := ComputeRewardSparse(w, thresholdSuccess, achievedGoal, desiredGoal, info, norm);
  }
}
