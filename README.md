# Talos deburring environment (HER variant) in Dafny

This project models the goal-conditioned episode controller
`EnvTalosDeburringHer` of talos-rl: a Gymnasium environment in which a Talos
humanoid must bring a deburring tool to a 3-D target while keeping its
balance and its joint limits. The controller owns the episode state
(`timer`, the on-target count `on_target`, the current target) and on every
step scales the normalised action to torques, drives the simulator, builds
the observation dictionary (`observation`, `achieved_goal`, `desired_goal`),
and decides truncation, reward, termination and success.

Modules, one per component of the environment:

- `Wrappers` (`wrappers.dfy`): `Option`, standing for Python's `None`.
- `Vectors` (`vectors.dfy`): real vectors for the one-dimensional numpy arrays.
- `Normalization` (`normalization.dfy`): the affine normalisers
  `(x - avg) / diff` and their inverse.
- `Actions` (`actions.dfy`): torque scale and `_scaleAction`.
- `Conditions` (`conditions.dfy`): `maxStep`, termination, success,
  truncation and the cumulative on-target count.
- `RestPose` (`restpose.dfy`): construction of the diagonal `mat_dt_init`
  and the rest-pose cost `len_to_init`.
- `Reward` (`reward.dfy`): the dense and sparse policies, each a coefficient
  column times a per-row feature matrix, vectorised over a batch.
- `Env` (`env.dfy`): configuration defaults, `_getObservation`, and the
  class `EnvTalosDeburringHer` with `reset`, `step` and `close`.

The simulator, the Pinocchio kinematics model and the target sampler are
not modelled. What they return (measured state, end-effector position,
centre of mass, limit vectors, rest configuration, sampled target) enters
the methods as parameters, and every command the environment sends to the
simulator (reset, step, end) is recorded, in order, in the field
`simulatorCalls`; the queries `getRobotState` and `getRobotPos` only
supply those parameters and are not recorded. The
Euclidean norm (`np.linalg.norm`) enters as a function parameter `norm`,
so no square root is needed. All arithmetic is exact over `real`.

Behaviour followed as the code has it, where a reader might expect
otherwise:

- `on_target` is a cumulative count of on-target steps since the last
  reset, never reset within an episode (`env_talos_deburring_her.py:253`);
  it is not a streak counter.
- In the sparse reward the `-0.002` sits in the column that
  `w_target_reached` multiplies (lines 502 and 513), so the per-step cost
  is `w_target_reached * 0.002` (0.01 with the default weight 5), and an
  on-target step earns `w_target_reached * 0.998`, not
  `w_target_reached - 0.002`.
- `len_to_init` is computed from `ob["observation"]` (line 303), which is
  the normalised observation when `normalizeObs` is set, while `qC0` stays
  raw; `Env.EnvTalosDeburringHer.Step` states it that way.
- In `step` the goal distance is taken between the observation's goals
  (line 307), which are normalised (one sixth of metres) when
  `normalizeObs` is set, and compared with `thresholdSuccess` in those
  units; `reset` reports the raw distance (line 214).
- `np.sum(d.T * mat_dt_init * d)` multiplies elementwise with broadcasting
  rather than forming a quadratic form; the model computes that double sum
  and proves it equal to `sum_j W_jj d_j^2` because `mat_dt_init` is
  diagonal.

## Model

| member | source | states |
|---|---|---|
| `Normalization.FromLimits` | gym_talos/envs/env_talos_deburring_her.py:424-425 | midpoint and width per axis; usable (no zero width) exactly when no lower limit equals its upper limit; a non-degenerate range has its midpoint strictly inside and a positive width |
| `Normalization.Apply` | gym_talos/envs/env_talos_deburring_her.py:450-472 | each normalised coordinate `y_i` is the value with `y_i * diff_i + avg_i = x_i`, so it denormalises back to the raw coordinate |
| `Normalization.DenormalizeApply` | gym_talos/envs/env_talos_deburring_her.py:461 | normalisation is undone by `y * diff + avg`: no information is lost |
| `Normalization.ApplyDenormalize` | gym_talos/envs/env_talos_deburring_her.py:461 | normalising `y * diff + avg` gives back `y`: the normaliser is onto |
| `Normalization.UnitRange` | gym_talos/envs/env_talos_deburring_her.py:424-425 | on one axis with `l < u`, `l <= x <= u` iff the normalised value is in `[-1/2, 1/2]` |
| `Normalization.NormalizedBox` | gym_talos/envs/env_talos_deburring_her.py:424-425 | a vector lies in the limit box iff its normalisation lies in `[-1/2, 1/2]` on every axis |
| `Normalization.GoalNormalizer` | gym_talos/envs/env_talos_deburring_her.py:427-439 | goal and target normalisers are one and the same, usable, over 3 axes |
| `Normalization.GoalNormalizesToSixth` | gym_talos/envs/env_talos_deburring_her.py:450 | with the ±3 box every goal normalises to `g / 6` |
| `Normalization.ObsNormalizer` | gym_talos/envs/env_talos_deburring_her.py:408-425 | one coordinate per position and per velocity; position `i` has the midpoint and width of `[lower_i, upper_i]`, velocity `j` is centred (midpoint 0) with width `2 velocityLimit_j` |
| `Normalization.ObsNormalizerWellFormed` | gym_talos/envs/env_talos_deburring_her.py:408-425 | the observation normaliser is usable iff no joint position range is empty and no velocity limit is zero |
| `Normalization.VelocityNormalizesByTwiceLimit` | gym_talos/envs/env_talos_deburring_her.py:413-425 | the velocity part is centred: velocity `v_j` normalises to `v_j / (2 velocityLimit_j)` |
| `Actions.TorqueScale` | gym_talos/envs/env_talos_deburring_her.py:149 | the scale of joint `i` is `torqueScaleCoeff * effortLimit_i`; with the default coefficient 1 it is the effort limit itself |
| `Actions.ScaleAction` | gym_talos/envs/env_talos_deburring_her.py:406 | torque `i` is `torqueScale_i * action_i`, so its magnitude is the scale's magnitude times the action's |
| `Actions.TorqueWithinEffortLimit` | gym_talos/envs/env_talos_deburring_her.py:149 | an action in `[-1, 1]^n` gives `abs(torque_i) <= torqueScaleCoeff * effortLimit_i`, with equality at full scale |
| `Conditions.TruncateToInt` | gym_talos/envs/env_talos_deburring_her.py:140 | Python `int()` truncates toward zero: the result is within one of the real, on its side of zero |
| `Conditions.MaxStep` | gym_talos/envs/env_talos_deburring_her.py:140-142 | the budget is the largest whole number of control ticks (`dt * numSimulationSteps`) that fit in `maxTime` |
| `Conditions.HundredStepBudget` | gym_talos/envs/env_talos_deburring_her.py:140-142 | one second at 1 ms and 10 sub-ticks gives a budget of 100 steps |
| `Conditions.CheckTermination` | gym_talos/envs/env_talos_deburring_her.py:344 | terminated iff `timer >= maxStep` or `on_target > 30` |
| `Conditions.CheckSuccess` | gym_talos/envs/env_talos_deburring_her.py:383-395 | whenever success holds, termination holds too, whatever the timer and budget |
| `Conditions.Count` | gym_talos/envs/env_talos_deburring_her.py:253 | the on-target count of a history never exceeds the number of steps |
| `Conditions.CountMonotone` | gym_talos/envs/env_talos_deburring_her.py:253 | the on-target count never decreases along an episode |
| `Conditions.SuccessNeedsMoreThanSuccessCountSteps` | gym_talos/envs/env_talos_deburring_her.py:253 | success needs more than 30 steps since the reset |
| `Conditions.TerminatesExactlyAtBudget` | gym_talos/envs/env_talos_deburring_her.py:344 | with at most 30 on-target steps, the k-th step terminates iff `k >= maxStep` |
| `Conditions.AnyBelow` | gym_talos/envs/env_talos_deburring_her.py:365 | `(a < b).any()` holds iff some index has `a_i < b_i` |
| `Conditions.Positions` | gym_talos/envs/env_talos_deburring_her.py:369-375 | `x[:nq]`: the first `nq` coordinates of the state, unchanged |
| `Conditions.Velocities` | gym_talos/envs/env_talos_deburring_her.py:376-379 | `x[-nv:]`: the last `nv` coordinates, exactly those that follow the positions, so positions and velocities together give back the state |
| `Conditions.BalanceLost` | gym_talos/envs/env_talos_deburring_her.py:365-367 | iff some CoM axis is below `lowerLimitPos` or above `upperLimitPos` |
| `Conditions.PositionOutOfRange` | gym_talos/envs/env_talos_deburring_her.py:369-375 | iff some `q_i > limitPosScale * upper_i` or `q_i < limitPosScale * lower_i` |
| `Conditions.SpeedOutOfRange` | gym_talos/envs/env_talos_deburring_her.py:376-379 | iff some velocity has `abs(v_j) > limitVelScale * velocityLimit_j` |
| `Conditions.CheckTruncation` | gym_talos/envs/env_talos_deburring_her.py:346-381 | truncated iff the CoM left the balance box, or a joint left its scaled position range, or a joint exceeds its scaled speed; nothing else enters |
| `RestPose.RestPoseWeights` | gym_talos/envs/env_talos_deburring_her.py:53-58 | fails iff some named joint has no index numpy can use; otherwise entry `j` is the weight of the last named joint at slot `j` and 0 without `w_joints_to_init` |
| `RestPose.UnnamedJointHasZeroWeight` | gym_talos/envs/env_talos_deburring_her.py:54-57 | a joint no name points at keeps weight 0 |
| `RestPose.NamedJointHasItsWeight` | gym_talos/envs/env_talos_deburring_her.py:55-57 | with distinct slots, each named joint's slot carries exactly its weight |
| `RestPose.RestPoseCost` | gym_talos/envs/env_talos_deburring_her.py:302-306 | the broadcast sum `np.sum(d.T * mat_dt_init * d)` equals `sum_j W_jj (qC0_j - q_j)^2` |
| `RestPose.RestPoseCostNonNegative` | gym_talos/envs/env_talos_deburring_her.py:302-306 | with non-negative weights the rest-pose cost is `>= 0` |
| `RestPose.RestPoseCostIgnoresUnweightedJoints` | gym_talos/envs/env_talos_deburring_her.py:302-306 | joints with weight 0 do not affect the cost |
| `Reward.DenseRowReward` | gym_talos/envs/env_talos_deburring_her.py:526-548 | dense reward = `-w_control_reg tor - len_to_init + w_penalization_truncation [not truncated] - w_target_pos dst` |
| `Reward.SparseRowReward` | gym_talos/envs/env_talos_deburring_her.py:492-517 | sparse reward = `-w_control_reg tor + w_target_reached [dst < threshold] - w_target_reached 0.002` |
| `Reward.SparseIgnoresRestPoseAndAlive` | gym_talos/envs/env_talos_deburring_her.py:493-505 | the sparse reward does not depend on the rest-pose cost or the truncation flag |
| `Reward.DenseAliveBonus` | gym_talos/envs/env_talos_deburring_her.py:311-313 | not being truncated is worth exactly `w_penalization_truncation` in the dense reward |
| `Reward.DenseRewardMonotoneInDistance` | gym_talos/envs/env_talos_deburring_her.py:535 | with `w_target_pos >= 0`, a smaller goal distance never lowers the dense reward |
| `Reward.SparseZeroTorqueRewards` | gym_talos/envs/env_talos_deburring_her.py:502-513 | at zero torque a sparse step earns `w (1 - 0.002)` on target and `-w 0.002` off target (4.99 and -0.01 for `w = 5`) |
| `Reward.ComputeRewardDense` | gym_talos/envs/env_talos_deburring_her.py:519-548 | a batch of n rows yields n rewards, row i the dense reward of transition i alone |
| `Reward.ComputeRewardSparse` | gym_talos/envs/env_talos_deburring_her.py:474-517 | a batch of n rows yields n rewards, row i the sparse reward of transition i alone |
| `Reward.ComputeReward` | gym_talos/envs/env_talos_deburring_her.py:24-27 | dispatches on the reward type chosen at construction, row by row |
| `Reward.FillInfoMatrix` | gym_talos/envs/env_talos_deburring_her.py:506-509 | a fresh n x 3 matrix whose row i holds `param_rew` of transition i |
| `Env.LoadParameters` | gym_talos/envs/env_talos_deburring_her.py:70-128 | the required keys (time step, sub-steps, `normalizeObs`, `maxTime` and the three dense weights) are copied; each optional key that is present is used as given, and each absent one takes its documented default |
| `Env.GetObservation` | gym_talos/envs/env_talos_deburring_her.py:259-282 | raw state and goals, or all three normalised: the state recoverable by denormalising, both goals at one sixth |
| `Env.EnvTalosDeburringHer.constructor` | gym_talos/envs/env_talos_deburring_her.py:11-62 | counters at 0 on a sampled target; budget, normalisers, torque scale and rest-pose weights built once from configuration and model |
| `Env.EnvTalosDeburringHer.Reset` | gym_talos/envs/env_talos_deburring_her.py:190-220 | zeroes `timer` and `on_target`; target is a fresh sample without options, the given one with a `"target"` key, unchanged otherwise; simulator reset on it; raw goal distance reported |
| `Env.EnvTalosDeburringHer.Step` | gym_talos/envs/env_talos_deburring_her.py:222-257 | `timer + 1`; `on_target + 1` iff `dst < threshold`, so `on_target <= timer`; the same torque sent `numSimulationSteps` times; truncation, reward and termination per the pure rules; `is_success` only on final steps, and success implies terminated |
| `Env.EnvTalosDeburringHer.Close` | gym_talos/envs/env_talos_deburring_her.py:183-188 | shuts the simulator down and leaves the episode state alone |

## Left out

- Physics simulation (`TalosDeburringSimulator`): its state is not modelled; its measured state, base pose and rest configuration are inputs, and the commands sent to it (reset, step, end) are recorded as `simulatorCalls`.
- Kinematics (`gym_talos/utils/modelLoader.py`): Pinocchio model building, forward kinematics, frame changes and CoM; the end-effector position, CoM and limit vectors are inputs.
- Target sampling (`TargetGoal`, not part of this model): random; the sampled target is an input of the constructor and of `Reset`.
- Euclidean norm: `np.linalg.norm` needs a square root; it is a function parameter with no property assumed, and nothing in the model depends on it being non-negative.
- Floating point: all values are exact reals; overflow, rounding, `inf` and `nan` are not modelled.
- Zero-width limit ranges: numpy divides to `inf`/`nan` without raising; the constructor requires non-degenerate observation ranges when `normalizeObs` is set.
- `Conditions.MaxStep`: a zero time step or zero `numSimulationSteps` raises `ZeroDivisionError` at construction; both are required to be non-zero.
- `Conditions.Velocities`: for a model with no velocity coordinates Python's `x[-0:]` selects the whole vector; the model assumes the reduced model has velocity coordinates and reads the last `nv` entries.
- `Reward.ComputeRewardDense`, `Reward.ComputeRewardSparse`: `info` must have one entry per goal row; with fewer, numpy leaves the rows of `np.empty` uninitialised, with more it raises.
- `Env.EnvTalosDeburringHer.constructor`: requires every name in `w_joints_to_init` to be a known joint; the `KeyError`/`IndexError` path itself is modelled by `RestPose.RestPoseWeights` returning `None`.
- `Env.EnvTalosDeburringHer.Reset`: a `"target"` option must be a 3-vector; the source does not check it, and numpy would broadcast a one-element target in the distance and normalisation (lines 215, 321 and 472) where the model requires three coordinates.
- `Env.EnvTalosDeburringHer.constructor`, `Conditions.BalanceLost`: `lowerLimitPos` and `upperLimitPos` must have one entry per axis of the centre of mass; numpy would also accept a scalar limit and broadcast it over the axes (lines 365-367), which the model does not.
- An unknown `rewardType` leaves `compute_reward` unset; the reward type is a two-valued datatype.
- `gym.spaces` construction (lines 151-181), the `seed` argument of `reset`, `randomInit`, GUI and display: no logic beyond passing values on.
- `w_alive` is read into the configuration but no reward uses it.
- `gym_talos/utils/custom_callbacks.py` and `gym_talos/display.py`: training and display plumbing, not part of this model.
