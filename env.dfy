/**
 * The goal-conditioned episode controller `EnvTalosDeburringHer`. It owns
 * the episode state (`timer`, `on_target`, the current target) and, on
 * every step, scales the action to torques, hands them to the simulator,
 * builds the observation, and evaluates truncation, reward, termination and
 * success.
 *
 * The simulator, the kinematics model and the target sampler are outside
 * the model: what they return (measured state, end-effector position,
 * centre of mass, sampled target) enters as parameters, and the commands
 * sent to the simulator are recorded in `simulatorCalls`. The Euclidean
 * norm enters as the parameter `norm`.
 */
module Env {
  import opened Wrappers
  import opened Vectors
  import opened Normalization
  import opened Actions
  import opened Conditions
  import opened Reward
  import opened RestPose

  /** The entries of the environment's parameter dictionary; optional keys are `Option`s. */
  datatype EnvParams = EnvParams(
    timeStepSimulation: real,
    numSimulationSteps: nat,
    normalizeObs: bool,
    maxTime: real,
    wTargetPos: real,
    wControlReg: real,
    wPenalizationTruncation: real,
    randomInit: Option<bool>,
    limitPosScale: Option<real>,
    limitVelScale: Option<real>,
    torqueScaleCoeff: Option<real>,
    lowerLimitPos: Option<Vec>,
    upperLimitPos: Option<Vec>,
    thresholdSuccess: Option<real>,
    wTargetReached: Option<real>,
    wJointsToInit: Option<seq<(string, real)>>,
    rewardType: Option<RewardType>,
    wAlive: Option<real>)

  /** The resolved configuration, read-only after construction. */
  datatype Config = Config(
    timeStepSimulation: real,
    numSimulationSteps: nat,
    normalizeObs: bool,
    maxTime: real,
    weights: Weights,
    randomInit: bool,
    limitPosScale: real,
    limitVelScale: real,
    torqueScaleCoeff: real,
    lowerLimitPos: Vec,
    upperLimitPos: Vec,
    thresholdSuccess: real,
    jointsToInit: Option<seq<(string, real)>>,
    rewardType: RewardType,
    weightAlive: real)

  /**
   * `_init_parameters`: required keys are copied, an optional key that is
   * present is used as given, and one that is absent takes its documented
   * default.
   */
  function LoadParameters(p: EnvParams): (c: Config)
    ensures c.timeStepSimulation == p.timeStepSimulation && c.numSimulationSteps == p.numSimulationSteps
    ensures c.normalizeObs == p.normalizeObs && c.maxTime == p.maxTime
    ensures c.weights.target == p.wTargetPos && c.weights.control == p.wControlReg
    ensures c.weights.truncation == p.wPenalizationTruncation
    ensures p.randomInit.Some? ==> c.randomInit == p.randomInit.value
    ensures p.limitPosScale.Some? ==> c.limitPosScale == p.limitPosScale.value
    ensures p.limitVelScale.Some? ==> c.limitVelScale == p.limitVelScale.value
    ensures p.torqueScaleCoeff.Some? ==> c.torqueScaleCoeff == p.torqueScaleCoeff.value
    ensures p.lowerLimitPos.Some? ==> c.lowerLimitPos == p.lowerLimitPos.value
    ensures p.upperLimitPos.Some? ==> c.upperLimitPos == p.upperLimitPos.value
    ensures p.thresholdSuccess.Some? ==> c.thresholdSuccess == p.thresholdSuccess.value
    ensures p.wTargetReached.Some? ==> c.weights.targetReached == p.wTargetReached.value
    ensures p.wJointsToInit.Some? ==> c.jointsToInit == p.wJointsToInit
    ensures p.rewardType.Some? ==> c.rewardType == p.rewardType.value
    ensures p.wAlive.Some? ==> c.weightAlive == p.wAlive.value
    ensures p.randomInit.None? ==> !c.randomInit
    ensures p.limitPosScale.None? ==> c.limitPosScale == 10.0
    ensures p.limitVelScale.None? ==> c.limitVelScale == 30.0
    ensures p.torqueScaleCoeff.None? ==> c.torqueScaleCoeff == 1.0
    ensures p.lowerLimitPos.None? ==> c.lowerLimitPos == [-0.5, -0.5, 0.9]
    ensures p.upperLimitPos.None? ==> c.upperLimitPos == [0.5, 0.5, 1.5]
    ensures p.thresholdSuccess.None? ==> c.thresholdSuccess == 0.05
    ensures p.wTargetReached.None? ==> c.weights.targetReached == 5.0
    ensures p.wJointsToInit.None? ==> c.jointsToInit.None?
    ensures p.rewardType.None? ==> c.rewardType == Dense
    ensures p.wAlive.None? ==> c.weightAlive == 1.0
  {
    Config(
      p.timeStepSimulation,
      p.numSimulationSteps,
      p.normalizeObs,
      p.maxTime,
      Weights(p.wControlReg, p.wTargetPos, p.wPenalizationTruncation, p.wTargetReached.GetOr(5.0)),
      p.randomInit.GetOr(false),
      p.limitPosScale.GetOr(10.0),
      p.limitVelScale.GetOr(30.0),
      p.torqueScaleCoeff.GetOr(1.0),
      p.lowerLimitPos.GetOr([-0.5, -0.5, 0.9]),
      p.upperLimitPos.GetOr([0.5, 0.5, 1.5]),
      p.thresholdSuccess.GetOr(0.05),
      p.wJointsToInit,
      p.rewardType.GetOr(Dense),
      p.wAlive.GetOr(1.0))
  }

  /** The goal-conditioned observation dictionary. */
  datatype Observation = Observation(observation: Vec, achievedGoal: Vec, desiredGoal: Vec)

  /**
   * `_getObservation`: the measured state, the end-effector position and the
   * target, all three normalised or all three raw.
   */
  function GetObservation(normalizeObs: bool, obsNormalizer: Normalizer, x: Vec, eePos: Vec, target: Vec): (ob: Observation)
    requires normalizeObs ==> WellFormed(obsNormalizer) && |x| == |obsNormalizer.avg| && |eePos| == 3 && |target| == 3
    ensures |ob.observation| == |x| && |ob.achievedGoal| == |eePos| && |ob.desiredGoal| == |target|
    ensures !normalizeObs ==> ob == Observation(x, eePos, target)
    ensures normalizeObs ==>
      Denormalize(obsNormalizer, ob.observation) == x &&
      ob.achievedGoal == ScaleBy(1.0 / 6.0, eePos) && ob.desiredGoal == ScaleBy(1.0 / 6.0, target)
  {
    if normalizeObs then
      DenormalizeApply(obsNormalizer, x);
      GoalNormalizesToSixth(eePos);
      GoalNormalizesToSixth(target);
      Observation(Apply(obsNormalizer, x), Apply(GoalNormalizer(), eePos), Apply(GoalNormalizer(), target))
    else
      Observation(x, eePos, target)
  }

  /** The `options` dictionary of `reset`: it may or may not carry a `"target"` key. */
  datatype ResetOptions = ResetOptions(target: Option<Vec>)

  /** The info record returned by `reset`. */
  datatype ResetInfo = ResetInfo(dst: real, tor: real, init: real)

  /** The info record returned by `step`; `isSuccess` is present only on a final step. */
  datatype StepInfo = StepInfo(
    paramRew: Features,
    tor: real,
    init: real,
    dst: real,
    onTarget: bool,
    isSuccess: Option<bool>)

  /** A call the environment makes into the simulator. */
  datatype SimCommand = ResetTo(target: Vec) | ApplyTorques(torques: Vec) | End

  /** `n` copies of one simulator command. */
  function Repeat(cmd: SimCommand, n: nat): (s: seq<SimCommand>)
    ensures |s| == n && forall k :: 0 <= k < n ==> s[k] == cmd
  {
    seq(n, _ => cmd)
  }

  class EnvTalosDeburringHer {
    const config: Config
    /** Limits of the reduced robot model. */
    const limits: ModelLimits
    /** The simulator's rest configuration `qC0`. */
    const qC0: Vec
    const maxStep: int
    const obsNormalizer: Normalizer
    const torqueScale: Vec
    /** The diagonal of `mat_dt_init`. */
    const restWeights: Vec

    var timer: int
    var onTarget: int
    var target: Vec
    /** Every command sent to the simulator since construction, in order. */
    var simulatorCalls: seq<SimCommand>
    /** Whether each step since the last reset was on target. */
    ghost var hits: seq<bool>

    /** Number of controlled joints (`rmodel.nq`). */
    function Nq(): nat
      reads this
    {
      |limits.upperPosition|
    }

    /** Length of a measured state: positions, then velocities. */
    function StateLength(): nat
      reads this
    {
      |limits.upperPosition| + |limits.velocity|
    }

    ghost predicate Valid()
      reads this
    {
      ShapedLimits(limits) &&
      |qC0| == Nq() && |restWeights| == Nq() && |torqueScale| == Nq() &&
      |config.lowerLimitPos| == |config.upperLimitPos| &&
      (config.normalizeObs ==> WellFormed(obsNormalizer) && |obsNormalizer.avg| == StateLength()) &&
      |target| == 3 &&
      timer == |hits| && onTarget == Count(hits)
    }

    /**
     * `__init__`: resolves the derived constants once (step budget,
     * normalisers, torque scale, rest-pose weights) and starts an episode
     * on a sampled target.
     */
    constructor (config: Config, limits: ModelLimits, qC0: Vec, jointIndex: map<string, int>, sampledTarget: Vec)
      requires ShapedLimits(limits) && |qC0| == |limits.upperPosition|
      requires config.timeStepSimulation != 0.0 && config.numSimulationSteps > 0
      requires |config.lowerLimitPos| == |config.upperLimitPos|
      requires config.normalizeObs ==>
        (forall i :: 0 <= i < |limits.lowerPosition| ==> limits.lowerPosition[i] != limits.upperPosition[i]) &&
        (forall j :: 0 <= j < |limits.velocity| ==> limits.velocity[j] != 0.0)
      requires config.jointsToInit.Some? ==> AllKnown(config.jointsToInit.value, jointIndex, |limits.upperPosition|)
      requires |sampledTarget| == 3
      ensures Valid()
      ensures this.config == config && this.limits == limits && this.qC0 == qC0
      ensures timer == 0 && onTarget == 0 && hits == [] && target == sampledTarget && simulatorCalls == []
      ensures maxStep == MaxStep(config.maxTime, config.timeStepSimulation, config.numSimulationSteps)
      ensures obsNormalizer == ObsNormalizer(limits.lowerPosition, limits.upperPosition, limits.velocity)
      ensures torqueScale == TorqueScale(config.torqueScaleCoeff, limits.effort)
      ensures config.jointsToInit.None? ==> forall j :: 0 <= j < |restWeights| ==> restWeights[j] == 0.0
      ensures config.jointsToInit.Some? ==> forall j :: 0 <= j < |restWeights| ==>
        restWeights[j] == LastWeight(config.jointsToInit.value, jointIndex, |limits.upperPosition|, j)
    {
      var nq := |limits.upperPosition|;
      var weights := RestPoseWeights(nq, jointIndex, config.jointsToInit);
      this.config := config;
      this.limits := limits;
      this.qC0 := qC0;
      restWeights := weights.value;
      maxStep := MaxStep(config.maxTime, config.timeStepSimulation, config.numSimulationSteps);
      obsNormalizer := ObsNormalizer(limits.lowerPosition, limits.upperPosition, limits.velocity);
      torqueScale := TorqueScale(config.torqueScaleCoeff, limits.effort);
      timer := 0;
      onTarget := 0;
      target := sampledTarget;
      simulatorCalls := [];
      hits := [];
      new;
      ObsNormalizerWellFormed(limits.lowerPosition, limits.upperPosition, limits.velocity);
    }

    /**
     * `reset`: zeroes both counters, resolves the target (a fresh sample
     * without options, the given one with a `"target"` key, the previous
     * one otherwise), resets the simulator on it and observes.
     */
    method Reset(options: Option<ResetOptions>, sampledTarget: Vec, xMeasured: Vec, eePos: Vec, norm: Vec -> real)
      returns (ob: Observation, info: ResetInfo)
      requires Valid()
      requires |sampledTarget| == 3 && |eePos| == 3 && |xMeasured| == StateLength()
      requires options.Some? && options.value.target.Some? ==> |options.value.target.value| == 3
      modifies this
      ensures Valid()
      ensures timer == 0 && onTarget == 0 && hits == []
      ensures options.None? ==> target == sampledTarget
      ensures options.Some? && options.value.target.Some? ==> target == options.value.target.value
      ensures options.Some? && options.value.target.None? ==> target == old(target)
      ensures simulatorCalls == old(simulatorCalls) + [ResetTo(target)]
      ensures ob == GetObservation(config.normalizeObs, obsNormalizer, xMeasured, eePos, target)
      ensures info == ResetInfo(norm(Sub(eePos, target)), 0.0, 0.0)
    {
      timer := 0;
      onTarget := 0;
      hits := [];
      match options {
        case None =>
          target := sampledTarget;
        case Some(opts) =>
          if opts.target.Some? {
            target := opts.target.value;
          }
      }
      simulatorCalls := simulatorCalls + [ResetTo(target)];
      info := ResetInfo(norm(Sub(eePos, target)), 0.0, 0.0);
      ob := GetObservation(config.normalizeObs, obsNormalizer, xMeasured, eePos, target);
    }

    /**
     * `step`: one control step. The counter `timer` grows by one, `on_target`
     * by one exactly when the goal distance is below the threshold, and the
     * flags and reward follow the pure rules of the `Conditions` and
     * `Reward` modules.
     */
    method Step(action: Vec, xMeasured: Vec, eePos: Vec, com: Vec, norm: Vec -> real)
      returns (ob: Observation, reward: real, terminated: bool, truncated: bool, info: StepInfo)
      requires Valid()
      requires |action| == |torqueScale|
      requires |xMeasured| == StateLength() && |eePos| == 3 && |com| == |config.lowerLimitPos|
      modifies this
      ensures Valid()
      ensures timer == old(timer) + 1 && target == old(target)
      ensures hits == old(hits) + [info.onTarget]
      ensures onTarget == old(onTarget) + (if info.onTarget then 1 else 0)
      ensures 0 <= onTarget <= timer
      ensures simulatorCalls ==
        old(simulatorCalls) + Repeat(ApplyTorques(ScaleAction(torqueScale, action)), config.numSimulationSteps)
      ensures ob == GetObservation(config.normalizeObs, obsNormalizer, xMeasured, eePos, target)
      ensures info.dst == norm(Sub(ob.achievedGoal, ob.desiredGoal))
      ensures info.onTarget <==> info.dst < config.thresholdSuccess
      ensures info.paramRew == Features(
        norm(ScaleAction(torqueScale, action)),
        RestPoseCost(qC0, Positions(ob.observation, Nq()), restWeights),
        !truncated)
      ensures info.tor == info.paramRew.torqueNorm && info.init == info.paramRew.restPoseCost
      ensures truncated == CheckTruncation(com, config.lowerLimitPos, config.upperLimitPos,
                                           config.limitPosScale, config.limitVelScale, limits, xMeasured)
      ensures terminated <==> timer >= maxStep || onTarget > SuccessCount
      ensures info.isSuccess == if terminated || truncated then Some(onTarget > SuccessCount) else None
      ensures info.isSuccess == Some(true) ==> terminated
      ensures reward == RowReward(config.rewardType, config.weights, config.thresholdSuccess, info.paramRew, info.dst)
    {
      timer := timer + 1;
      var torques := ScaleAction(torqueScale, action);
      var sent := 0;
      while sent < config.numSimulationSteps
        invariant 0 <= sent <= config.numSimulationSteps
        invariant simulatorCalls == old(simulatorCalls) + Repeat(ApplyTorques(torques), sent)
        modifies this`simulatorCalls
      {
        simulatorCalls := simulatorCalls + [ApplyTorques(torques)];
        sent := sent + 1;
        assert Repeat(ApplyTorques(torques), sent) == Repeat(ApplyTorques(torques), sent - 1) + [ApplyTorques(torques)];
      }
      ob := GetObservation(config.normalizeObs, obsNormalizer, xMeasured, eePos, target);
      truncated := CheckTruncation(com, config.lowerLimitPos, config.upperLimitPos,
                                   config.limitPosScale, config.limitVelScale, limits, xMeasured);
      // _reward
      var lenToInit := RestPoseCost(qC0, Positions(ob.observation, Nq()), restWeights);
      var dst := norm(Sub(ob.achievedGoal, ob.desiredGoal));
      var features := Features(norm(torques), lenToInit, !truncated);
      var rewards := ComputeReward(config.rewardType, config.weights, config.thresholdSuccess,
                                   [ob.achievedGoal], [ob.desiredGoal], [features], norm);
      reward := rewards[0];
      var isOnTarget := dst < config.thresholdSuccess;
      // back in step
      onTarget := onTarget + if isOnTarget then 1 else 0;
      hits := hits + [isOnTarget];
      terminated := CheckTermination(timer, maxStep, onTarget);
      var success := if terminated || truncated then Some(CheckSuccess(onTarget)) else None;
      info := StepInfo(features, features.torqueNorm, lenToInit, dst, isOnTarget, success);
    }

    /** `close`: shuts the simulator down. */
    method Close()
      modifies this
      ensures simulatorCalls == old(simulatorCalls) + [End]
      ensures timer == old(timer) && onTarget == old(onTarget) && target == old(target) && hits == old(hits)
    {
      simulatorCalls := simulatorCalls + [End];
    }
  }
}
