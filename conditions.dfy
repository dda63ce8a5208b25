/**
 * The end-of-episode rules of the environment: the step budget `maxStep`,
 * termination (`_checkTermination`), success (`_checkSuccess`) and safety
 * truncation (`_checkTruncation`), together with the running count of
 * steps spent on target.
 */
module Conditions {
  import opened Vectors

  /** An episode succeeds once more than this many steps have been on target. */
  const SuccessCount: int := 30

  /** Python's `int(q)` on a real: truncation toward zero. */
  function TruncateToInt(q: real): (r: int)
    ensures q >= 0.0 ==> 0 <= r && r as real <= q < r as real + 1.0
    ensures q < 0.0 ==> r <= 0 && r as real - 1.0 < q <= r as real
  {
    if q >= 0.0 then q.Floor else -((-q).Floor)
  }

  /**
   * `maxStep = int(maxTime / (timeStepSimulation * numSimulationSteps))`:
   * the number of control steps that fit in the episode's time budget.
   */
  function MaxStep(maxTime: real, timeStepSimulation: real, numSimulationSteps: nat): (r: int)
    requires timeStepSimulation != 0.0 && numSimulationSteps > 0
    ensures maxTime >= 0.0 && timeStepSimulation > 0.0 ==>
      var tick := timeStepSimulation * numSimulationSteps as real;
      0 <= r && r as real * tick <= maxTime < (r as real + 1.0) * tick
  {
    var tick := timeStepSimulation * numSimulationSteps as real;
    var q := maxTime / tick;
    var r := TruncateToInt(q);
    assert q * tick == maxTime;
    if tick > 0.0 && maxTime >= 0.0 then
      assert q >= 0.0;
      TickBounds(maxTime, tick, q, r);
      r
    else r
  }

  /** `r` whole ticks fit in `maxTime` and `r + 1` do not, when `r` is the integer part of `maxTime / tick`. */
  lemma TickBounds(maxTime: real, tick: real, q: real, r: int)
    requires tick > 0.0 && q * tick == maxTime
    requires r as real <= q < r as real + 1.0
    ensures r as real * tick <= maxTime < (r as real + 1.0) * tick
  {
    var lo, hi := q - r as real, r as real + 1.0 - q;
    assert lo >= 0.0 && hi > 0.0;
    assert lo * tick >= 0.0 && hi * tick > 0.0;
    assert lo * tick == maxTime - r as real * tick;
    assert hi * tick == (r as real + 1.0) * tick - maxTime;
  }

  /** One second of episode at a millisecond time step and ten sub-ticks per control step is 100 control steps. */
  lemma HundredStepBudget()
    ensures MaxStep(1.0, 0.001, 10) == 100
  {
    assert 1.0 / (0.001 * 10 as real) == 100.0;
  }

  /** `_checkTermination`: out of steps, or on target for more than `SuccessCount` steps. */
  function CheckTermination(timer: int, maxStep: int, onTarget: int): (r: bool)
    ensures r <==> timer >= maxStep || onTarget > SuccessCount
  {
    timer > maxStep - 1 || onTarget > SuccessCount
  }

  /**
   * `_checkSuccess`: on target for more than `SuccessCount` steps. Success
   * is never reported on a step that does not also terminate, whatever the
   * timer and the budget.
   */
  function CheckSuccess(onTarget: int): (r: bool)
    ensures r ==> forall timer, maxStep :: CheckTermination(timer, maxStep, onTarget)
  {
    onTarget > SuccessCount
  }

  /** Number of steps of an episode's history that were on target (the field `on_target`). */
  function Count(hits: seq<bool>): (c: nat)
    ensures c <= |hits|
  {
    if |hits| == 0 then 0
    else Count(hits[..|hits| - 1]) + (if hits[|hits| - 1] then 1 else 0)
  }

  /** The on-target count never decreases as the episode goes on. */
  lemma {:induction false} CountMonotone(hits: seq<bool>, i: nat, j: nat)
    requires i <= j <= |hits|
    ensures Count(hits[..i]) <= Count(hits[..j])
    decreases j
  {
    if i < j {
      assert hits[..j][..j - 1] == hits[..j - 1];
      CountMonotone(hits, i, j - 1);
    }
  }

  /** Success needs more than `SuccessCount` steps since the last reset. */
  lemma SuccessNeedsMoreThanSuccessCountSteps(hits: seq<bool>)
    requires CheckSuccess(Count(hits))
    ensures |hits| > SuccessCount
  {
  }

  /**
   * With at most `SuccessCount` on-target steps, the `k`-th step after a
   * reset terminates exactly when `k` reaches the budget `maxStep`.
   */
  lemma TerminatesExactlyAtBudget(hits: seq<bool>, maxStep: int)
    requires Count(hits) <= SuccessCount
    ensures CheckTermination(|hits|, maxStep, Count(hits)) <==> |hits| >= maxStep
  {
  }

  /** `(a < b).any()` on two arrays of the same shape. */
  function AnyBelow(a: Vec, b: Vec): (r: bool)
    requires |a| == |b|
    ensures r <==> exists i :: 0 <= i < |a| && a[i] < b[i]
  {
    if |a| == 0 then false
    else a[|a| - 1] < b[|b| - 1] || AnyBelow(a[..|a| - 1], b[..|b| - 1])
  }

  /** The limit vectors of the reduced robot model (`rmodel`). */
  datatype ModelLimits = ModelLimits(
    lowerPosition: Vec,
    upperPosition: Vec,
    velocity: Vec,
    effort: Vec)

  predicate ShapedLimits(lim: ModelLimits) {
    |lim.lowerPosition| == |lim.upperPosition| && |lim.effort| == |lim.lowerPosition|
  }

  /** Joint positions `x[:nq]` of a measured state: its first `nq` coordinates, unchanged. */
  function Positions(x: Vec, nq: nat): (q: Vec)
    requires nq <= |x|
    ensures |q| == nq
    ensures forall i :: 0 <= i < nq ==> q[i] == x[i]
  {
    x[..nq]
  }

  /**
   * Joint velocities `x[-nv:]` of a measured state (for `nv > 0`): exactly
   * the coordinates that follow the first `|x| - nv`, so that positions
   * and velocities together give back the state.
   */
  function Velocities(x: Vec, nv: nat): (v: Vec)
    requires nv <= |x|
    ensures |v| == nv
    ensures Positions(x, |x| - nv) + v == x
  {
    assert x[..|x| - nv] + x[|x| - nv..] == x;
    x[|x| - nv..]
  }

  /** One axis of the centre of mass outside its balance interval. */
  predicate AxisOutside(c: real, lower: real, upper: real) {
    c < lower || c > upper
  }

  /** One joint position outside its interval scaled by `scale`. */
  predicate JointOutside(q: real, lower: real, upper: real, scale: real) {
    q > scale * upper || q < scale * lower
  }

  /** One joint speed above its limit scaled by `scale`. */
  predicate JointTooFast(v: real, limit: real, scale: real) {
    Abs(v) > scale * limit
  }

  /** Balance: some axis of the centre of mass is outside `[lowerLimitPos, upperLimitPos]`. */
  function BalanceLost(com: Vec, lowerLimitPos: Vec, upperLimitPos: Vec): (r: bool)
    requires |com| == |lowerLimitPos| == |upperLimitPos|
    ensures r <==> exists i :: 0 <= i < |com| && AxisOutside(com[i], lowerLimitPos[i], upperLimitPos[i])
  {
    AnyBelow(com, lowerLimitPos) || AnyBelow(upperLimitPos, com)
  }

  /** Position limits: some joint position `x[:nq]` is outside its range scaled by `limitPosScale`. */
  function PositionOutOfRange(x: Vec, limitPosScale: real, lim: ModelLimits): (r: bool)
    requires |lim.lowerPosition| == |lim.upperPosition| <= |x|
    ensures r <==> exists i :: 0 <= i < |lim.upperPosition| && JointOutside(x[i], lim.lowerPosition[i], lim.upperPosition[i], limitPosScale)
  {
    var q := Positions(x, |lim.upperPosition|);
    var upper := ScaleBy(limitPosScale, lim.upperPosition);
    var lower := ScaleBy(limitPosScale, lim.lowerPosition);
    assert forall i :: 0 <= i < |q| ==> q[i] == x[i];
    AnyBelow(upper, q) || AnyBelow(q, lower)
  }

  /** Velocity limits: some joint speed in `x[-nv:]` exceeds its limit scaled by `limitVelScale`. */
  function SpeedOutOfRange(x: Vec, limitVelScale: real, lim: ModelLimits): (r: bool)
    requires |lim.velocity| <= |x|
    ensures r <==> exists j :: 0 <= j < |lim.velocity| && JointTooFast(Velocities(x, |lim.velocity|)[j], lim.velocity[j], limitVelScale)
  {
    AnyBelow(ScaleBy(limitVelScale, lim.velocity), AbsAll(Velocities(x, |lim.velocity|)))
  }

  /**
   * `_checkTruncation`: the centre of mass left the balance box, a joint
   * left its scaled position range, or a joint moves faster than its scaled
   * velocity limit. Nothing else enters the decision.
   */
  function CheckTruncation(
    com: Vec, lowerLimitPos: Vec, upperLimitPos: Vec,
    limitPosScale: real, limitVelScale: real, lim: ModelLimits, x: Vec): (r: bool)
    requires |com| == |lowerLimitPos| == |upperLimitPos|
    requires |lim.lowerPosition| == |lim.upperPosition|
    requires |x| == |lim.upperPosition| + |lim.velocity|
    ensures r <==>
      (exists i :: 0 <= i < |com| && AxisOutside(com[i], lowerLimitPos[i], upperLimitPos[i])) ||
      (exists i :: 0 <= i < |lim.upperPosition| &&
        JointOutside(x[i], lim.lowerPosition[i], lim.upperPosition[i], limitPosScale)) ||
      (exists j :: 0 <= j < |lim.velocity| &&
        JointTooFast(x[|lim.upperPosition| + j], lim.velocity[j], limitVelScale))
  {
    var v := Velocities(x, |lim.velocity|);
    assert forall j :: 0 <= j < |v| ==> v[j] == x[|lim.upperPosition| + j];
    var limits := PositionOutOfRange(x, limitPosScale, lim) || SpeedOutOfRange(x, limitVelScale, lim);
    limits || BalanceLost(com, lowerLimitPos, upperLimitPos)
  }
}
