/**
 * The affine normalisers of the environment: a raw vector `x` is mapped to
 * `(x - avg) / diff`, where `avg = (upper + lower) / 2` and
 * `diff = upper - lower` are computed once from a pair of limit vectors.
 */
module Normalization {
  import opened Vectors

  /** The pair (avgX, diffX) that the environment stores for one normaliser. */
  datatype Normalizer = Normalizer(avg: Vec, diff: Vec)

  /** Usable normaliser: one midpoint per range and no zero-width range. */
  predicate WellFormed(n: Normalizer) {
    |n.avg| == |n.diff| && forall i :: 0 <= i < |n.diff| ==> n.diff[i] != 0.0
  }

  /** Builds the midpoints and widths of the box `[lower, upper]`. */
  function FromLimits(lower: Vec, upper: Vec): (n: Normalizer)
    requires |lower| == |upper|
    ensures |n.avg| == |n.diff| == |lower|
    ensures forall i :: 0 <= i < |lower| ==> n.diff[i] == upper[i] - lower[i]
    ensures forall i :: 0 <= i < |lower| ==> n.avg[i] == (upper[i] + lower[i]) / 2.0
    ensures WellFormed(n) <==> forall i :: 0 <= i < |lower| ==> lower[i] != upper[i]
    ensures forall i :: 0 <= i < |lower| && lower[i] < upper[i] ==>
      lower[i] < n.avg[i] < upper[i] && 0.0 < n.diff[i]
  {
    Normalizer(
      seq(|lower|, i requires 0 <= i < |lower| => (upper[i] + lower[i]) / 2.0),
      seq(|lower|, i requires 0 <= i < |lower| => upper[i] - lower[i]))
  }

  /** The normalisation itself, `(x - avg) / diff` componentwise. */
  function Apply(n: Normalizer, x: Vec): (y: Vec)
    requires WellFormed(n) && |x| == |n.avg|
    ensures |y| == |x|
    ensures forall i :: 0 <= i < |x| ==> y[i] * n.diff[i] + n.avg[i] == x[i]
  {
    seq(|x|, i requires 0 <= i < |x| => (x[i] - n.avg[i]) / n.diff[i])
  }

  /** The inverse map `y * diff + avg`; the environment never needs it. */
  function Denormalize(n: Normalizer, y: Vec): (x: Vec)
    requires |n.avg| == |n.diff| && |y| == |n.avg|
    ensures |x| == |y|
  {
    seq(|y|, i requires 0 <= i < |y| => y[i] * n.diff[i] + n.avg[i])
  }

  lemma DenormalizeApply(n: Normalizer, x: Vec)
    requires WellFormed(n) && |x| == |n.avg|
    ensures Denormalize(n, Apply(n, x)) == x
  {
    var y := Apply(n, x);
    forall i | 0 <= i < |x|
      ensures Denormalize(n, y)[i] == x[i]
    {
      assert y[i] * n.diff[i] == x[i] - n.avg[i];
    }
  }

  lemma ApplyDenormalize(n: Normalizer, y: Vec)
    requires WellFormed(n) && |y| == |n.avg|
    ensures Apply(n, Denormalize(n, y)) == y
  {
    var x := Denormalize(n, y);
    forall i | 0 <= i < |y|
      ensures Apply(n, x)[i] == y[i]
    {
      assert x[i] - n.avg[i] == y[i] * n.diff[i];
    }
  }

  /** One coordinate of a non-degenerate box: `l <= x <= u` iff its image lies in `[-1/2, 1/2]`. */
  lemma UnitRange(l: real, u: real, x: real)
    requires l < u
    ensures l <= x <= u <==> -0.5 <= (x - (u + l) / 2.0) / (u - l) <= 0.5
  {
    var d := u - l;
    var y := (x - (u + l) / 2.0) / d;
    assert y * d == x - (u + l) / 2.0;
    if l <= x <= u {
      assert -0.5 * d <= y * d <= 0.5 * d;
    } else if x < l {
      assert y * d < -0.5 * d;
    } else {
      assert y * d > 0.5 * d;
    }
  }

  /**
   * With every range non-degenerate, a vector lies in the box `[lower, upper]`
   * exactly when its normalisation lies in the box `[-1/2, 1/2]`.
   */
  lemma NormalizedBox(lower: Vec, upper: Vec, x: Vec)
    requires |lower| == |upper| == |x|
    requires forall i :: 0 <= i < |lower| ==> lower[i] < upper[i]
    ensures WellFormed(FromLimits(lower, upper))
    ensures (forall i :: 0 <= i < |x| ==> lower[i] <= x[i] <= upper[i]) <==>
            (forall i :: 0 <= i < |x| ==> -0.5 <= Apply(FromLimits(lower, upper), x)[i] <= 0.5)
  {
    var n := FromLimits(lower, upper);
    forall i | 0 <= i < |x|
      ensures lower[i] <= x[i] <= upper[i] <==> -0.5 <= Apply(n, x)[i] <= 0.5
    {
      UnitRange(lower[i], upper[i], x[i]);
    }
  }

  /** Bound of the goal and target box, in metres: each axis spans `[-3, 3]`. */
  const GoalBound: real := 3.0

  /** `_init_goalNormalizer` and `_init_targetNormalizer`: both build this same normaliser. */
  function GoalNormalizer(): (n: Normalizer)
    ensures WellFormed(n) && |n.avg| == 3
  {
    FromLimits([-GoalBound, -GoalBound, -GoalBound], [GoalBound, GoalBound, GoalBound])
  }

  /** A goal normalises to one sixth of itself: the box is centred and six metres wide. */
  lemma GoalNormalizesToSixth(g: Vec)
    requires |g| == 3
    ensures Apply(GoalNormalizer(), g) == ScaleBy(1.0 / 6.0, g)
  {
    var n := GoalNormalizer();
    forall i | 0 <= i < 3
      ensures Apply(n, g)[i] == ScaleBy(1.0 / 6.0, g)[i]
    {
      assert n.avg[i] == 0.0 && n.diff[i] == 6.0;
    }
  }

  /** Lower corner of the observation box: position limits, then `-velocityLimit`. */
  function ObsLower(lowerPosition: Vec, velocityLimit: Vec): Vec {
    lowerPosition + ScaleBy(-1.0, velocityLimit)
  }

  /** Upper corner of the observation box: position limits, then `velocityLimit`. */
  function ObsUpper(upperPosition: Vec, velocityLimit: Vec): Vec {
    upperPosition + velocityLimit
  }

  /**
   * `_init_obsNormalizer`: positions are bounded by the model's position
   * limits, velocities by `[-velocityLimit, velocityLimit]`.
   */
  function ObsNormalizer(lowerPosition: Vec, upperPosition: Vec, velocityLimit: Vec): (n: Normalizer)
    requires |lowerPosition| == |upperPosition|
    ensures |n.avg| == |n.diff| == |lowerPosition| + |velocityLimit|
    ensures forall i :: 0 <= i < |lowerPosition| ==> PositionAxis(n, lowerPosition, upperPosition, i)
    ensures forall j :: 0 <= j < |velocityLimit| ==> VelocityAxis(n, |lowerPosition|, velocityLimit, j)
  {
    var n := FromLimits(ObsLower(lowerPosition, velocityLimit), ObsUpper(upperPosition, velocityLimit));
    assert forall i :: 0 <= i < |lowerPosition| ==> PositionAxis(n, lowerPosition, upperPosition, i) by {
      forall i | 0 <= i < |lowerPosition| ensures PositionAxis(n, lowerPosition, upperPosition, i) {
        ObsBoxAt(lowerPosition, upperPosition, velocityLimit, i);
      }
    }
    assert forall j :: 0 <= j < |velocityLimit| ==> VelocityAxis(n, |lowerPosition|, velocityLimit, j) by {
      forall j | 0 <= j < |velocityLimit| ensures VelocityAxis(n, |lowerPosition|, velocityLimit, j) {
        ObsBoxAt(lowerPosition, upperPosition, velocityLimit, |lowerPosition| + j);
      }
    }
    n
  }

  /** Coordinate `i` of `n` normalises the position range `[lower[i], upper[i]]`. */
  predicate PositionAxis(n: Normalizer, lower: Vec, upper: Vec, i: nat)
    requires i < |lower| == |upper| && i < |n.avg| == |n.diff|
  {
    n.avg[i] == (upper[i] + lower[i]) / 2.0 && n.diff[i] == upper[i] - lower[i]
  }

  /** Coordinate `m + j` of `n` normalises the centred velocity range `[-limit[j], limit[j]]`. */
  predicate VelocityAxis(n: Normalizer, m: nat, limit: Vec, j: nat)
    requires j < |limit| && m + j < |n.avg| == |n.diff|
  {
    n.avg[m + j] == 0.0 && n.diff[m + j] == 2.0 * limit[j]
  }

  /** Width and midpoint of coordinate `k` of the observation box. */
  lemma ObsBoxAt(lowerPosition: Vec, upperPosition: Vec, velocityLimit: Vec, k: nat)
    requires |lowerPosition| == |upperPosition|
    requires k < |lowerPosition| + |velocityLimit|
    ensures var n := FromLimits(ObsLower(lowerPosition, velocityLimit), ObsUpper(upperPosition, velocityLimit));
      var m := |lowerPosition|;
      if k < m then PositionAxis(n, lowerPosition, upperPosition, k)
      else VelocityAxis(n, m, velocityLimit, k - m)
  {
    var lower := ObsLower(lowerPosition, velocityLimit);
    var upper := ObsUpper(upperPosition, velocityLimit);
    var m := |lowerPosition|;
    if k < m {
      assert lower[k] == lowerPosition[k] && upper[k] == upperPosition[k];
    } else {
      assert lower[k] == -velocityLimit[k - m] && upper[k] == velocityLimit[k - m];
    }
  }

  /** The observation normaliser is usable exactly when no position range is empty and no velocity limit is zero. */
  lemma ObsNormalizerWellFormed(lowerPosition: Vec, upperPosition: Vec, velocityLimit: Vec)
    requires |lowerPosition| == |upperPosition|
    ensures WellFormed(ObsNormalizer(lowerPosition, upperPosition, velocityLimit)) <==>
      (forall i :: 0 <= i < |lowerPosition| ==> lowerPosition[i] != upperPosition[i]) &&
      (forall j :: 0 <= j < |velocityLimit| ==> velocityLimit[j] != 0.0)
  {
    var n := ObsNormalizer(lowerPosition, upperPosition, velocityLimit);
    var m := |lowerPosition|;
    forall k | 0 <= k < m + |velocityLimit|
      ensures if k < m then n.diff[k] == upperPosition[k] - lowerPosition[k]
              else n.diff[k] == 2.0 * velocityLimit[k - m]
    {
      if k < m {
        assert PositionAxis(n, lowerPosition, upperPosition, k);
      } else {
        assert VelocityAxis(n, m, velocityLimit, k - m);
      }
    }
    if WellFormed(n) {
      forall j | 0 <= j < |velocityLimit| ensures velocityLimit[j] != 0.0 {
        assert n.diff[m + j] != 0.0;
      }
    }
  }

  /** The velocity box is centred, so a velocity `v` normalises to `v / (2 * velocityLimit)`. */
  lemma VelocityNormalizesByTwiceLimit(lowerPosition: Vec, upperPosition: Vec, velocityLimit: Vec, x: Vec, j: nat)
    requires |lowerPosition| == |upperPosition|
    requires WellFormed(ObsNormalizer(lowerPosition, upperPosition, velocityLimit))
    requires |x| == |lowerPosition| + |velocityLimit| && j < |velocityLimit|
    ensures velocityLimit[j] != 0.0
    ensures Apply(ObsNormalizer(lowerPosition, upperPosition, velocityLimit), x)[|lowerPosition| + j]
         == x[|lowerPosition| + j] / (2.0 * velocityLimit[j])
  {
    var n := ObsNormalizer(lowerPosition, upperPosition, velocityLimit);
    assert VelocityAxis(n, |lowerPosition|, velocityLimit, j);
    CentredAt(n, x, |lowerPosition|, velocityLimit, j);
  }

  /** A coordinate normalised over a centred range `[-limit, limit]` is divided by `2 * limit`. */
  lemma CentredAt(n: Normalizer, x: Vec, m: nat, limit: Vec, j: nat)
    requires WellFormed(n) && |x| == |n.avg| && j < |limit| && m + j < |x|
    requires VelocityAxis(n, m, limit, j)
    ensures limit[j] != 0.0
    ensures Apply(n, x)[m + j] == x[m + j] / (2.0 * limit[j])
  {
    assert n.diff[m + j] != 0.0;
  }
}
