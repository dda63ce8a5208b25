/**
 * Action scaling: the policy emits a normalised action in `[-1, 1]` per
 * joint; the environment multiplies it by a per-joint torque scale built
 * once from the model's effort limits.
 */
module Actions {
  import opened Vectors

  /** `torqueScale = torqueScaleCoeff * effortLimit`, built at construction. */
  function TorqueScale(torqueScaleCoeff: real, effortLimit: Vec): (scale: Vec)
    ensures |scale| == |effortLimit|
    ensures forall i :: 0 <= i < |effortLimit| ==> scale[i] == torqueScaleCoeff * effortLimit[i]
    ensures torqueScaleCoeff == 1.0 ==> scale == effortLimit
  {
    ScaleBy(torqueScaleCoeff, effortLimit)
  }

  /**
   * `_scaleAction`: the torque sent to the simulator for a normalised
   * action, joint by joint the scale times the action; so the torque's
   * magnitude is the scale's magnitude times the action's.
   */
  function ScaleAction(torqueScale: Vec, action: Vec): (torques: Vec)
    requires |action| == |torqueScale|
    ensures |torques| == |action|
    ensures forall i :: 0 <= i < |action| ==> torques[i] == torqueScale[i] * action[i]
    ensures forall i :: 0 <= i < |action| ==> Abs(torques[i]) == Abs(torqueScale[i]) * Abs(action[i])
  {
    var torques := Mul(torqueScale, action);
    assert forall i :: 0 <= i < |action| ==> Abs(torques[i]) == Abs(torqueScale[i]) * Abs(action[i]) by {
      forall i | 0 <= i < |action| ensures Abs(torques[i]) == Abs(torqueScale[i]) * Abs(action[i]) {
        AbsProduct(torqueScale[i], action[i]);
      }
    }
    torques
  }

  /** The magnitude of a product is the product of the magnitudes. */
  lemma AbsProduct(a: real, b: real)
    ensures Abs(a * b) == Abs(a) * Abs(b)
  {
    if a < 0.0 && b < 0.0 {
      assert a * b == (-a) * (-b);
    } else if a < 0.0 {
      assert a * b == -((-a) * b);
    } else if b < 0.0 {
      assert a * b == -(a * (-b));
    }
  }

  /**
   * An action inside the action box `[-1, 1]^n` never asks for more than
   * `torqueScaleCoeff * effortLimit` on any joint (for non-negative
   * coefficient and effort limits), and the full-scale action reaches it.
   */
  lemma TorqueWithinEffortLimit(torqueScaleCoeff: real, effortLimit: Vec, action: Vec)
    requires |action| == |effortLimit|
    requires torqueScaleCoeff >= 0.0
    requires forall i :: 0 <= i < |effortLimit| ==> effortLimit[i] >= 0.0
    requires forall i :: 0 <= i < |action| ==> -1.0 <= action[i] <= 1.0
    ensures forall i :: 0 <= i < |action| ==>
      Abs(ScaleAction(TorqueScale(torqueScaleCoeff, effortLimit), action)[i]) <= torqueScaleCoeff * effortLimit[i]
    ensures forall i :: 0 <= i < |action| && Abs(action[i]) == 1.0 ==>
      Abs(ScaleAction(TorqueScale(torqueScaleCoeff, effortLimit), action)[i]) == torqueScaleCoeff * effortLimit[i]
  {
    var scale := TorqueScale(torqueScaleCoeff, effortLimit);
    var torques := ScaleAction(scale, action);
    forall i | 0 <= i < |action|
      ensures Abs(torques[i]) <= torqueScaleCoeff * effortLimit[i]
      ensures Abs(action[i]) == 1.0 ==> Abs(torques[i]) == torqueScaleCoeff * effortLimit[i]
    {
      var c := torqueScaleCoeff * effortLimit[i];
      assert c >= 0.0;
      assert torques[i] == c * action[i];
      if action[i] >= 0.0 {
        assert c * action[i] <= c * 1.0;
      } else {
        assert c * -action[i] <= c * 1.0;
      }
    }
  }
}
