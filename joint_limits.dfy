/** The position-limit rule applied by DynTree::setAng to one DOF. */
module JointLimits {

  function Dist(a: real, b: real): real {
    if a < b then b - a else a - b
  }

  /** Clip v to [lo, hi]. */
  function Clip(v: real, lo: real, hi: real): (r: real)
    ensures lo <= hi ==> lo <= r <= hi
    ensures lo <= v <= hi ==> r == v
    ensures lo <= hi ==> forall y :: lo <= y <= hi ==> Dist(r, v) <= Dist(y, v)
  {
    if v < lo then lo else if v > hi then hi else v
  }

  /**
   * The effective position of a DOF asked to move to v: clipped to its limits
   * when the DOF is constrained, v itself otherwise.
   */
  function EffectivePosition(v: real, constrained: bool, q_min: real, q_max: real): (r: real)
    ensures !constrained ==> r == v
    ensures constrained && q_min <= q_max ==> q_min <= r <= q_max
    ensures constrained && q_min <= v <= q_max ==> r == v
  {
    if constrained then Clip(v, q_min, q_max) else v
  }

  /** Applying the limits to an already effective position changes nothing. */
  lemma EffectivePositionIdempotent(v: real, constrained: bool, q_min: real, q_max: real)
    requires constrained ==> q_min <= q_max
    ensures EffectivePosition(EffectivePosition(v, constrained, q_min, q_max), constrained, q_min, q_max)
         == EffectivePosition(v, constrained, q_min, q_max)
  {
  }
}
