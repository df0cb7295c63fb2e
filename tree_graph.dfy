/**
 * The part of KDL::CoDyCo::TreeGraph that the FT-sensor code consults: how
 * many links there are, which joint (if any) joins two links, and the relative
 * pose of two adjacent links at a given joint position.
 */
module TreeGraphs {
  import opened Options

  /** KDL::Joint::JointType; `Fixed` stands for KDL's `Joint::None`, the zero-DOF joint. */
  datatype JointType = RotAxis | RotX | RotY | RotZ | TransAxis | TransX | TransY | TransZ | Fixed

  datatype TreeGraph<F> = TreeGraph(
    nrOfLinks: nat,
    /** adjacentJoint(a, b): type of the joint that link a's getAdjacentJoint(b) finds, None if a and b are not adjacent */
    adjacentJoint: (int, int) -> Option<JointType>,
    /** pose(l, m, q): what link l's pose(m, q) returns, the frame H_m_l taking quantities in l's frame to m's */
    pose: (int, int, real) -> F
  )
  {
    /** getLink(i) refers to an existing link. */
    predicate HasLink(i: int) {
      0 <= i < nrOfLinks
    }

    /** Seen from link a, the joint towards link b is a zero-DOF joint. */
    predicate FixedJoint(a: int, b: int) {
      adjacentJoint(a, b) == Some(Fixed)
    }
  }
}
