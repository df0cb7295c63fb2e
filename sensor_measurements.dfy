/**
 * FT measurements as they cross the DynTree interface: a 6-vector with the
 * force in components 0-2 and the torque in components 3-5, stored as a
 * KDL::Wrench (a force vector and a torque vector).
 */
module SensorMeasurements {

  datatype Vector3 = Vector3(x: real, y: real, z: real)

  datatype Wrench = Wrench(force: Vector3, torque: Vector3)

  /** The wrench a force-first 6-vector describes. */
  function WrenchFromFT(ftm: seq<real>): (w: Wrench)
    requires |ftm| == 6
    ensures w.force == Vector3(ftm[0], ftm[1], ftm[2])
    ensures w.torque == Vector3(ftm[3], ftm[4], ftm[5])
  {
    Wrench(Vector3(ftm[0], ftm[1], ftm[2]), Vector3(ftm[3], ftm[4], ftm[5]))
  }

  /** The force-first 6-vector of a wrench. */
  function FTFromWrench(w: Wrench): (ftm: seq<real>)
    ensures |ftm| == 6
    ensures ftm[..3] == [w.force.x, w.force.y, w.force.z]
    ensures ftm[3..] == [w.torque.x, w.torque.y, w.torque.z]
  {
    [w.force.x, w.force.y, w.force.z, w.torque.x, w.torque.y, w.torque.z]
  }

  /** Serialising a stored measurement and reading it back gives the same 6-vector. */
  lemma FTRoundTrip(ftm: seq<real>)
    requires |ftm| == 6
    ensures FTFromWrench(WrenchFromFT(ftm)) == ftm
  {
    assert FTFromWrench(WrenchFromFT(ftm))[..3] == ftm[..3];
    assert FTFromWrench(WrenchFromFT(ftm))[3..] == ftm[3..];
    assert ftm == ftm[..3] + ftm[3..];
  }

  /** Reading a wrench out as a 6-vector and storing it again gives the same wrench. */
  lemma WrenchRoundTrip(w: Wrench)
    ensures WrenchFromFT(FTFromWrench(w)) == w
  {
  }
}
