/**
 * Rigid-body frames acting on wrenches, kept abstract.
 *
 * The engine uses KDL's Frame and Wrench value types only through three
 * operations: the identity frame, frame composition (`H_a_b * H_b_c`) and the
 * action of a frame on a wrench (`H_a_b * f_b`, re-expressing a wrench given in
 * frame b in frame a). The numerics of those types are not modelled; instead a
 * `SpatialAlgebra` bundles the three operations over arbitrary carrier types
 * and `Lawful` states the laws every rigid-motion algebra obeys.
 */
module SpatialAlgebras {

  datatype SpatialAlgebra<!F, !W> = SpatialAlgebra(
    identity: F,              // KDL::Frame::Identity()
    compose: (F, F) -> F,     // compose(a, b) is the frame product a * b
    act: (F, W) -> W          // act(h, w) is the frame-on-wrench product h * w
  )

  /** The identity frame leaves every wrench unchanged. */
  ghost predicate IdentityActsTrivially<F(!new), W(!new)>(alg: SpatialAlgebra<F, W>) {
    forall w: W :: alg.act(alg.identity, w) == w
  }

  /** Acting with a composed frame is acting with its factors in turn. */
  ghost predicate ActionCompatible<F(!new), W(!new)>(alg: SpatialAlgebra<F, W>) {
    forall a: F, b: F, w: W :: alg.act(alg.compose(a, b), w) == alg.act(a, alg.act(b, w))
  }

  ghost predicate Lawful<F(!new), W(!new)>(alg: SpatialAlgebra<F, W>) {
    IdentityActsTrivially(alg) && ActionCompatible(alg)
  }
}

/**
 * A concrete lawful instance: planar rigid motions by quarter turns with
 * integer translations, acting on planar wrenches (force in the plane, torque
 * about the normal) the way KDL's Frame * Wrench does in three dimensions:
 * the force is rotated, and the torque gains the moment of the rotated force
 * about the new origin. Its only role is to show that `Lawful` can be met.
 */
module PlanarFrames {
  import opened SpatialAlgebras

  datatype Frame2 = Frame2(turns: int, x: int, y: int)
  datatype Wrench2 = Wrench2(fx: int, fy: int, tz: int)

  /** x-component of (vx, vy) rotated by k quarter turns. */
  function RotX(k: int, vx: int, vy: int): int {
    var t := k % 4;
    if t == 0 then vx else if t == 1 then -vy else if t == 2 then -vx else vy
  }

  /** y-component of (vx, vy) rotated by k quarter turns. */
  function RotY(k: int, vx: int, vy: int): int {
    var t := k % 4;
    if t == 0 then vy else if t == 1 then vx else if t == 2 then -vy else -vx
  }

  function Compose2(a: Frame2, b: Frame2): Frame2 {
    Frame2((a.turns + b.turns) % 4, a.x + RotX(a.turns, b.x, b.y), a.y + RotY(a.turns, b.x, b.y))
  }

  /** Planar cross product p x f (the torque of force f applied at p). */
  function Cross(px: int, py: int, fx: int, fy: int): int {
    px * fy - py * fx
  }

  function Act2(h: Frame2, w: Wrench2): Wrench2 {
    var fx := RotX(h.turns, w.fx, w.fy);
    var fy := RotY(h.turns, w.fx, w.fy);
    Wrench2(fx, fy, w.tz + Cross(h.x, h.y, fx, fy))
  }

  function Planar(): SpatialAlgebra<Frame2, Wrench2> {
    SpatialAlgebra(Frame2(0, 0, 0), Compose2, Act2)
  }

  /** Rotating twice is rotating by the sum of the turns. */
  lemma RotComposes(ka: int, kb: int, vx: int, vy: int)
    ensures RotX((ka + kb) % 4, vx, vy) == RotX(ka, RotX(kb, vx, vy), RotY(kb, vx, vy))
    ensures RotY((ka + kb) % 4, vx, vy) == RotY(ka, RotX(kb, vx, vy), RotY(kb, vx, vy))
  {
  }

  /** A quarter-turn rotation preserves the planar cross product. */
  lemma RotPreservesCross(k: int, px: int, py: int, fx: int, fy: int)
    ensures Cross(RotX(k, px, py), RotY(k, px, py), RotX(k, fx, fy), RotY(k, fx, fy))
         == Cross(px, py, fx, fy)
  {
  }

  /** The cross product is additive in its first argument. */
  lemma CrossAddLeft(ax: int, ay: int, qx: int, qy: int, fx: int, fy: int)
    ensures Cross(ax + qx, ay + qy, fx, fy) == Cross(ax, ay, fx, fy) + Cross(qx, qy, fx, fy)
  {
    assert (ax + qx) * fy == ax * fy + qx * fy;
    assert (ay + qy) * fx == ay * fx + qy * fx;
  }

  lemma PlanarActionCompatible(a: Frame2, b: Frame2, w: Wrench2)
    ensures Act2(Compose2(a, b), w) == Act2(a, Act2(b, w))
  {
    var f1x, f1y := RotX(b.turns, w.fx, w.fy), RotY(b.turns, w.fx, w.fy);
    var f2x, f2y := RotX(a.turns, f1x, f1y), RotY(a.turns, f1x, f1y);
    var px, py := RotX(a.turns, b.x, b.y), RotY(a.turns, b.x, b.y);
    RotComposes(a.turns, b.turns, w.fx, w.fy);
    RotPreservesCross(a.turns, b.x, b.y, f1x, f1y);
    CrossAddLeft(a.x, a.y, px, py, f2x, f2y);
    var c := Compose2(a, b);
    assert c.x == a.x + px && c.y == a.y + py;
    assert RotX(c.turns, w.fx, w.fy) == f2x && RotY(c.turns, w.fx, w.fy) == f2y;
  }

  /** The planar instance satisfies the laws assumed of KDL's frames. */
  lemma PlanarIsLawful()
    ensures Lawful(Planar())
  {
    forall a: Frame2, b: Frame2, w: Wrench2
      ensures Planar().act(Planar().compose(a, b), w) == Planar().act(a, Planar().act(b, w))
    {
      PlanarActionCompatible(a, b, w);
    }
  }
}
