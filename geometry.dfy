/**
 * Rigid poses over exact reals: a pose is a translation and a rotation
 * matrix, composed the way SAPIEN's `Pose.__mul__` composes them
 * (a * b applies b first, then a).
 */
module Geometry {

  datatype Vec3 = Vec3(x: real, y: real, z: real)

  const Zero: Vec3 := Vec3(0.0, 0.0, 0.0)

  function Add(a: Vec3, b: Vec3): Vec3 { Vec3(a.x + b.x, a.y + b.y, a.z + b.z) }

  function Sub(a: Vec3, b: Vec3): Vec3 { Vec3(a.x - b.x, a.y - b.y, a.z - b.z) }

  function Neg(a: Vec3): Vec3 { Vec3(-a.x, -a.y, -a.z) }

  function Dot(a: Vec3, b: Vec3): real { a.x * b.x + a.y * b.y + a.z * b.z }

  /** Per-axis product, numpy's `v * s` on two 3-vectors. */
  function PerAxis(a: Vec3, s: Vec3): Vec3 { Vec3(a.x * s.x, a.y * s.y, a.z * s.z) }

  function ScaleBy(k: real, a: Vec3): Vec3 { Vec3(k * a.x, k * a.y, k * a.z) }

  function Abs(t: real): real { if t < 0.0 then -t else t }

  function Sq(t: real): real { t * t }

  function Clamp(t: real, lo: real, hi: real): real
  {
    if t < lo then lo else if t > hi then hi else t
  }

  /** A 3x3 matrix given by its rows. */
  datatype Mat3 = Mat3(r0: Vec3, r1: Vec3, r2: Vec3)

  const Eye: Mat3 := Mat3(Vec3(1.0, 0.0, 0.0), Vec3(0.0, 1.0, 0.0), Vec3(0.0, 0.0, 1.0))

  function Col0(m: Mat3): Vec3 { Vec3(m.r0.x, m.r1.x, m.r2.x) }
  function Col1(m: Mat3): Vec3 { Vec3(m.r0.y, m.r1.y, m.r2.y) }
  function Col2(m: Mat3): Vec3 { Vec3(m.r0.z, m.r1.z, m.r2.z) }

  function Transpose(m: Mat3): Mat3 { Mat3(Col0(m), Col1(m), Col2(m)) }

  function MulV(m: Mat3, v: Vec3): Vec3 { Vec3(Dot(m.r0, v), Dot(m.r1, v), Dot(m.r2, v)) }

  function MulM(a: Mat3, b: Mat3): Mat3
  {
    Mat3(Vec3(Dot(a.r0, Col0(b)), Dot(a.r0, Col1(b)), Dot(a.r0, Col2(b))),
         Vec3(Dot(a.r1, Col0(b)), Dot(a.r1, Col1(b)), Dot(a.r1, Col2(b))),
         Vec3(Dot(a.r2, Col0(b)), Dot(a.r2, Col1(b)), Dot(a.r2, Col2(b))))
  }

  /** A pose: position `p` and orientation `r` (SAPIEN stores a quaternion). */
  datatype Pose = Pose(p: Vec3, r: Mat3)

  /** `Pose()`: no translation, no rotation. */
  const Identity: Pose := Pose(Zero, Eye)

  /** `a * b`. */
  function Compose(a: Pose, b: Pose): Pose
  {
    Pose(Add(MulV(a.r, b.p), a.p), MulM(a.r, b.r))
  }

  /** `a.inv()`, the inverse of a rigid pose. */
  function Inverse(a: Pose): Pose
  {
    Pose(Neg(MulV(Transpose(a.r), a.p)), Transpose(a.r))
  }

  /** Maps a point given in the pose's frame to the parent frame. */
  function Apply(a: Pose, v: Vec3): Vec3 { Add(MulV(a.r, v), a.p) }

  /** Coordinates, in the pose's frame, of a point given in the parent frame. */
  function ToLocal(a: Pose, x: Vec3): Vec3 { MulV(Transpose(a.r), Sub(x, a.p)) }

  /**
   * `Pose(q=euler2quat(0, np.pi / 2, 0))`: a quarter turn about the y-axis
   * (static x-y-z Euler angles), with no translation.
   */
  const RotY90: Pose :=
    Pose(Zero, Mat3(Vec3(0.0, 0.0, 1.0), Vec3(0.0, 1.0, 0.0), Vec3(-1.0, 0.0, 0.0)))

  /** The rotation part is orthonormal, so the pose is a rigid motion. */
  ghost predicate Rigid(a: Pose)
  {
    MulM(a.r, Transpose(a.r)) == Eye && MulM(Transpose(a.r), a.r) == Eye
  }

  lemma {:induction false} MulVAssociative(a: Mat3, b: Mat3, v: Vec3)
    ensures MulV(a, MulV(b, v)) == MulV(MulM(a, b), v)
  {
  }

  /** The columns of a product are the left factor applied to the columns of the right one. */
  lemma ColumnsOfProduct(a: Mat3, b: Mat3)
    ensures Col0(MulM(a, b)) == MulV(a, Col0(b))
    ensures Col1(MulM(a, b)) == MulV(a, Col1(b))
    ensures Col2(MulM(a, b)) == MulV(a, Col2(b))
  {
  }

  lemma {:induction false} MulMAssociative(a: Mat3, b: Mat3, c: Mat3)
    ensures MulM(a, MulM(b, c)) == MulM(MulM(a, b), c)
  {
    var lhs, rhs := MulM(a, MulM(b, c)), MulM(MulM(a, b), c);
    ColumnsOfProduct(a, MulM(b, c));
    ColumnsOfProduct(b, c);
    ColumnsOfProduct(MulM(a, b), c);
    MulVAssociative(a, b, Col0(c));
    MulVAssociative(a, b, Col1(c));
    MulVAssociative(a, b, Col2(c));
    assert Col0(lhs) == Col0(rhs) && Col1(lhs) == Col1(rhs) && Col2(lhs) == Col2(rhs);
  }

  lemma EyeNeutral(m: Mat3, v: Vec3)
    ensures MulM(Eye, m) == m && MulV(Eye, v) == v
  {
  }

  /**
   * Undoing a rigid pose and redoing it changes nothing:
   * `a * (a.inv() * b) == b`.
   */
  lemma {:induction false} ComposeInverseCancels(a: Pose, b: Pose)
    requires Rigid(a)
    ensures Compose(a, Compose(Inverse(a), b)) == b
  {
    var rt := Transpose(a.r);
    MulMAssociative(a.r, rt, b.r);
    MulVAssociative(a.r, rt, b.p);
    MulVAssociative(a.r, rt, a.p);
    EyeNeutral(b.r, b.p);
    EyeNeutral(b.r, a.p);
    var inner := Compose(Inverse(a), b);
    assert inner.p == Add(MulV(rt, b.p), Neg(MulV(rt, a.p)));
    assert MulV(a.r, inner.p) == Sub(MulV(a.r, MulV(rt, b.p)), MulV(a.r, MulV(rt, a.p)));
  }

  /**
   * The quarter turn about y carries the local z-axis onto the local x-axis:
   * a point at height h on the z-axis of `local * RotY90` is the point at
   * height h on the x-axis of `local`.
   */
  lemma ZAxisOfTurnedFrameIsXAxis(local: Pose, h: real)
    ensures Apply(Compose(local, RotY90), Vec3(0.0, 0.0, h)) == Apply(local, Vec3(h, 0.0, 0.0))
  {
  }

  /** Coordinates in the turned frame: (x, y, z) in `local` are (-z, y, x) in `local * RotY90`. */
  lemma ToLocalTurned(local: Pose, x: Vec3)
    ensures var l := ToLocal(local, x);
            ToLocal(Compose(local, RotY90), x) == Vec3(-l.z, l.y, l.x)
  {
  }

  lemma ToLocalIdentity(x: Vec3)
    ensures ToLocal(Identity, x) == x
  {
  }
}
