/**
 Conversions between unit quaternions, rotation matrices and roll-pitch-yaw
 angles, in exact real arithmetic.

 Two library calls become parameters. A square root is a number `root` with
 `root >= 0` and `root * root` equal to the argument. An angle is the pair of
 cosine and sine of its half, two numbers whose squares sum to one, so that the
 double-angle formulas give the cosine and sine of the angle itself.
 */
module Rotations {

  datatype Quat = Quat(w: real, x: real, y: real, z: real) {
    function NormSq(): real { w*w + x*x + y*y + z*z }
    ghost predicate Unit() { NormSq() == 1.0 }
    function Neg(): Quat { Quat(-w, -x, -y, -z) }
    function Vec(): Vec3 { Vec3(x, y, z) }
  }

  datatype Vec3 = Vec3(x: real, y: real, z: real) {
    function Dot(o: Vec3): real { x*o.x + y*o.y + z*o.z }
    function Cross(o: Vec3): Vec3 { Vec3(y*o.z - z*o.y, z*o.x - x*o.z, x*o.y - y*o.x) }
  }

  /** A 3 by 3 matrix, row by row. */
  datatype Mat3 = Mat3(r0: Vec3, r1: Vec3, r2: Vec3) {
    function Transpose(): Mat3 {
      Mat3(Vec3(r0.x, r1.x, r2.x), Vec3(r0.y, r1.y, r2.y), Vec3(r0.z, r1.z, r2.z))
    }
    function Trace(): real { r0.x + r1.y + r2.z }
    function Det(): real { r0.Dot(r1.Cross(r2)) }
    function Apply(v: Vec3): Vec3 { Vec3(r0.Dot(v), r1.Dot(v), r2.Dot(v)) }
    function Times(m: Mat3): Mat3 {
      var t := m.Transpose();
      Mat3(t.Apply(r0), t.Apply(r1), t.Apply(r2))
    }
  }

  function Dot4(p: Quat, q: Quat): real { p.w*q.w + p.x*q.x + p.y*q.y + p.z*q.z }

  /** A 4 by 4 matrix acting on quaternions written as (w, x, y, z). */
  datatype Mat4 = Mat4(r0: Quat, r1: Quat, r2: Quat, r3: Quat) {
    function Apply(q: Quat): Quat { Quat(Dot4(r0, q), Dot4(r1, q), Dot4(r2, q), Dot4(r3, q)) }
    function Transpose(): Mat4 {
      Mat4(Quat(r0.w, r1.w, r2.w, r3.w), Quat(r0.x, r1.x, r2.x, r3.x),
           Quat(r0.y, r1.y, r2.y, r3.y), Quat(r0.z, r1.z, r2.z, r3.z))
    }
  }

  const IDENTITY := Mat3(Vec3(1.0, 0.0, 0.0), Vec3(0.0, 1.0, 0.0), Vec3(0.0, 0.0, 1.0))
  const ONE := Quat(1.0, 0.0, 0.0, 0.0)

  ghost predicate Orthogonal(m: Mat3) { m.Times(m.Transpose()) == IDENTITY }

  ghost predicate IsRotation(m: Mat3) { Orthogonal(m) && m.Det() == 1.0 }

  ghost predicate IsSqrt(root: real, x: real) { root >= 0.0 && root * root == x }

  // ---------------------------------------------------------------------
  // The operations
  // ---------------------------------------------------------------------

  // The three shapes of entry in the matrix of a quaternion.
  function Diag(a: real, b: real): real { -1.0 + 2.0*(a*a) + 2.0*(b*b) }
  function Sum2(a: real, b: real, c: real, d: real): real { 2.0*(a*b + c*d) }
  function Diff2(a: real, b: real, c: real, d: real): real { 2.0*(a*b - c*d) }

  function QuatToRotMat(q: Quat): Mat3 {
    Mat3(Vec3(Diag(q.w, q.x), Sum2(q.x, q.y, q.w, q.z), Diff2(q.x, q.z, q.w, q.y)),
         Vec3(Diff2(q.x, q.y, q.w, q.z), Diag(q.w, q.y), Sum2(q.y, q.z, q.w, q.x)),
         Vec3(Sum2(q.x, q.z, q.w, q.y), Diff2(q.y, q.z, q.w, q.x), Diag(q.w, q.z)))
  }

  /** The four branches of the conversion back, named after the component each takes a root for. */
  datatype Branch = PivotW | PivotX | PivotY | PivotZ

  function BranchOf(m: Mat3): Branch {
    if m.Trace() > 0.000001 then PivotW
    else if m.r1.y > m.r0.x && m.r1.y > m.r2.z then PivotY
    else if m.r2.z > m.r0.x then PivotZ
    else PivotX
  }

  /** The number the conversion takes the square root of. */
  function RootArgument(m: Mat3): real {
    match BranchOf(m)
    case PivotW => m.Trace() + 1.0
    case PivotX => m.r0.x - m.r1.y - m.r2.z + 1.0
    case PivotY => m.r1.y - m.r0.x - m.r2.z + 1.0
    case PivotZ => m.r2.z - m.r0.x - m.r1.y + 1.0
  }

  /** The guard of the three non-trace branches: a tiny root is left as it is. */
  function Guarded(root: real): real { if root > 0.000001 then 0.5 / root else root }

  function Scaled(k: real, g: real): real { k * g }
  function Ratio(k: real, root: real): real
    requires root != 0.0
  {
    k / (2.0*root)
  }

  function RotMatToQuat(m: Mat3, root: real): Quat
    requires IsSqrt(root, RootArgument(m))
  {
    var g := Guarded(root);
    match BranchOf(m)
    case PivotW =>
      assert root != 0.0;
      Quat(0.5*root, Ratio(m.r1.z - m.r2.y, root), Ratio(m.r2.x - m.r0.z, root), Ratio(m.r0.y - m.r1.x, root))
    case PivotX =>
      Quat(Scaled(m.r1.z - m.r2.y, g), 0.5*root, Scaled(m.r0.y + m.r1.x, g), Scaled(m.r2.x + m.r0.z, g))
    case PivotY =>
      Quat(Scaled(m.r2.x - m.r0.z, g), Scaled(m.r0.y + m.r1.x, g), 0.5*root, Scaled(m.r1.z + m.r2.y, g))
    case PivotZ =>
      Quat(Scaled(m.r0.y - m.r1.x, g), Scaled(m.r2.x + m.r0.z, g), Scaled(m.r1.z + m.r2.y, g), 0.5*root)
  }

  /** One component of `w1 v2 + w2 v1 + v1 x v2`, the vector part of a product. */
  function MultVec(w1: real, a2: real, w2: real, a1: real, b1: real, c2: real, c1: real, b2: real): real {
    w1*a2 + w2*a1 + (b1*c2 - c1*b2)
  }

  function QuatMult(q2: Quat, q1: Quat): Quat {
    Quat(q1.w*q2.w - q1.Vec().Dot(q2.Vec()),
         MultVec(q1.w, q2.x, q2.w, q1.x, q1.y, q2.z, q1.z, q2.y),
         MultVec(q1.w, q2.y, q2.w, q1.y, q1.z, q2.x, q1.x, q2.z),
         MultVec(q1.w, q2.z, q2.w, q1.z, q1.x, q2.y, q1.y, q2.x))
  }

  function QuatInverse(q: Quat): Quat { Quat(q.w, -q.x, -q.y, -q.z) }

  function QuatL(q: Quat): Mat4 {
    Mat4(Quat(q.w, -q.x, -q.y, -q.z), Quat(q.x, q.w, q.z, -q.y), Quat(q.y, -q.z, q.w, q.x), Quat(q.z, q.y, -q.x, q.w))
  }

  function QuatR(q: Quat): Mat4 {
    Mat4(Quat(q.w, -q.x, -q.y, -q.z), Quat(q.x, q.w, -q.z, q.y), Quat(q.y, q.z, q.w, -q.x), Quat(q.z, -q.y, q.x, q.w))
  }

  /** An angle given by the cosine and sine of its half. */
  datatype Angle = Angle(hc: real, hs: real) {
    ghost predicate Valid() { hc*hc + hs*hs == 1.0 }
    function Cos(): real { hc*hc - hs*hs }
    function Sin(): real { 2.0*hc*hs }
  }

  function Sum3(a: real, b: real, c: real, d: real, e: real, f: real): real { a*b*c + d*e*f }
  function Diff3(a: real, b: real, c: real, d: real, e: real, f: real): real { a*b*c - d*e*f }

  function RpyToQuat(roll: Angle, pitch: Angle, yaw: Angle): Quat {
    Quat(Sum3(roll.hc, pitch.hc, yaw.hc, roll.hs, pitch.hs, yaw.hs),
         Diff3(roll.hs, pitch.hc, yaw.hc, roll.hc, pitch.hs, yaw.hs),
         Sum3(roll.hc, pitch.hs, yaw.hc, roll.hs, pitch.hc, yaw.hs),
         Diff3(roll.hc, pitch.hc, yaw.hs, roll.hs, pitch.hs, yaw.hc))
  }

  function RotX(a: Angle): Mat3 {
    Mat3(Vec3(1.0, 0.0, 0.0), Vec3(0.0, a.Cos(), a.Sin()), Vec3(0.0, -a.Sin(), a.Cos()))
  }
  function RotY(a: Angle): Mat3 {
    Mat3(Vec3(a.Cos(), 0.0, -a.Sin()), Vec3(0.0, 1.0, 0.0), Vec3(a.Sin(), 0.0, a.Cos()))
  }
  function RotZ(a: Angle): Mat3 {
    Mat3(Vec3(a.Cos(), a.Sin(), 0.0), Vec3(-a.Sin(), a.Cos(), 0.0), Vec3(0.0, 0.0, 1.0))
  }
  function RpyToRot(roll: Angle, pitch: Angle, yaw: Angle): Mat3 {
    RotX(roll).Times(RotY(pitch)).Times(RotZ(yaw))
  }
}
