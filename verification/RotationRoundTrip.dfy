/** Matrix to quaternion and back, and which quaternions give rotation matrices. */
module RotationRoundTrip {
  import opened Rotations
  import opened QuaternionProduct

  /**
   In every branch, for every matrix, the root is taken of a number above
   0.999 (the pivot is at least a third of the trace), so no division is by a
   number near zero and the guard against a tiny root always takes its first arm.
   */
  lemma RootBounded(m: Mat3, root: real)
    requires IsSqrt(root, RootArgument(m))
    ensures root > 0.999
    ensures Guarded(root) == 0.5 / root
  {
  }

  /**
   Four times the products of the components of a quaternion, read off its
   matrix: `ww` stands for 4*w*w, `wx` for 4*w*x and so on.
   */
  datatype Outer = Outer(ww: real, wx: real, wy: real, wz: real, xx: real, xy: real, xz: real, yy: real, yz: real,
      zz: real)

  function OuterOf(m: Mat3): Outer {
    Outer(1.0 + m.r0.x + m.r1.y + m.r2.z, m.r1.z - m.r2.y, m.r2.x - m.r0.z, m.r0.y - m.r1.x,
          1.0 + m.r0.x - m.r1.y - m.r2.z, m.r0.y + m.r1.x, m.r2.x + m.r0.z,
          1.0 - m.r0.x + m.r1.y - m.r2.z, m.r1.z + m.r2.y,
          1.0 - m.r0.x - m.r1.y + m.r2.z)
  }

  ghost predicate IsOuter(w: real, x: real, y: real, z: real,
                          ww: real, wx: real, wy: real, wz: real, xx: real, xy: real, xz: real, yy: real, yz: real,
                              zz: real)
  {
    && ww == 4.0*(w*w) && wx == 4.0*(w*x) && wy == 4.0*(w*y) && wz == 4.0*(w*z)
    && xx == 4.0*(x*x) && xy == 4.0*(x*y) && xz == 4.0*(x*z)
    && yy == 4.0*(y*y) && yz == 4.0*(y*z) && zz == 4.0*(z*z)
  }

  ghost predicate OuterMatches(q: Quat, o: Outer) {
    IsOuter(q.w, q.x, q.y, q.z, o.ww, o.wx, o.wy, o.wz, o.xx, o.xy, o.xz, o.yy, o.yz, o.zz)
  }

  lemma MatrixFromEntries(q: Quat, m: Mat3)
    requires IsMatrixOf(q.w, q.x, q.y, q.z, m.r0.x, m.r0.y, m.r0.z, m.r1.x, m.r1.y, m.r1.z, m.r2.x, m.r2.y, m.r2.z)
    ensures m == QuatToRotMat(q)
  {
  }

  /** Reading the products off a matrix: they are the products of q iff q is a unit and m is its matrix. */
  lemma OuterIffMatrix(q: Quat, m: Mat3)
    ensures OuterMatches(q, OuterOf(m)) <==> q.Unit() && m == QuatToRotMat(q)
  {
  }

  // -- From one row of products to the whole quaternion

  lemma PivotScalar(r: real, g: real, k0: real, k1: real, k2: real, k3: real,
                    k11: real, k12: real, k13: real, k22: real, k23: real, k33: real)
    requires r * r == k0 && r * g == 0.5
    requires k1*k1 == k0*k11 && k1*k2 == k0*k12 && k1*k3 == k0*k13
    requires k2*k2 == k0*k22 && k2*k3 == k0*k23 && k3*k3 == k0*k33
    ensures IsOuter(0.5*r, k1*g, k2*g, k3*g, k0, k1, k2, k3, k11, k12, k13, k22, k23, k33)
  {
  }

  lemma SignScalar(r: real, g: real, p: real, x: real, y: real, z: real, k1: real, k2: real, k3: real)
    requires r > 0.0 && r * r == 4.0*(p*p) && r * g == 0.5
    requires k1 == 4.0*(p*x) && k2 == 4.0*(p*y) && k3 == 4.0*(p*z)
    ensures || (0.5*r == p && k1*g == x && k2*g == y && k3*g == z)
            || (0.5*r == -p && k1*g == -x && k2*g == -y && k3*g == -z)
  {
  }

  // -- Rotation matrices, entry by entry: rows (a b c), (d e f), (g h i)

  ghost predicate RowsOrthonormal(a: real, b: real, c: real, d: real, e: real, f: real, g: real, h: real, i: real) {
    && a*a + b*b + c*c == 1.0 && d*d + e*e + f*f == 1.0 && g*g + h*h + i*i == 1.0
    && a*d + b*e + c*f == 0.0 && a*g + b*h + c*i == 0.0 && d*g + e*h + f*i == 0.0
  }

  ghost predicate ColumnsOrthonormal(a: real, b: real, c: real, d: real, e: real, f: real, g: real, h: real, i: real) {
    && a*a + d*d + g*g == 1.0 && b*b + e*e + h*h == 1.0 && c*c + f*f + i*i == 1.0
    && a*b + d*e + g*h == 0.0 && a*c + d*f + g*i == 0.0 && b*c + e*f + h*i == 0.0
  }

  /** Every row is the cross product of the other two. */
  ghost predicate OwnCofactors(a: real, b: real, c: real, d: real, e: real, f: real, g: real, h: real, i: real) {
    && a == e*i - f*h && b == f*g - d*i && c == d*h - e*g
    && d == h*c - i*b && e == i*a - g*c && f == g*b - h*a
    && g == b*f - c*e && h == c*d - a*f && i == a*e - b*d
  }

  ghost predicate DetOne(a: real, b: real, c: real, d: real, e: real, f: real, g: real, h: real,
      i: real) {
    a*(e*i - f*h) + b*(f*g - d*i) + c*(d*h - e*g) == 1.0
  }

  lemma OrthogonalRows(m: Mat3)
    requires Orthogonal(m)
    ensures RowsOrthonormal(m.r0.x, m.r0.y, m.r0.z, m.r1.x, m.r1.y, m.r1.z, m.r2.x, m.r2.y, m.r2.z)
  {
  }

  lemma DetFromCross(m: Mat3)
    ensures m.Det() == 1.0 <==> DetOne(m.r0.x, m.r0.y, m.r0.z, m.r1.x, m.r1.y, m.r1.z, m.r2.x, m.r2.y, m.r2.z)
  {
  }

  lemma RotationEntries(m: Mat3)
    requires IsRotation(m)
    ensures RowsOrthonormal(m.r0.x, m.r0.y, m.r0.z, m.r1.x, m.r1.y, m.r1.z, m.r2.x, m.r2.y, m.r2.z)
    ensures DetOne(m.r0.x, m.r0.y, m.r0.z, m.r1.x, m.r1.y, m.r1.z, m.r2.x, m.r2.y, m.r2.z)
  {
    OrthogonalRows(m);
    DetFromCross(m);
  }

  /** Lagrange's identity for two orthonormal rows. */
  lemma CrossNorm(a: real, b: real, c: real, d: real, e: real, f: real, u: real, v: real, t: real)
    requires a*a + b*b + c*c == 1.0 && d*d + e*e + f*f == 1.0 && a*d + b*e + c*f == 0.0
    requires u == b*f - c*e && v == c*d - a*f && t == a*e - b*d
    ensures u*u + v*v + t*t == 1.0
  {
  }

  lemma CrossDet(a: real, b: real, c: real, d: real, e: real, f: real, g: real, h: real, i: real, u: real, v: real,
      t: real)
    requires DetOne(a, b, c, d, e, f, g, h, i)
    requires u == b*f - c*e && v == c*d - a*f && t == a*e - b*d
    ensures u*g + v*h + t*i == 1.0
  {
  }

  lemma SameSign(x: real, y: real)
    requires x == y
    ensures x * y >= 0.0 && (x != 0.0 ==> x * y > 0.0)
  {
  }

  lemma SquaredDifference(u: real, v: real, x: real, y: real)
    requires x == u - v && y == u - v
    ensures u*u - 2.0*(u*v) + v*v >= 0.0
    ensures u != v ==> u*u - 2.0*(u*v) + v*v > 0.0
  {
    assert x * y == u*u - 2.0*(u*v) + v*v;
    SameSign(x, y);
  }

  lemma SumOfSquaresZero(u: real, v: real, t: real, g: real, h: real, i: real)
    requires u*u + v*v + t*t == 1.0 && g*g + h*h + i*i == 1.0 && u*g + v*h + t*i == 1.0
    ensures u == g && v == h && t == i
  {
    SquaredDifference(u, g, u - g, u - g);
    SquaredDifference(v, h, v - h, v - h);
    SquaredDifference(t, i, t - i, t - i);
  }

  /** The third row of a rotation is the cross product of the first two: their distance squared is zero. */
  lemma ThirdRow(a: real, b: real, c: real, d: real, e: real, f: real, g: real, h: real, i: real)
    requires RowsOrthonormal(a, b, c, d, e, f, g, h, i) && DetOne(a, b, c, d, e, f, g, h, i)
    ensures g == b*f - c*e && h == c*d - a*f && i == a*e - b*d
  {
    var u, v, t := b*f - c*e, c*d - a*f, a*e - b*d;
    CrossNorm(a, b, c, d, e, f, u, v, t);
    CrossDet(a, b, c, d, e, f, g, h, i, u, v, t);
    SumOfSquaresZero(u, v, t, g, h, i);
  }

  lemma CyclicRows(a: real, b: real, c: real, d: real, e: real, f: real, g: real, h: real, i: real)
    requires RowsOrthonormal(a, b, c, d, e, f, g, h, i) && DetOne(a, b, c, d, e, f, g, h, i)
    ensures RowsOrthonormal(d, e, f, g, h, i, a, b, c) && DetOne(d, e, f, g, h, i, a, b, c)
    ensures RowsOrthonormal(g, h, i, a, b, c, d, e, f) && DetOne(g, h, i, a, b, c, d, e, f)
  {
  }

  lemma CofactorsOfRotation(a: real, b: real, c: real, d: real, e: real, f: real, g: real, h: real, i: real)
    requires RowsOrthonormal(a, b, c, d, e, f, g, h, i) && DetOne(a, b, c, d, e, f, g, h, i)
    ensures OwnCofactors(a, b, c, d, e, f, g, h, i)
  {
    CyclicRows(a, b, c, d, e, f, g, h, i);
    ThirdRow(a, b, c, d, e, f, g, h, i);
    ThirdRow(d, e, f, g, h, i, a, b, c);
    ThirdRow(g, h, i, a, b, c, d, e, f);
  }

  lemma ColumnsOfRotation(a: real, b: real, c: real, d: real, e: real, f: real, g: real, h: real, i: real)
    requires OwnCofactors(a, b, c, d, e, f, g, h, i) && DetOne(a, b, c, d, e, f, g, h, i)
    ensures ColumnsOrthonormal(a, b, c, d, e, f, g, h, i)
  {
  }

  // The products read off a rotation matrix multiply like those of a quaternion.

  /** The rank-one relations, one conjunction per pivot. */
  ghost predicate PivotRelations(k0: real, k1: real, k2: real, k3: real,
                                 k11: real, k12: real, k13: real, k22: real, k23: real, k33: real)
  {
    && k1*k1 == k0*k11 && k1*k2 == k0*k12 && k1*k3 == k0*k13
    && k2*k2 == k0*k22 && k2*k3 == k0*k23 && k3*k3 == k0*k33
  }

  ghost predicate AllPivots(o: Outer) {
    && PivotRelations(o.ww, o.wx, o.wy, o.wz, o.xx, o.xy, o.xz, o.yy, o.yz, o.zz)
    && PivotRelations(o.xx, o.wx, o.xy, o.xz, o.ww, o.wy, o.wz, o.yy, o.yz, o.zz)
    && PivotRelations(o.yy, o.wy, o.yz, o.xy, o.ww, o.wz, o.wx, o.zz, o.xz, o.xx)
    && PivotRelations(o.zz, o.wz, o.xz, o.yz, o.ww, o.wx, o.wy, o.xx, o.xy, o.yy)
  }

  ghost predicate OuterScalars(a: real, b: real, c: real, d: real, e: real, f: real, g: real, h: real, i: real,
                               ww: real, wx: real, wy: real, wz: real, xx: real, xy: real, xz: real, yy: real,
                                   yz: real, zz: real)
  {
    && ww == 1.0 + a + e + i && wx == f - h && wy == g - c && wz == b - d
    && xx == 1.0 + a - e - i && xy == b + d && xz == g + c
    && yy == 1.0 - a + e - i && yz == f + h && zz == 1.0 - a - e + i
  }

  lemma OuterFields(m: Mat3, o: Outer)
    requires o == OuterOf(m)
    ensures OuterScalars(m.r0.x, m.r0.y, m.r0.z, m.r1.x, m.r1.y, m.r1.z, m.r2.x, m.r2.y, m.r2.z,
                         o.ww, o.wx, o.wy, o.wz, o.xx, o.xy, o.xz, o.yy, o.yz, o.zz)
  {
  }

  lemma PivotWRelations(a: real, b: real, c: real, d: real, e: real, f: real, g: real, h: real, i: real,
                        ww: real, wx: real, wy: real, wz: real, xx: real, xy: real, xz: real, yy: real, yz: real,
                            zz: real)
    requires RowsOrthonormal(a, b, c, d, e, f, g, h, i) && ColumnsOrthonormal(a, b, c, d, e, f, g, h, i)
    requires OwnCofactors(a, b, c, d, e, f, g, h, i)
    requires OuterScalars(a, b, c, d, e, f, g, h, i, ww, wx, wy, wz, xx, xy, xz, yy, yz, zz)
    ensures PivotRelations(ww, wx, wy, wz, xx, xy, xz, yy, yz, zz)
  {
  }

  lemma PivotXRelations(a: real, b: real, c: real, d: real, e: real, f: real, g: real, h: real, i: real,
                        ww: real, wx: real, wy: real, wz: real, xx: real, xy: real, xz: real, yy: real, yz: real,
                            zz: real)
    requires RowsOrthonormal(a, b, c, d, e, f, g, h, i) && ColumnsOrthonormal(a, b, c, d, e, f, g, h, i)
    requires OwnCofactors(a, b, c, d, e, f, g, h, i)
    requires OuterScalars(a, b, c, d, e, f, g, h, i, ww, wx, wy, wz, xx, xy, xz, yy, yz, zz)
    ensures PivotRelations(xx, wx, xy, xz, ww, wy, wz, yy, yz, zz)
  {
  }

  lemma PivotYRelations(a: real, b: real, c: real, d: real, e: real, f: real, g: real, h: real, i: real,
                        ww: real, wx: real, wy: real, wz: real, xx: real, xy: real, xz: real, yy: real, yz: real,
                            zz: real)
    requires RowsOrthonormal(a, b, c, d, e, f, g, h, i) && ColumnsOrthonormal(a, b, c, d, e, f, g, h, i)
    requires OwnCofactors(a, b, c, d, e, f, g, h, i)
    requires OuterScalars(a, b, c, d, e, f, g, h, i, ww, wx, wy, wz, xx, xy, xz, yy, yz, zz)
    ensures PivotRelations(yy, wy, yz, xy, ww, wz, wx, zz, xz, xx)
  {
  }

  lemma PivotZRelations(a: real, b: real, c: real, d: real, e: real, f: real, g: real, h: real, i: real,
                        ww: real, wx: real, wy: real, wz: real, xx: real, xy: real, xz: real, yy: real, yz: real,
                            zz: real)
    requires RowsOrthonormal(a, b, c, d, e, f, g, h, i) && ColumnsOrthonormal(a, b, c, d, e, f, g, h, i)
    requires OwnCofactors(a, b, c, d, e, f, g, h, i)
    requires OuterScalars(a, b, c, d, e, f, g, h, i, ww, wx, wy, wz, xx, xy, xz, yy, yz, zz)
    ensures PivotRelations(zz, wz, xz, yz, ww, wx, wy, xx, xy, yy)
  {
  }

  lemma RankOneAll(a: real, b: real, c: real, d: real, e: real, f: real, g: real, h: real, i: real,
                   ww: real, wx: real, wy: real, wz: real, xx: real, xy: real, xz: real, yy: real, yz: real, zz: real)
    requires RowsOrthonormal(a, b, c, d, e, f, g, h, i) && DetOne(a, b, c, d, e, f, g, h, i)
    requires OuterScalars(a, b, c, d, e, f, g, h, i, ww, wx, wy, wz, xx, xy, xz, yy, yz, zz)
    ensures PivotRelations(ww, wx, wy, wz, xx, xy, xz, yy, yz, zz)
    ensures PivotRelations(xx, wx, xy, xz, ww, wy, wz, yy, yz, zz)
    ensures PivotRelations(yy, wy, yz, xy, ww, wz, wx, zz, xz, xx)
    ensures PivotRelations(zz, wz, xz, yz, ww, wx, wy, xx, xy, yy)
  {
    CofactorsOfRotation(a, b, c, d, e, f, g, h, i);
    ColumnsOfRotation(a, b, c, d, e, f, g, h, i);
    PivotWRelations(a, b, c, d, e, f, g, h, i, ww, wx, wy, wz, xx, xy, xz, yy, yz, zz);
    PivotXRelations(a, b, c, d, e, f, g, h, i, ww, wx, wy, wz, xx, xy, xz, yy, yz, zz);
    PivotYRelations(a, b, c, d, e, f, g, h, i, ww, wx, wy, wz, xx, xy, xz, yy, yz, zz);
    PivotZRelations(a, b, c, d, e, f, g, h, i, ww, wx, wy, wz, xx, xy, xz, yy, yz, zz);
  }

  lemma RotationRankOne(m: Mat3)
    requires IsRotation(m)
    ensures AllPivots(OuterOf(m))
  {
    var o := OuterOf(m);
    RotationEntries(m);
    OuterFields(m, o);
    RankOneAll(m.r0.x, m.r0.y, m.r0.z, m.r1.x, m.r1.y, m.r1.z, m.r2.x, m.r2.y, m.r2.z,
               o.ww, o.wx, o.wy, o.wz, o.xx, o.xy, o.xz, o.yy, o.yz, o.zz);
  }

  /** The conversion from the products read off the matrix: half the root, then a row of products times `0.5 / root`. */
  ghost predicate FromPivot(b: Branch, root: real, g: real, w: real, x: real, y: real, z: real,
                            ww: real, wx: real, wy: real, wz: real, xx: real, xy: real, xz: real, yy: real, yz: real,
                                zz: real)
  {
    match b
    case PivotW => root * root == ww && w == 0.5*root && x == Scaled(wx, g) && y == Scaled(wy, g) && z == Scaled(wz, g)
    case PivotX => root * root == xx && w == Scaled(wx, g) && x == 0.5*root && y == Scaled(xy, g) && z == Scaled(xz, g)
    case PivotY => root * root == yy && w == Scaled(wy, g) && x == Scaled(xy, g) && y == 0.5*root && z == Scaled(yz, g)
    case PivotZ => root * root == zz && w == Scaled(wz, g) && x == Scaled(xz, g) && y == Scaled(yz, g) && z == 0.5*root
  }

  lemma RatioIsScaled(root: real, g: real, k: real)
    requires root > 0.0 && g == 0.5 / root
    ensures root * g == 0.5 && Ratio(k, root) == Scaled(k, g)
  {
  }

  lemma ConversionFromPivot(m: Mat3, root: real, g: real, o: Outer, q: Quat)
    requires IsSqrt(root, RootArgument(m)) && root > 0.999 && g == 0.5 / root && Guarded(root) == g
    requires o == OuterOf(m) && q == RotMatToQuat(m, root)
    ensures FromPivot(BranchOf(m), root, g, q.w, q.x, q.y, q.z, o.ww, o.wx, o.wy, o.wz, o.xx, o.xy, o.xz, o.yy, o.yz,
        o.zz)
  {
    RatioIsScaled(root, g, o.wx); RatioIsScaled(root, g, o.wy); RatioIsScaled(root, g, o.wz);
  }

  lemma PermuteOuter(w: real, x: real, y: real, z: real, ww: real, wx: real, wy: real, wz: real, xx: real, xy: real,
      xz: real, yy: real, yz: real, zz: real)
    ensures IsOuter(x, w, y, z, xx, wx, xy, xz, ww, wy, wz, yy, yz, zz) ==>
        IsOuter(w, x, y, z, ww, wx, wy, wz, xx, xy, xz, yy, yz, zz)
    ensures IsOuter(y, w, z, x, yy, wy, yz, xy, ww, wz, wx, zz, xz, xx) ==>
        IsOuter(w, x, y, z, ww, wx, wy, wz, xx, xy, xz, yy, yz, zz)
    ensures IsOuter(z, w, x, y, zz, wz, xz, yz, ww, wx, wy, xx, xy, yy) ==>
        IsOuter(w, x, y, z, ww, wx, wy, wz, xx, xy, xz, yy, yz, zz)
  {
  }

  lemma PivotGivesOuter(b: Branch, root: real, g: real, w: real, x: real, y: real, z: real,
                        ww: real, wx: real, wy: real, wz: real, xx: real, xy: real, xz: real, yy: real, yz: real,
                            zz: real)
    requires FromPivot(b, root, g, w, x, y, z, ww, wx, wy, wz, xx, xy, xz, yy, yz, zz) && root * g == 0.5
    requires PivotRelations(ww, wx, wy, wz, xx, xy, xz, yy, yz, zz)
    requires PivotRelations(xx, wx, xy, xz, ww, wy, wz, yy, yz, zz)
    requires PivotRelations(yy, wy, yz, xy, ww, wz, wx, zz, xz, xx)
    requires PivotRelations(zz, wz, xz, yz, ww, wx, wy, xx, xy, yy)
    ensures IsOuter(w, x, y, z, ww, wx, wy, wz, xx, xy, xz, yy, yz, zz)
  {
    PermuteOuter(w, x, y, z, ww, wx, wy, wz, xx, xy, xz, yy, yz, zz);
    match b
    case PivotW => PivotScalar(root, g, ww, wx, wy, wz, xx, xy, xz, yy, yz, zz);
    case PivotX => PivotScalar(root, g, xx, wx, xy, xz, ww, wy, wz, yy, yz, zz);
    case PivotY => PivotScalar(root, g, yy, wy, yz, xy, ww, wz, wx, zz, xz, xx);
    case PivotZ => PivotScalar(root, g, zz, wz, xz, yz, ww, wx, wy, xx, xy, yy);
  }

  lemma PivotGivesSign(b: Branch, root: real, g: real, w: real, x: real, y: real, z: real,
                       ww: real, wx: real, wy: real, wz: real, xx: real, xy: real, xz: real, yy: real, yz: real,
                           zz: real, p: real, q: real, r: real, s: real)
    requires FromPivot(b, root, g, p, q, r, s, ww, wx, wy, wz, xx, xy, xz, yy, yz, zz) && root > 0.0 && root * g == 0.5
    requires IsOuter(w, x, y, z, ww, wx, wy, wz, xx, xy, xz, yy, yz, zz)
    ensures (p == w && q == x && r == y && s == z) || (p == -w && q == -x && r == -y && s == -z)
  {
    match b
    case PivotW => SignScalar(root, g, w, x, y, z, wx, wy, wz);
    case PivotX => SignScalar(root, g, x, w, y, z, wx, xy, xz);
    case PivotY => SignScalar(root, g, y, w, x, z, wy, xy, yz);
    case PivotZ => SignScalar(root, g, z, w, x, y, wz, xz, yz);
  }

  /**
   Main result: for every rotation matrix, converting to a quaternion and back
   gives the matrix, and the quaternion is a unit, through all four branches.
   */
  lemma MatrixRoundTrip(m: Mat3, root: real)
    requires IsRotation(m) && IsSqrt(root, RootArgument(m))
    ensures RotMatToQuat(m, root).Unit()
    ensures QuatToRotMat(RotMatToQuat(m, root)) == m
  {
    var q, o, g := RotMatToQuat(m, root), OuterOf(m), Guarded(root);
    RootBounded(m, root);
    RotationRankOne(m);
    ConversionFromPivot(m, root, g, o, q);
    RatioIsScaled(root, g, 0.0);
    PivotGivesOuter(BranchOf(m), root, g, q.w, q.x, q.y, q.z, o.ww, o.wx, o.wy, o.wz, o.xx, o.xy, o.xz, o.yy, o.yz,
        o.zz);
    OuterIffMatrix(q, m);
  }

  /** Main result: for every unit quaternion, converting to a matrix and back gives it up to sign. */
  lemma QuaternionRoundTrip(q: Quat, root: real)
    requires q.Unit() && IsSqrt(root, RootArgument(QuatToRotMat(q)))
    ensures RotMatToQuat(QuatToRotMat(q), root) == q || RotMatToQuat(QuatToRotMat(q), root) == q.Neg()
  {
    var m, g := QuatToRotMat(q), Guarded(root);
    var o, p := OuterOf(m), RotMatToQuat(m, root);
    RootBounded(m, root);
    OuterIffMatrix(q, m);
    ConversionFromPivot(m, root, g, o, p);
    RatioIsScaled(root, g, 0.0);
    PivotGivesSign(BranchOf(m), root, g, q.w, q.x, q.y, q.z, o.ww, o.wx, o.wy, o.wz, o.xx, o.xy, o.xz, o.yy, o.yz,
        o.zz, p.w, p.x, p.y, p.z);
  }

  lemma NegScalar(w: real, x: real, y: real, z: real, m00: real, m01: real, m02: real, m10: real, m11: real, m12: real,
      m20: real, m21: real, m22: real)
    requires IsMatrixOf(-w, -x, -y, -z, m00, m01, m02, m10, m11, m12, m20, m21, m22)
    ensures IsMatrixOf(w, x, y, z, m00, m01, m02, m10, m11, m12, m20, m21, m22)
  {
  }

  lemma NegSameMatrix(q: Quat)
    ensures QuatToRotMat(q.Neg()) == QuatToRotMat(q)
  {
    var m := QuatToRotMat(q.Neg());
    MatrixEntries(q.Neg(), m);
    NegScalar(q.w, q.x, q.y, q.z, m.r0.x, m.r0.y, m.r0.z, m.r1.x, m.r1.y, m.r1.z, m.r2.x, m.r2.y, m.r2.z);
    MatrixFromEntries(q, m);
  }

  ghost function PivotOf(b: Branch, q: Quat): real {
    match b case PivotW => q.w case PivotX => q.x case PivotY => q.y case PivotZ => q.z
  }

  lemma TwiceSquared(p: real, root: real)
    requires root == 2.0*p || root == -2.0*p
    ensures root * root == 4.0*(p*p)
  {
  }

  lemma PivotIsRootArgument(q: Quat, m: Mat3, o: Outer, p: real)
    requires o == OuterOf(m) && OuterMatches(q, o)
    requires p == PivotOf(BranchOf(m), q)
    ensures 4.0*(p*p) == RootArgument(m)
  {
  }

  lemma RootFromPivot(q: Quat, m: Mat3, o: Outer, p: real) returns (root: real)
    requires o == OuterOf(m) && OuterMatches(q, o) && p == PivotOf(BranchOf(m), q)
    ensures IsSqrt(root, RootArgument(m))
  {
    root := if p >= 0.0 then 2.0*p else -2.0*p;
    TwiceSquared(p, root);
    PivotIsRootArgument(q, m, o, p);
  }

  /** The matrix of a unit quaternion always has the root its conversion needs: twice a component. */
  lemma SomeRoot(q: Quat) returns (root: real)
    requires q.Unit()
    ensures IsSqrt(root, RootArgument(QuatToRotMat(q)))
  {
    var m := QuatToRotMat(q);
    OuterIffMatrix(q, m);
    root := RootFromPivot(q, m, OuterOf(m), PivotOf(BranchOf(m), q));
  }

  /** The sign is all that is lost: two unit quaternions have the same matrix iff they are equal up to sign. */
  lemma DoubleCover(p: Quat, q: Quat)
    requires p.Unit() && q.Unit()
    ensures QuatToRotMat(p) == QuatToRotMat(q) <==> p == q || p == q.Neg()
  {
    if QuatToRotMat(p) == QuatToRotMat(q) {
      var root := SomeRoot(q);
      QuaternionRoundTrip(p, root);
      QuaternionRoundTrip(q, root);
    } else if p == q.Neg() {
      NegSameMatrix(q);
    }
  }

  // ---------------------------------------------------------------------
  // Which quaternions give rotation matrices
  // ---------------------------------------------------------------------

  lemma FirstCofactor(w: real, x: real, y: real, z: real, a: real, e: real, f: real, h: real, i: real)
    requires UnitScalar(w, x, y, z) && a == Diag(w, x) && e == Diag(w, y) && i == Diag(w, z)
    requires f == Sum2(y, z, w, x) && h == Diff2(y, z, w, x)
    ensures e*i - f*h == a
  {
  }

  lemma SecondCofactor(w: real, x: real, y: real, z: real, b: real, d: real, f: real, g: real, i: real)
    requires UnitScalar(w, x, y, z) && b == Sum2(x, y, w, z) && d == Diff2(x, y, w, z) && i == Diag(w, z)
    requires f == Sum2(y, z, w, x) && g == Sum2(x, z, w, y)
    ensures f*g - d*i == b
  {
  }

  lemma ThirdCofactor(w: real, x: real, y: real, z: real, c: real, d: real, e: real, g: real, h: real)
    requires UnitScalar(w, x, y, z) && c == Diff2(x, z, w, y) && d == Diff2(x, y, w, z) && e == Diag(w, y)
    requires g == Sum2(x, z, w, y) && h == Diff2(y, z, w, x)
    ensures d*h - e*g == c
  {
  }

  lemma DetFromCofactors(a: real, b: real, c: real, d: real, e: real, f: real, g: real, h: real, i: real)
    requires a == e*i - f*h && b == f*g - d*i && c == d*h - e*g && a*a + b*b + c*c == 1.0
    ensures DetOne(a, b, c, d, e, f, g, h, i)
  {
  }

  lemma DeterminantScalar(w: real, x: real, y: real, z: real, a: real, b: real, c: real, d: real, e: real, f: real,
      g: real, h: real, i: real)
    requires UnitScalar(w, x, y, z) && IsMatrixOf(w, x, y, z, a, b, c, d, e, f, g, h, i)
    requires RowsOrthonormal(a, b, c, d, e, f, g, h, i)
    ensures DetOne(a, b, c, d, e, f, g, h, i)
  {
    FirstCofactor(w, x, y, z, a, e, f, h, i);
    SecondCofactor(w, x, y, z, b, d, f, g, i);
    ThirdCofactor(w, x, y, z, c, d, e, g, h);
    DetFromCofactors(a, b, c, d, e, f, g, h, i);
  }

  lemma EigenScalar(w: real, x: real, y: real, z: real, k: real, a: real, d: real, g: real)
    requires a == Diag(w, x) && d == Diff2(x, y, w, z) && g == Sum2(x, z, w, y)
    requires k == 2.0*(w*w + x*x + y*y + z*z) - 1.0
    ensures a*x + d*y + g*z == k*x
  {
  }

  /** A matrix with orthonormal rows keeps lengths, seen from its transpose. */
  lemma TransposeKeepsLength(x: real, y: real, z: real, u: real, v: real, t: real,
                             a: real, b: real, c: real, d: real, e: real, f: real, g: real, h: real, i: real)
    requires RowsOrthonormal(a, b, c, d, e, f, g, h, i)
    requires u == a*x + d*y + g*z && v == b*x + e*y + h*z && t == c*x + f*y + i*z
    ensures u*u + v*v + t*t == x*x + y*y + z*z
  {
  }

  lemma Stretched(x: real, y: real, z: real, s: real, k: real, q: real, u: real, v: real, t: real)
    requires s == x*x + y*y + z*z && q == k*k && u == k*x && v == k*y && t == k*z
    ensures u*u + v*v + t*t == q*s
  {
  }

  lemma CancelFactor(q: real, s: real)
    requires q*s == s && s != 0.0
    ensures q == 1.0
  {
  }

  lemma UnitRoot(k: real, q: real)
    requires q == k*k && q == 1.0
    ensures k == 1.0 || k == -1.0
  {
  }

  lemma SquareNonNegative(x: real)
    ensures x * x >= 0.0
  {
  }

  lemma StretchIsOne(x: real, y: real, z: real, s: real, k: real, n: real, w: real, u: real, v: real, t: real)
    requires u*u + v*v + t*t == x*x + y*y + z*z && u == k*x && v == k*y && t == k*z
    requires s == x*x + y*y + z*z && s != 0.0 && n == w*w + s && k == 2.0*n - 1.0
    ensures n == 1.0
  {
    Stretched(x, y, z, s, k, k*k, u, v, t);
    CancelFactor(k*k, s);
    UnitRoot(k, k*k);
    SquareNonNegative(x); SquareNonNegative(y); SquareNonNegative(z); SquareNonNegative(w);
  }

  
  lemma ScalarMatrixIsOne(w: real, t: real)
    requires t == 2.0*(w*w) - 1.0 && t*t == 1.0 && t*(t*t) == 1.0
    ensures w*w == 1.0
  {
  }

  lemma ZeroSquare(x: real, y: real, p: real)
    requires p == x*y && x == y
    ensures p >= 0.0 && (p == 0.0 ==> x == 0.0)
  {
  }

  lemma ZeroSquareOf(x: real, p: real)
    requires p == x*x
    ensures p >= 0.0 && (p == 0.0 ==> x == 0.0)
  {
    ZeroSquare(x, x, p);
  }

  lemma ZeroAxis(x: real, y: real, z: real, p: real, q: real, r: real)
    requires p == x*x && q == y*y && r == z*z && p + q + r == 0.0
    ensures x == 0.0 && y == 0.0 && z == 0.0
  {
    ZeroSquareOf(x, p); ZeroSquareOf(y, q); ZeroSquareOf(z, r);
  }

  /** The axis of a quaternion is an eigenvector of its matrix, so its length is kept. */
  lemma StretchedAxis(w: real, x: real, y: real, z: real, k: real, u: real, v: real, t: real,
                      a: real, b: real, c: real, d: real, e: real, f: real, g: real, h: real, i: real)
    requires IsMatrixOf(w, x, y, z, a, b, c, d, e, f, g, h, i) && RowsOrthonormal(a, b, c, d, e, f, g, h, i)
    requires k == 2.0*(w*w + x*x + y*y + z*z) - 1.0 && u == k*x && v == k*y && t == k*z
    ensures u*u + v*v + t*t == x*x + y*y + z*z
  {
    EigenScalar(w, x, y, z, k, a, d, g);
    EigenScalar(w, y, z, x, k, e, h, b);
    EigenScalar(w, z, x, y, k, i, c, f);
    TransposeKeepsLength(x, y, z, u, v, t, a, b, c, d, e, f, g, h, i);
  }

  lemma ScalarDiagonal(w: real, a: real, e: real, i: real, x: real, y: real, z: real)
    requires x == 0.0 && y == 0.0 && z == 0.0 && a == Diag(w, x) && e == Diag(w, y) && i == Diag(w, z)
    ensures a == 2.0*(w*w) - 1.0 && e == a && i == a
  {
  }

  lemma ScalarDeterminant(w: real, a: real, b: real, c: real, d: real, e: real, f: real, g: real, h: real, i: real,
      x: real, y: real, z: real)
    requires x == 0.0 && y == 0.0 && z == 0.0 && IsMatrixOf(w, x, y, z, a, b, c, d, e, f, g, h, i) && e == a && i == a
    requires RowsOrthonormal(a, b, c, d, e, f, g, h, i) && DetOne(a, b, c, d, e, f, g, h, i)
    ensures a*a == 1.0 && a*(a*a) == 1.0
  {
  }

  lemma RotationIsUnitScalar(w: real, x: real, y: real, z: real, s: real, k: real,
                             a: real, b: real, c: real, d: real, e: real, f: real, g: real, h: real, i: real)
    requires IsMatrixOf(w, x, y, z, a, b, c, d, e, f, g, h, i)
    requires RowsOrthonormal(a, b, c, d, e, f, g, h, i) && DetOne(a, b, c, d, e, f, g, h, i)
    requires s == x*x + y*y + z*z && k == 2.0*(w*w + x*x + y*y + z*z) - 1.0
    ensures w*w + s == 1.0
  {
    if s == 0.0 {
      ZeroAxis(x, y, z, x*x, y*y, z*z);
      ScalarDiagonal(w, a, e, i, x, y, z);
      ScalarDeterminant(w, a, b, c, d, e, f, g, h, i, x, y, z);
      ScalarMatrixIsOne(w, a);
    } else {
      StretchedAxis(w, x, y, z, k, k*x, k*y, k*z, a, b, c, d, e, f, g, h, i);
      StretchIsOne(x, y, z, s, k, w*w + s, w, k*x, k*y, k*z);
    }
  }

  lemma RotationIsUnitNorm(w: real, x: real, y: real, z: real, a: real, b: real, c: real, d: real, e: real, f: real,
      g: real, h: real, i: real)
    requires IsMatrixOf(w, x, y, z, a, b, c, d, e, f, g, h, i)
    requires RowsOrthonormal(a, b, c, d, e, f, g, h, i) && DetOne(a, b, c, d, e, f, g, h, i)
    ensures UnitScalar(w, x, y, z)
  {
    RotationIsUnitScalar(w, x, y, z, x*x + y*y + z*z, 2.0*(w*w + x*x + y*y + z*z) - 1.0, a, b, c, d, e, f, g, h, i);
  }

  lemma RotationIsUnit(q: Quat, m: Mat3)
    requires m == QuatToRotMat(q) && IsRotation(m)
    ensures q.Unit()
  {
    MatrixEntries(q, m);
    RotationEntries(m);
    RotationIsUnitNorm(q.w, q.x, q.y, q.z, m.r0.x, m.r0.y, m.r0.z, m.r1.x, m.r1.y, m.r1.z, m.r2.x, m.r2.y, m.r2.z);
    UnitComponents(q);
  }

  lemma UnitIsRotation(q: Quat, m: Mat3)
    requires m == QuatToRotMat(q) && q.Unit()
    ensures IsRotation(m)
  {
    MatrixEntries(q, m);
    UnitComponents(q);
    UnitOrthogonal(q);
    OrthogonalRows(m);
    DeterminantScalar(q.w, q.x, q.y, q.z, m.r0.x, m.r0.y, m.r0.z, m.r1.x, m.r1.y, m.r1.z, m.r2.x, m.r2.y, m.r2.z);
    DetFromCross(m);
  }

  /** Exactly the unit quaternions give rotation matrices. */
  lemma RotationIffUnit(q: Quat)
    ensures IsRotation(QuatToRotMat(q)) <==> q.Unit()
  {
    var m := QuatToRotMat(q);
    UnitComponents(q);
    if IsRotation(m) {
      RotationIsUnit(q, m);
    }
    if q.Unit() {
      UnitIsRotation(q, m);
    }
  }
}
