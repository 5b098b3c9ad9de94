/** The quaternion product, its three representations, and its matrix. */
module QuaternionProduct {
  import opened Rotations

  /** The three representations of one product agree, for all quaternions. */
  lemma ProductRepresentations(q2: Quat, q1: Quat)
    ensures QuatL(q2).Apply(q1) == QuatMult(q2, q1) == QuatR(q1).Apply(q2)
  {
  }

  // The proofs below work on scalars: for each identity one lemma expands the
  // side built from the product's components, another the other side.

  ghost predicate IsProduct(w: real, x: real, y: real, z: real, a: real, b: real, c: real, d: real,
                            p: real, q: real, r: real, s: real)
  {
    && p == a*w - (b*x + c*y + d*z)
    && q == a*x + w*b + (c*z - d*y)
    && r == a*y + w*c + (d*x - b*z)
    && s == a*z + w*d + (b*y - c*x)
  }

  lemma ProductComponents(q2: Quat, q1: Quat, q: Quat)
    requires q == QuatMult(q2, q1)
    ensures IsProduct(q2.w, q2.x, q2.y, q2.z, q1.w, q1.x, q1.y, q1.z, q.w, q.x, q.y, q.z)
  {
  }

  lemma NormProductLeft(w: real, x: real, y: real, z: real, a: real, b: real, c: real, d: real,
                        p: real, q: real, r: real, s: real)
    requires IsProduct(w, x, y, z, a, b, c, d, p, q, r, s)
    ensures p*p + q*q + r*r + s*s == (w*w + x*x + y*y + z*z)*(a*a + b*b + c*c + d*d)
  {
  }

  ghost predicate IsNorm(w: real, x: real, y: real, z: real, n: real) { n == w*w + x*x + y*y + z*z }

  lemma NormProductRight(w: real, x: real, y: real, z: real, a: real, b: real, c: real, d: real, n2: real, n1: real)
    requires n2 == w*w + x*x + y*y + z*z && n1 == a*a + b*b + c*c + d*d
    ensures n2*n1 == (w*w + x*x + y*y + z*z)*(a*a + b*b + c*c + d*d)
  {
  }

  lemma NormProductScalar(w: real, x: real, y: real, z: real, a: real, b: real, c: real, d: real,
                          p: real, q: real, r: real, s: real, n2: real, n1: real)
    requires IsProduct(w, x, y, z, a, b, c, d, p, q, r, s)
    requires IsNorm(w, x, y, z, n2) && IsNorm(a, b, c, d, n1)
    ensures IsNorm(p, q, r, s, n2*n1)
  {
    NormProductLeft(w, x, y, z, a, b, c, d, p, q, r, s);
    NormProductRight(w, x, y, z, a, b, c, d, n2, n1);
  }

  lemma NormUnfold(q: Quat)
    ensures IsNorm(q.w, q.x, q.y, q.z, q.NormSq())
  {
  }

  lemma NormFold(q: Quat, n: real)
    requires IsNorm(q.w, q.x, q.y, q.z, n)
    ensures q.NormSq() == n
  {
  }

  lemma NormOfComponents(q2: Quat, q1: Quat, q: Quat, n2: real, n1: real)
    requires IsProduct(q2.w, q2.x, q2.y, q2.z, q1.w, q1.x, q1.y, q1.z, q.w, q.x, q.y, q.z)
    requires IsNorm(q2.w, q2.x, q2.y, q2.z, n2) && IsNorm(q1.w, q1.x, q1.y, q1.z, n1)
    ensures q.NormSq() == n2 * n1
  {
    NormProductScalar(q2.w, q2.x, q2.y, q2.z, q1.w, q1.x, q1.y, q1.z, q.w, q.x, q.y, q.z, n2, n1);
    NormFold(q, n2*n1);
  }

  lemma NormOfComponentsUnfolded(q2: Quat, q1: Quat, q: Quat, n2: real, n1: real)
    requires q == QuatMult(q2, q1) && n2 == q2.NormSq() && n1 == q1.NormSq()
    ensures q.NormSq() == n2 * n1
  {
    ProductComponents(q2, q1, q);
    NormUnfold(q2); NormUnfold(q1);
    NormOfComponents(q2, q1, q, n2, n1);
  }

  /** The norm is multiplicative. */
  lemma NormOfProduct(q2: Quat, q1: Quat)
    ensures QuatMult(q2, q1).NormSq() == q2.NormSq() * q1.NormSq()
  {
    NormOfComponentsUnfolded(q2, q1, QuatMult(q2, q1), q2.NormSq(), q1.NormSq());
  }

  lemma DiagonalLeft(w: real, x: real, y: real, z: real, a: real, b: real, c: real, d: real,
                     p: real, q: real, r: real, s: real)
    requires IsProduct(w, x, y, z, a, b, c, d, p, q, r, s)
    ensures p*p + q*q - r*r - s*s == (w*w + x*x - y*y - z*z)*(a*a + b*b - c*c - d*d)
        + (2.0*(x*y + w*z))*(2.0*(b*c - a*d)) + (2.0*(x*z - w*y))*(2.0*(b*d + a*c))
  {
  }

  lemma DiagonalRight(w: real, x: real, y: real, z: real, a: real, b: real, c: real, d: real,
                      m0: real, m1: real, m2: real, n0: real, n1: real, n2: real)
    requires w*w + x*x + y*y + z*z == 1.0 && a*a + b*b + c*c + d*d == 1.0
    requires m0 == Diag(w, x) && m1 == Sum2(x, y, w, z) && m2 == Diff2(x, z, w, y)
    requires n0 == Diag(a, b) && n1 == Diff2(b, c, a, d) && n2 == Sum2(b, d, a, c)
    ensures m0*n0 + m1*n1 + m2*n2 == (w*w + x*x - y*y - z*z)*(a*a + b*b - c*c - d*d)
        + (2.0*(x*y + w*z))*(2.0*(b*c - a*d)) + (2.0*(x*z - w*y))*(2.0*(b*d + a*c))
  {
  }

  /** Entry (0, 0) of the matrix of a product, and by rotating the axes (1, 1) and (2, 2). */
  lemma DiagonalScalar(w: real, x: real, y: real, z: real, a: real, b: real, c: real, d: real,
                       p: real, q: real, r: real, s: real,
                       m0: real, m1: real, m2: real, n0: real, n1: real, n2: real)
    requires IsProduct(w, x, y, z, a, b, c, d, p, q, r, s)
    requires w*w + x*x + y*y + z*z == 1.0 && a*a + b*b + c*c + d*d == 1.0
    requires p*p + q*q + r*r + s*s == 1.0
    requires m0 == Diag(w, x) && m1 == Sum2(x, y, w, z) && m2 == Diff2(x, z, w, y)
    requires n0 == Diag(a, b) && n1 == Diff2(b, c, a, d) && n2 == Sum2(b, d, a, c)
    ensures Diag(p, q) == m0*n0 + m1*n1 + m2*n2
  {
    DiagonalLeft(w, x, y, z, a, b, c, d, p, q, r, s);
    DiagonalRight(w, x, y, z, a, b, c, d, m0, m1, m2, n0, n1, n2);
  }

  lemma UpperLeft(w: real, x: real, y: real, z: real, a: real, b: real, c: real, d: real,
                  p: real, q: real, r: real, s: real)
    requires IsProduct(w, x, y, z, a, b, c, d, p, q, r, s)
    ensures 2.0*(q*r + p*s) == (w*w + x*x - y*y - z*z)*(2.0*(b*c + a*d)) + (2.0*(x*y + w*z))*(a*a - b*b + c*c - d*d)
        + (2.0*(x*z - w*y))*(2.0*(c*d - a*b))
  {
  }

  lemma UpperRight(w: real, x: real, y: real, z: real, a: real, b: real, c: real, d: real,
                   m0: real, m1: real, m2: real, n0: real, n1: real, n2: real)
    requires w*w + x*x + y*y + z*z == 1.0 && a*a + b*b + c*c + d*d == 1.0
    requires m0 == Diag(w, x) && m1 == Sum2(x, y, w, z) && m2 == Diff2(x, z, w, y)
    requires n0 == Sum2(b, c, a, d) && n1 == Diag(a, c) && n2 == Diff2(c, d, a, b)
    ensures m0*n0 + m1*n1 + m2*n2 == (w*w + x*x - y*y - z*z)*(2.0*(b*c + a*d))
        + (2.0*(x*y + w*z))*(a*a - b*b + c*c - d*d) + (2.0*(x*z - w*y))*(2.0*(c*d - a*b))
  {
  }

  /** Entry (0, 1), and by rotating the axes (1, 2) and (2, 0). */
  lemma UpperScalar(w: real, x: real, y: real, z: real, a: real, b: real, c: real, d: real,
                    p: real, q: real, r: real, s: real,
                    m0: real, m1: real, m2: real, n0: real, n1: real, n2: real)
    requires IsProduct(w, x, y, z, a, b, c, d, p, q, r, s)
    requires w*w + x*x + y*y + z*z == 1.0 && a*a + b*b + c*c + d*d == 1.0
    requires p*p + q*q + r*r + s*s == 1.0
    requires m0 == Diag(w, x) && m1 == Sum2(x, y, w, z) && m2 == Diff2(x, z, w, y)
    requires n0 == Sum2(b, c, a, d) && n1 == Diag(a, c) && n2 == Diff2(c, d, a, b)
    ensures Sum2(q, r, p, s) == m0*n0 + m1*n1 + m2*n2
  {
    UpperLeft(w, x, y, z, a, b, c, d, p, q, r, s);
    UpperRight(w, x, y, z, a, b, c, d, m0, m1, m2, n0, n1, n2);
  }

  lemma LowerLeft(w: real, x: real, y: real, z: real, a: real, b: real, c: real, d: real,
                  p: real, q: real, r: real, s: real)
    requires IsProduct(w, x, y, z, a, b, c, d, p, q, r, s)
    ensures 2.0*(q*r - p*s) == (2.0*(x*y - w*z))*(a*a + b*b - c*c - d*d) + (w*w - x*x + y*y - z*z)*(2.0*(b*c - a*d))
        + (2.0*(y*z + w*x))*(2.0*(b*d + a*c))
  {
  }

  lemma LowerRight(w: real, x: real, y: real, z: real, a: real, b: real, c: real, d: real,
                   m0: real, m1: real, m2: real, n0: real, n1: real, n2: real)
    requires w*w + x*x + y*y + z*z == 1.0 && a*a + b*b + c*c + d*d == 1.0
    requires m0 == Diff2(x, y, w, z) && m1 == Diag(w, y) && m2 == Sum2(y, z, w, x)
    requires n0 == Diag(a, b) && n1 == Diff2(b, c, a, d) && n2 == Sum2(b, d, a, c)
    ensures m0*n0 + m1*n1 + m2*n2 == (2.0*(x*y - w*z))*(a*a + b*b - c*c - d*d)
        + (w*w - x*x + y*y - z*z)*(2.0*(b*c - a*d)) + (2.0*(y*z + w*x))*(2.0*(b*d + a*c))
  {
  }

  /** Entry (1, 0), and by rotating the axes (2, 1) and (0, 2). */
  lemma LowerScalar(w: real, x: real, y: real, z: real, a: real, b: real, c: real, d: real,
                    p: real, q: real, r: real, s: real,
                    m0: real, m1: real, m2: real, n0: real, n1: real, n2: real)
    requires IsProduct(w, x, y, z, a, b, c, d, p, q, r, s)
    requires w*w + x*x + y*y + z*z == 1.0 && a*a + b*b + c*c + d*d == 1.0
    requires p*p + q*q + r*r + s*s == 1.0
    requires m0 == Diff2(x, y, w, z) && m1 == Diag(w, y) && m2 == Sum2(y, z, w, x)
    requires n0 == Diag(a, b) && n1 == Diff2(b, c, a, d) && n2 == Sum2(b, d, a, c)
    ensures Diff2(q, r, p, s) == m0*n0 + m1*n1 + m2*n2
  {
    LowerLeft(w, x, y, z, a, b, c, d, p, q, r, s);
    LowerRight(w, x, y, z, a, b, c, d, m0, m1, m2, n0, n1, n2);
  }

  /** Where every entry is as in a matrix product, the matrix is the product. */
  lemma TimesEntries(m: Mat3, n: Mat3, e: Mat3)
    requires e.r0.x == m.r0.x*n.r0.x + m.r0.y*n.r1.x + m.r0.z*n.r2.x
    requires e.r0.y == m.r0.x*n.r0.y + m.r0.y*n.r1.y + m.r0.z*n.r2.y
    requires e.r0.z == m.r0.x*n.r0.z + m.r0.y*n.r1.z + m.r0.z*n.r2.z
    requires e.r1.x == m.r1.x*n.r0.x + m.r1.y*n.r1.x + m.r1.z*n.r2.x
    requires e.r1.y == m.r1.x*n.r0.y + m.r1.y*n.r1.y + m.r1.z*n.r2.y
    requires e.r1.z == m.r1.x*n.r0.z + m.r1.y*n.r1.z + m.r1.z*n.r2.z
    requires e.r2.x == m.r2.x*n.r0.x + m.r2.y*n.r1.x + m.r2.z*n.r2.x
    requires e.r2.y == m.r2.x*n.r0.y + m.r2.y*n.r1.y + m.r2.z*n.r2.y
    requires e.r2.z == m.r2.x*n.r0.z + m.r2.y*n.r1.z + m.r2.z*n.r2.z
    ensures e == m.Times(n)
  {
  }

  /** The entries of a quaternion's matrix, row by row. */
  ghost predicate IsMatrixOf(w: real, x: real, y: real, z: real,
                             m00: real, m01: real, m02: real, m10: real, m11: real, m12: real, m20: real, m21: real,
                                 m22: real)
  {
    && m00 == Diag(w, x) && m01 == Sum2(x, y, w, z) && m02 == Diff2(x, z, w, y)
    && m10 == Diff2(x, y, w, z) && m11 == Diag(w, y) && m12 == Sum2(y, z, w, x)
    && m20 == Sum2(x, z, w, y) && m21 == Diff2(y, z, w, x) && m22 == Diag(w, z)
  }

  ghost predicate UnitScalar(w: real, x: real, y: real, z: real) { w*w + x*x + y*y + z*z == 1.0 }

  lemma MatrixEntries(q: Quat, m: Mat3)
    requires m == QuatToRotMat(q)
    ensures IsMatrixOf(q.w, q.x, q.y, q.z, m.r0.x, m.r0.y, m.r0.z, m.r1.x, m.r1.y, m.r1.z, m.r2.x, m.r2.y, m.r2.z)
  {
  }

  lemma UnitComponents(q: Quat)
    ensures q.Unit() <==> UnitScalar(q.w, q.x, q.y, q.z)
  {
  }

  lemma MatrixProductScalar(w: real, x: real, y: real, z: real, a: real, b: real, c: real, d: real,
                            p: real, q: real, r: real, s: real,
                            m00: real, m01: real, m02: real, m10: real, m11: real, m12: real, m20: real, m21: real,
                                m22: real,
                            n00: real, n01: real, n02: real, n10: real, n11: real, n12: real, n20: real, n21: real,
                                n22: real,
                            e00: real, e01: real, e02: real, e10: real, e11: real, e12: real, e20: real, e21: real,
                                e22: real)
    requires IsProduct(w, x, y, z, a, b, c, d, p, q, r, s)
    requires UnitScalar(w, x, y, z) && UnitScalar(a, b, c, d) && UnitScalar(p, q, r, s)
    requires IsMatrixOf(w, x, y, z, m00, m01, m02, m10, m11, m12, m20, m21, m22)
    requires IsMatrixOf(a, b, c, d, n00, n01, n02, n10, n11, n12, n20, n21, n22)
    requires IsMatrixOf(p, q, r, s, e00, e01, e02, e10, e11, e12, e20, e21, e22)
    ensures e00 == m00*n00 + m01*n10 + m02*n20
    ensures e01 == m00*n01 + m01*n11 + m02*n21
    ensures e02 == m00*n02 + m01*n12 + m02*n22
    ensures e10 == m10*n00 + m11*n10 + m12*n20
    ensures e11 == m10*n01 + m11*n11 + m12*n21
    ensures e12 == m10*n02 + m11*n12 + m12*n22
    ensures e20 == m20*n00 + m21*n10 + m22*n20
    ensures e21 == m20*n01 + m21*n11 + m22*n21
    ensures e22 == m20*n02 + m21*n12 + m22*n22
  {
    DiagonalScalar(w, x, y, z, a, b, c, d, p, q, r, s, m00, m01, m02, n00, n10, n20);
    UpperScalar(w, x, y, z, a, b, c, d, p, q, r, s, m00, m01, m02, n01, n11, n21);
    LowerScalar(w, z, x, y, a, d, b, c, p, s, q, r, m02, m00, m01, n22, n02, n12);
    LowerScalar(w, x, y, z, a, b, c, d, p, q, r, s, m10, m11, m12, n00, n10, n20);
    DiagonalScalar(w, y, z, x, a, c, d, b, p, r, s, q, m11, m12, m10, n11, n21, n01);
    UpperScalar(w, y, z, x, a, c, d, b, p, r, s, q, m11, m12, m10, n12, n22, n02);
    UpperScalar(w, z, x, y, a, d, b, c, p, s, q, r, m22, m20, m21, n20, n00, n10);
    LowerScalar(w, y, z, x, a, c, d, b, p, r, s, q, m21, m22, m20, n11, n21, n01);
    DiagonalScalar(w, z, x, y, a, d, b, c, p, s, q, r, m22, m20, m21, n22, n02, n12);
  }

  lemma MatrixProduct(q2: Quat, q1: Quat, q: Quat, m: Mat3, n: Mat3, e: Mat3)
    requires IsProduct(q2.w, q2.x, q2.y, q2.z, q1.w, q1.x, q1.y, q1.z, q.w, q.x, q.y, q.z)
    requires UnitScalar(q2.w, q2.x, q2.y, q2.z) && UnitScalar(q1.w, q1.x, q1.y, q1.z) && UnitScalar(q.w, q.x, q.y, q.z)
    requires IsMatrixOf(q2.w, q2.x, q2.y, q2.z, m.r0.x, m.r0.y, m.r0.z, m.r1.x, m.r1.y, m.r1.z, m.r2.x, m.r2.y, m.r2.z)
    requires IsMatrixOf(q1.w, q1.x, q1.y, q1.z, n.r0.x, n.r0.y, n.r0.z, n.r1.x, n.r1.y, n.r1.z, n.r2.x, n.r2.y, n.r2.z)
    requires IsMatrixOf(q.w, q.x, q.y, q.z, e.r0.x, e.r0.y, e.r0.z, e.r1.x, e.r1.y, e.r1.z, e.r2.x, e.r2.y, e.r2.z)
    ensures e == m.Times(n)
  {
    MatrixProductScalar(q2.w, q2.x, q2.y, q2.z, q1.w, q1.x, q1.y, q1.z, q.w, q.x, q.y, q.z,
                        m.r0.x, m.r0.y, m.r0.z, m.r1.x, m.r1.y, m.r1.z, m.r2.x, m.r2.y, m.r2.z,
                        n.r0.x, n.r0.y, n.r0.z, n.r1.x, n.r1.y, n.r1.z, n.r2.x, n.r2.y, n.r2.z,
                        e.r0.x, e.r0.y, e.r0.z, e.r1.x, e.r1.y, e.r1.z, e.r2.x, e.r2.y, e.r2.z);
    TimesEntries(m, n, e);
  }

  /** Main result: on unit quaternions the conversion turns products into matrix products. */
  lemma RotMatOfProduct(q2: Quat, q1: Quat)
    requires q2.Unit() && q1.Unit()
    ensures QuatMult(q2, q1).Unit()
    ensures QuatToRotMat(QuatMult(q2, q1)) == QuatToRotMat(q2).Times(QuatToRotMat(q1))
  {
    NormOfProduct(q2, q1);
    var q := QuatMult(q2, q1);
    var m, n, e := QuatToRotMat(q2), QuatToRotMat(q1), QuatToRotMat(q);
    ProductComponents(q2, q1, q);
    UnitComponents(q2); UnitComponents(q1); UnitComponents(q);
    MatrixEntries(q2, m); MatrixEntries(q1, n); MatrixEntries(q, e);
    MatrixProduct(q2, q1, q, m, n, e);
  }

  lemma IdentityScalar(w: real, x: real, y: real, z: real, p: real, q: real, r: real, s: real)
    requires UnitScalar(w, x, y, z) && (IsProduct(w, x, y, z, w, -x, -y, -z, p, q, r, s)
        || IsProduct(w, -x, -y, -z, w, x, y, z, p, q, r, s))
    ensures p == 1.0 && q == 0.0 && r == 0.0 && s == 0.0
  {
  }

  /** The inverse of a unit quaternion undoes it on both sides. */
  lemma InverseUndoes(q: Quat)
    requires q.Unit()
    ensures QuatMult(q, QuatInverse(q)) == ONE == QuatMult(QuatInverse(q), q)
  {
    var i := QuatInverse(q);
    var l, r := QuatMult(q, i), QuatMult(i, q);
    UnitComponents(q);
    ProductComponents(q, i, l); ProductComponents(i, q, r);
    IdentityScalar(q.w, q.x, q.y, q.z, l.w, l.x, l.y, l.z);
    IdentityScalar(q.w, q.x, q.y, q.z, r.w, r.x, r.y, r.z);
  }

  lemma TransposeScalar(w: real, x: real, y: real, z: real,
                        m00: real, m01: real, m02: real, m10: real, m11: real, m12: real, m20: real, m21: real,
                            m22: real,
                        n00: real, n01: real, n02: real, n10: real, n11: real, n12: real, n20: real, n21: real,
                            n22: real)
    requires IsMatrixOf(w, x, y, z, m00, m01, m02, m10, m11, m12, m20, m21, m22)
    requires IsMatrixOf(w, -x, -y, -z, n00, n01, n02, n10, n11, n12, n20, n21, n22)
    ensures m00 == n00 && m01 == n10 && m02 == n20
    ensures m10 == n01 && m11 == n11 && m12 == n21
    ensures m20 == n02 && m21 == n12 && m22 == n22
  {
  }

  /** The inverse has the transposed matrices, in all three representations. */
  lemma InverseTransposes(q: Quat)
    ensures QuatToRotMat(QuatInverse(q)) == QuatToRotMat(q).Transpose()
    ensures QuatL(QuatInverse(q)) == QuatL(q).Transpose()
    ensures QuatR(QuatInverse(q)) == QuatR(q).Transpose()
  {
    var m, n := QuatToRotMat(q), QuatToRotMat(QuatInverse(q));
    MatrixEntries(q, m); MatrixEntries(QuatInverse(q), n);
    TransposeScalar(q.w, q.x, q.y, q.z, m.r0.x, m.r0.y, m.r0.z, m.r1.x, m.r1.y, m.r1.z, m.r2.x, m.r2.y, m.r2.z,
                    n.r0.x, n.r0.y, n.r0.z, n.r1.x, n.r1.y, n.r1.z, n.r2.x, n.r2.y, n.r2.z);
  }

  lemma InverseUnit(q: Quat)
    requires q.Unit()
    ensures QuatInverse(q).Unit()
  {
  }

  /** The matrix of a unit quaternion is orthogonal. */
  lemma UnitOrthogonal(q: Quat)
    requires q.Unit()
    ensures Orthogonal(QuatToRotMat(q))
  {
    InverseUnit(q);
    RotMatOfProduct(q, QuatInverse(q));
    InverseUndoes(q);
    InverseTransposes(q);
  }

  // Roll, pitch and yaw

  lemma AxisRotations(a: Angle)
    requires a.Valid()
    ensures Quat(a.hc, a.hs, 0.0, 0.0).Unit() && QuatToRotMat(Quat(a.hc, a.hs, 0.0, 0.0)) == RotX(a)
    ensures Quat(a.hc, 0.0, a.hs, 0.0).Unit() && QuatToRotMat(Quat(a.hc, 0.0, a.hs, 0.0)) == RotY(a)
    ensures Quat(a.hc, 0.0, 0.0, a.hs).Unit() && QuatToRotMat(Quat(a.hc, 0.0, 0.0, a.hs)) == RotZ(a)
  {
  }

  lemma RpyFactors(roll: Angle, pitch: Angle, yaw: Angle)
    ensures RpyToQuat(roll, pitch, yaw)
         == QuatMult(QuatMult(Quat(roll.hc, roll.hs, 0.0, 0.0), Quat(pitch.hc, 0.0, pitch.hs, 0.0)),
             Quat(yaw.hc, 0.0, 0.0, yaw.hs))
  {
  }

  /**
   Main result: for all angles the roll-pitch-yaw quaternion is a unit, and its
   matrix is the product of the three axis rotations.
   */
  lemma RpyAgree(roll: Angle, pitch: Angle, yaw: Angle)
    requires roll.Valid() && pitch.Valid() && yaw.Valid()
    ensures RpyToQuat(roll, pitch, yaw).Unit()
    ensures QuatToRotMat(RpyToQuat(roll, pitch, yaw)) == RpyToRot(roll, pitch, yaw)
  {
    var qx, qy, qz := Quat(roll.hc, roll.hs, 0.0, 0.0), Quat(pitch.hc, 0.0, pitch.hs, 0.0),
        Quat(yaw.hc, 0.0, 0.0, yaw.hs);
    AxisRotations(roll); AxisRotations(pitch); AxisRotations(yaw);
    RotMatOfProduct(qx, qy);
    RotMatOfProduct(QuatMult(qx, qy), qz);
    RpyFactors(roll, pitch, yaw);
  }
}
