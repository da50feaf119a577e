/** Homogeneous 2D transforms shared by the tutorials: 2-vectors, 3x3 matrices
    over the reals, the scale/rotate/translate builders, and the trigonometric
    functions of the host maths library, which are passed in as opaque values. */
module Affine {

  datatype Vec2 = Vec2(x: real, y: real)

  datatype Vec3 = Vec3(x: real, y: real, z: real)

  /** A 3x3 matrix, stored row by row: `m12` is row 1, column 2. */
  datatype Mat3 = Mat3(m00: real, m01: real, m02: real,
                       m10: real, m11: real, m12: real,
                       m20: real, m21: real, m22: real)

  /** The host's `cos` and `sin`, which the model never evaluates. */
  datatype Trig = Trig(cos: real -> real, sin: real -> real)

  /** cos and sin, applied. */
  function Cos(t: Trig, theta: real): real { t.cos(theta) }

  function Sin(t: Trig, theta: real): real { t.sin(theta) }

  /** The one fact about the trigonometric functions that the proofs use. */
  predicate Pythagorean(t: Trig, theta: real) {
    Cos(t, theta) * Cos(t, theta) + Sin(t, theta) * Sin(t, theta) == 1.0
  }

  function Add(a: Vec2, b: Vec2): Vec2 { Vec2(a.x + b.x, a.y + b.y) }

  function ScaleBy(a: Vec2, k: real): Vec2 { Vec2(a.x * k, a.y * k) }

  function Dot(a: Vec2, b: Vec2): real { a.x * b.x + a.y * b.y }

  /** A matrix given the way a glm::mat3 initialiser list gives it:
      nine values filling column 0, then column 1, then column 2. */
  function FromColumns(a: real, b: real, c: real,
                       d: real, e: real, f: real,
                       g: real, h: real, i: real): (m: Mat3)
    ensures m.m00 == a && m.m10 == b && m.m20 == c
    ensures m.m01 == d && m.m11 == e && m.m21 == f
    ensures m.m02 == g && m.m12 == h && m.m22 == i
  {
    Mat3(a, d, g, b, e, h, c, f, i)
  }

  function Mul(a: Mat3, b: Mat3): Mat3 {
    Mat3(a.m00 * b.m00 + a.m01 * b.m10 + a.m02 * b.m20,
         a.m00 * b.m01 + a.m01 * b.m11 + a.m02 * b.m21,
         a.m00 * b.m02 + a.m01 * b.m12 + a.m02 * b.m22,
         a.m10 * b.m00 + a.m11 * b.m10 + a.m12 * b.m20,
         a.m10 * b.m01 + a.m11 * b.m11 + a.m12 * b.m21,
         a.m10 * b.m02 + a.m11 * b.m12 + a.m12 * b.m22,
         a.m20 * b.m00 + a.m21 * b.m10 + a.m22 * b.m20,
         a.m20 * b.m01 + a.m21 * b.m11 + a.m22 * b.m21,
         a.m20 * b.m02 + a.m21 * b.m12 + a.m22 * b.m22)
  }

  /** The matrix applied to a column vector. */
  function Apply(m: Mat3, v: Vec3): Vec3 {
    Vec3(m.m00 * v.x + m.m01 * v.y + m.m02 * v.z,
         m.m10 * v.x + m.m11 * v.y + m.m12 * v.z,
         m.m20 * v.x + m.m21 * v.y + m.m22 * v.z)
  }

  /** The homogeneous point (p.x, p.y, 1). */
  function Point(p: Vec2): Vec3 { Vec3(p.x, p.y, 1.0) }

  const Identity: Mat3 := Mat3(1.0, 0.0, 0.0, 0.0, 1.0, 0.0, 0.0, 0.0, 1.0)

  function Diag(a: real, b: real): Mat3 {
    FromColumns(a, 0.0, 0.0, 0.0, b, 0.0, 0.0, 0.0, 1.0)
  }

  /** The `Scale` matrix the object updates build from `scaling`. */
  function Scale(s: Vec2): Mat3 { Diag(s.x, s.y) }

  /** The `Rotate` matrix the object updates build: its initialiser list is
      cos, sin, 0, -sin, cos, 0, 0, 0, 1, read column by column. */
  function Rotate(c: real, s: real): Mat3 {
    FromColumns(c, s, 0.0, -s, c, 0.0, 0.0, 0.0, 1.0)
  }

  /** The `Translate` matrix: the position sits in the third column. */
  function Translate(p: Vec2): Mat3 {
    FromColumns(1.0, 0.0, 0.0, 0.0, 1.0, 0.0, p.x, p.y, 1.0)
  }

  /** The bottom row of an affine matrix. */
  predicate IsAffine(m: Mat3) { m.m20 == 0.0 && m.m21 == 0.0 && m.m22 == 1.0 }

  /** Composing matrices composes their actions on vectors. */
  lemma ApplyMul(a: Mat3, b: Mat3, v: Vec3)
    ensures Apply(Mul(a, b), v) == Apply(a, Apply(b, v))
  {
    RowTimesColumns(a.m00, a.m01, a.m02, b, v);
    RowTimesColumns(a.m10, a.m11, a.m12, b, v);
    RowTimesColumns(a.m20, a.m21, a.m22, b, v);
  }

  /** One row of `ApplyMul`: distributing a row of `a` over `b v`. */
  lemma RowTimesColumns(r0: real, r1: real, r2: real, b: Mat3, v: Vec3)
    ensures (r0 * b.m00 + r1 * b.m10 + r2 * b.m20) * v.x
          + (r0 * b.m01 + r1 * b.m11 + r2 * b.m21) * v.y
          + (r0 * b.m02 + r1 * b.m12 + r2 * b.m22) * v.z
         == r0 * (b.m00 * v.x + b.m01 * v.y + b.m02 * v.z)
          + r1 * (b.m10 * v.x + b.m11 * v.y + b.m12 * v.z)
          + r2 * (b.m20 * v.x + b.m21 * v.y + b.m22 * v.z)
  {
  }

  /** `Rotate` is the standard counter-clockwise rotation: (1, 0) goes to
      (c, s) and (0, 1) goes to (-s, c). */
  lemma RotateCounterClockwise(c: real, s: real)
    ensures Apply(Rotate(c, s), Vec3(1.0, 0.0, 0.0)) == Vec3(c, s, 0.0)
    ensures Apply(Rotate(c, s), Vec3(0.0, 1.0, 0.0)) == Vec3(-s, c, 0.0)
  {
  }

  /** Translate(p) Rotate(c, s) Scale(sc) in closed form: the columns are the
      scaled, rotated axes and the position. */
  lemma TrsClosedForm(p: Vec2, c: real, s: real, sc: Vec2)
    ensures Mul(Mul(Translate(p), Rotate(c, s)), Scale(sc))
         == Mat3(c * sc.x, -s * sc.y, p.x,
                 s * sc.x,  c * sc.y, p.y,
                 0.0, 0.0, 1.0)
  {
  }
}
