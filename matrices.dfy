/**
 * 4x4 matrices (Matrix4.kt) over exact real numbers. Entries are named m<row><column>, as in the
 * source. `TimesVector` multiplies a column vector (`times(Vector4)`); `RowTimes` multiplies a row
 * vector from the left, which is what the rasteriser's `Vertex.project` does.
 * The trigonometric functions and the reciprocal square root are parameters.
 */
module Matrices {
  import opened Vectors

  datatype Matrix4 = Matrix4(
    m00: real, m01: real, m02: real, m03: real,
    m10: real, m11: real, m12: real, m13: real,
    m20: real, m21: real, m22: real, m23: real,
    m30: real, m31: real, m32: real, m33: real)

  const IDENTITY: Matrix4 := Matrix4(
    1.0, 0.0, 0.0, 0.0,
    0.0, 1.0, 0.0, 0.0,
    0.0, 0.0, 1.0, 0.0,
    0.0, 0.0, 0.0, 1.0)

  /** `times(Vector4)`: the matrix applied to a column vector. */
  function TimesVector(a: Matrix4, v: Vector4): Vector4 {
    Vector4(
      a.m00 * v.x + a.m01 * v.y + a.m02 * v.z + a.m03 * v.w,
      a.m10 * v.x + a.m11 * v.y + a.m12 * v.z + a.m13 * v.w,
      a.m20 * v.x + a.m21 * v.y + a.m22 * v.z + a.m23 * v.w,
      a.m30 * v.x + a.m31 * v.y + a.m32 * v.z + a.m33 * v.w)
  }

  /** A row vector times the matrix: `Vertex.project` in the rasteriser. */
  function RowTimes(v: Vector4, m: Matrix4): Vector4 {
    Vector4(
      v.x * m.m00 + v.y * m.m10 + v.z * m.m20 + v.w * m.m30,
      v.x * m.m01 + v.y * m.m11 + v.z * m.m21 + v.w * m.m31,
      v.x * m.m02 + v.y * m.m12 + v.z * m.m22 + v.w * m.m32,
      v.x * m.m03 + v.y * m.m13 + v.z * m.m23 + v.w * m.m33)
  }

  /** `times(Matrix4)`: the matrix product a * m, whose row i is row i of a times m. */
  function Times(a: Matrix4, m: Matrix4): Matrix4 {
    FromRows(
      RowTimes(Vector4(a.m00, a.m01, a.m02, a.m03), m),
      RowTimes(Vector4(a.m10, a.m11, a.m12, a.m13), m),
      RowTimes(Vector4(a.m20, a.m21, a.m22, a.m23), m),
      RowTimes(Vector4(a.m30, a.m31, a.m32, a.m33), m))
  }

  /** The matrix with the given four rows. */
  function FromRows(r0: Vector4, r1: Vector4, r2: Vector4, r3: Vector4): Matrix4 {
    Matrix4(r0.x, r0.y, r0.z, r0.w, r1.x, r1.y, r1.z, r1.w, r2.x, r2.y, r2.z, r2.w, r3.x, r3.y, r3.z, r3.w)
  }

  /** Row i of m, as a vector. */
  function Row(m: Matrix4, i: nat): Vector4
    requires i < 4
  {
    if i == 0 then Vector4(m.m00, m.m01, m.m02, m.m03)
    else if i == 1 then Vector4(m.m10, m.m11, m.m12, m.m13)
    else if i == 2 then Vector4(m.m20, m.m21, m.m22, m.m23)
    else Vector4(m.m30, m.m31, m.m32, m.m33)
  }

  /** A row vector given by its components times m, component by component. */
  lemma RowTimesOf(x: real, y: real, z: real, w: real, m: Matrix4)
    ensures RowTimes(Vector4(x, y, z, w), m).x == x * m.m00 + y * m.m10 + z * m.m20 + w * m.m30
    ensures RowTimes(Vector4(x, y, z, w), m).y == x * m.m01 + y * m.m11 + z * m.m21 + w * m.m31
    ensures RowTimes(Vector4(x, y, z, w), m).z == x * m.m02 + y * m.m12 + z * m.m22 + w * m.m32
    ensures RowTimes(Vector4(x, y, z, w), m).w == x * m.m03 + y * m.m13 + z * m.m23 + w * m.m33
  {
  }

  /** `translateBy(x, y, z)`: row 3 becomes x*row0 + y*row1 + z*row2 + row3. */
  function TranslateBy(m: Matrix4, x: real, y: real, z: real): Matrix4 {
    Matrix4(
      m.m00, m.m01, m.m02, m.m03, m.m10, m.m11, m.m12, m.m13, m.m20, m.m21, m.m22, m.m23,
      m.m00 * x + m.m10 * y + m.m20 * z + m.m30,
      m.m01 * x + m.m11 * y + m.m21 * z + m.m31,
      m.m02 * x + m.m12 * y + m.m22 * z + m.m32,
      m.m03 * x + m.m13 * y + m.m23 * z + m.m33)
  }

  /** `rotateY(radians)`: rows 0 and 2 are rotated into each other. */
  function RotateY(m: Matrix4, radians: real, sin: real -> real, cos: real -> real): Matrix4 {
    RotateYBy(m, sin(radians), cos(radians))
  }

  /** The body of `rotateY` once the sine s and cosine c of the angle are known. */
  function RotateYBy(m: Matrix4, s: real, c: real): Matrix4 {
    Matrix4(
      m.m00 * c - m.m20 * s,
      m.m01 * c - m.m21 * s,
      m.m02 * c - m.m22 * s,
      m.m03 * c - m.m23 * s,
      m.m10, m.m11, m.m12, m.m13,
      m.m00 * s + m.m20 * c,
      m.m01 * s + m.m21 * c,
      m.m02 * s + m.m22 * c,
      m.m03 * s + m.m23 * c,
      m.m30, m.m31, m.m32, m.m33)
  }

  /** `rotateZ(radians)`: rows 0 and 1 are rotated into each other. */
  function RotateZ(m: Matrix4, radians: real, sin: real -> real, cos: real -> real): Matrix4 {
    RotateZBy(m, sin(radians), cos(radians))
  }

  /** The body of `rotateZ` once the sine s and cosine c of the angle are known. */
  function RotateZBy(m: Matrix4, s: real, c: real): Matrix4 {
    Matrix4(
      m.m00 * c + m.m10 * s,
      m.m01 * c + m.m11 * s,
      m.m02 * c + m.m12 * s,
      m.m03 * c + m.m13 * s,
      m.m10 * c - m.m00 * s,
      m.m11 * c - m.m01 * s,
      m.m12 * c - m.m02 * s,
      m.m13 * c - m.m03 * s,
      m.m20, m.m21, m.m22, m.m23,
      m.m30, m.m31, m.m32, m.m33)
  }

  function Translation(x: real, y: real, z: real): Matrix4 {
    TranslateBy(IDENTITY, x, y, z)
  }

  function RotationY(radians: real, sin: real -> real, cos: real -> real): Matrix4 {
    RotateY(IDENTITY, radians, sin, cos)
  }

  function RotationZ(radians: real, sin: real -> real, cos: real -> real): Matrix4 {
    RotateZ(IDENTITY, radians, sin, cos)
  }

  /** `axisAngle(axis, radians)`: the rotation by -radians about the given (unit) axis. */
  function AxisAngle(axis: Vector4, radians: real, sin: real -> real, cos: real -> real): Matrix4 {
    var c := cos(-radians);
    var s := sin(-radians);
    var t := 1.0 - c;
    Matrix4(
      c + axis.x * axis.x * t, axis.x * axis.y * t - axis.z * s, axis.x * axis.z * t + axis.y * s, 0.0,
      axis.x * axis.y * t + axis.z * s, c + axis.y * axis.y * t, axis.y * axis.z * t - axis.x * s, 0.0,
      axis.x * axis.z * t - axis.y * s, axis.y * axis.z * t + axis.x * s, c + axis.z * axis.z * t, 0.0,
      0.0, 0.0, 0.0, 1.0)
  }

  /** The cross product of the spatial parts of a and b, as a direction. */
  function Cross(a: Vector4, b: Vector4): Vector4 {
    Vector4(a.y * b.z - a.z * b.y, a.z * b.x - a.x * b.z, a.x * b.y - a.y * b.x, 0.0)
  }

  /** The squared length of the spatial part of a. */
  function Norm3(a: Vector4): real {
    a.x * a.x + a.y * a.y + a.z * a.z
  }

  /**
   * `lookAt(eye, center, up)`: z is the direction from center to eye, x is up cross z and
   * y is z cross x. `invSqrt(q)` stands for `1.0 / sqrt(q)`, which the source evaluates in
   * floating point (infinite for q == 0).
   */
  function LookAt(eye: Vector4, center: Vector4, up: Vector4, invSqrt: real -> real): Matrix4 {
    var z := Vector4(eye.x - center.x, eye.y - center.y, eye.z - center.z, 0.0);
    var x := Cross(up, z);
    var y := Cross(z, x);
    LookAtFrom(eye, x, y, z, invSqrt(Norm3(x)), invSqrt(Norm3(y)), invSqrt(Norm3(z)))
  }

  /** The matrix `lookAt` builds from its three axes and their normalisation factors. */
  function LookAtFrom(eye: Vector4, x: Vector4, y: Vector4, z: Vector4, lx: real, ly: real, lz: real): Matrix4
  {
    Matrix4(
      x.x * lx, y.x * ly, z.x * lz, 0.0,
      x.y * lx, y.y * ly, z.y * lz, 0.0,
      x.z * lx, y.z * ly, z.z * lz, 0.0,
      -(x.x * eye.x + x.y * eye.y + x.z * eye.z) * lx,
      -(y.x * eye.x + y.y * eye.y + y.z * eye.z) * ly,
      -(z.x * eye.x + z.y * eye.y + z.z * eye.z) * lz, 1.0)
  }

  /** `perspective`; reals have no infinity, so the divisions must be defined. */
  function Perspective(fieldOfView: real, aspectRatio: real, nearPlane: real, farPlane: real,
                       tan: real -> real): Matrix4
    requires nearPlane != farPlane
    requires tan(fieldOfView / 2.0) != 0.0 && aspectRatio != 0.0
  {
    var t := tan(fieldOfView / 2.0);
    var nf := 1.0 / (nearPlane - farPlane);
    Matrix4(
      1.0 / (t * aspectRatio), 0.0, 0.0, 0.0,
      0.0, 1.0 / t, 0.0, 0.0,
      0.0, 0.0, (farPlane + nearPlane) * nf, -1.0,
      0.0, 0.0, 2.0 * farPlane * nearPlane * nf, 0.0)
  }

  /** The polynomial identity behind associativity: row * (B * column) == (row * B) * column. */
  lemma BilinearRegroup(a0: real, a1: real, a2: real, a3: real,
                        b00: real, b01: real, b02: real, b03: real, b10: real, b11: real, b12: real, b13: real, b20: real, b21: real, b22: real, b23: real, b30: real, b31: real, b32: real, b33: real,
                        c0: real, c1: real, c2: real, c3: real)
    ensures (a0 * b00 + a1 * b10 + a2 * b20 + a3 * b30) * c0
          + (a0 * b01 + a1 * b11 + a2 * b21 + a3 * b31) * c1
          + (a0 * b02 + a1 * b12 + a2 * b22 + a3 * b32) * c2
          + (a0 * b03 + a1 * b13 + a2 * b23 + a3 * b33) * c3
      == a0 * (b00 * c0 + b01 * c1 + b02 * c2 + b03 * c3)
          + a1 * (b10 * c0 + b11 * c1 + b12 * c2 + b13 * c3)
          + a2 * (b20 * c0 + b21 * c1 + b22 * c2 + b23 * c3)
          + a3 * (b30 * c0 + b31 * c1 + b32 * c2 + b33 * c3)
  {
  }

  lemma RowTimesTwiceExpanded(v: Vector4, a: Matrix4, b: Matrix4)
    ensures RowTimes(RowTimes(v, a), b).x ==
      (v.x * a.m00 + v.y * a.m10 + v.z * a.m20 + v.w * a.m30) * b.m00 + (v.x * a.m01 + v.y * a.m11 + v.z * a.m21 + v.w * a.m31) * b.m10 + (v.x * a.m02 + v.y * a.m12 + v.z * a.m22 + v.w * a.m32) * b.m20 + (v.x * a.m03 + v.y * a.m13 + v.z * a.m23 + v.w * a.m33) * b.m30
    ensures RowTimes(RowTimes(v, a), b).y ==
      (v.x * a.m00 + v.y * a.m10 + v.z * a.m20 + v.w * a.m30) * b.m01 + (v.x * a.m01 + v.y * a.m11 + v.z * a.m21 + v.w * a.m31) * b.m11 + (v.x * a.m02 + v.y * a.m12 + v.z * a.m22 + v.w * a.m32) * b.m21 + (v.x * a.m03 + v.y * a.m13 + v.z * a.m23 + v.w * a.m33) * b.m31
    ensures RowTimes(RowTimes(v, a), b).z ==
      (v.x * a.m00 + v.y * a.m10 + v.z * a.m20 + v.w * a.m30) * b.m02 + (v.x * a.m01 + v.y * a.m11 + v.z * a.m21 + v.w * a.m31) * b.m12 + (v.x * a.m02 + v.y * a.m12 + v.z * a.m22 + v.w * a.m32) * b.m22 + (v.x * a.m03 + v.y * a.m13 + v.z * a.m23 + v.w * a.m33) * b.m32
    ensures RowTimes(RowTimes(v, a), b).w ==
      (v.x * a.m00 + v.y * a.m10 + v.z * a.m20 + v.w * a.m30) * b.m03 + (v.x * a.m01 + v.y * a.m11 + v.z * a.m21 + v.w * a.m31) * b.m13 + (v.x * a.m02 + v.y * a.m12 + v.z * a.m22 + v.w * a.m32) * b.m23 + (v.x * a.m03 + v.y * a.m13 + v.z * a.m23 + v.w * a.m33) * b.m33
  {
    var u := RowTimes(v, a);
    assert RowTimes(u, b).x == u.x * b.m00 + u.y * b.m10 + u.z * b.m20 + u.w * b.m30;
    assert RowTimes(u, b).y == u.x * b.m01 + u.y * b.m11 + u.z * b.m21 + u.w * b.m31;
    assert RowTimes(u, b).z == u.x * b.m02 + u.y * b.m12 + u.z * b.m22 + u.w * b.m32;
    assert RowTimes(u, b).w == u.x * b.m03 + u.y * b.m13 + u.z * b.m23 + u.w * b.m33;
  }

  lemma RowTimesProductExpanded(v: Vector4, a: Matrix4, b: Matrix4)
    ensures RowTimes(v, Times(a, b)).x ==
      v.x * (a.m00 * b.m00 + a.m01 * b.m10 + a.m02 * b.m20 + a.m03 * b.m30) + v.y * (a.m10 * b.m00 + a.m11 * b.m10 + a.m12 * b.m20 + a.m13 * b.m30) + v.z * (a.m20 * b.m00 + a.m21 * b.m10 + a.m22 * b.m20 + a.m23 * b.m30) + v.w * (a.m30 * b.m00 + a.m31 * b.m10 + a.m32 * b.m20 + a.m33 * b.m30)
    ensures RowTimes(v, Times(a, b)).y ==
      v.x * (a.m00 * b.m01 + a.m01 * b.m11 + a.m02 * b.m21 + a.m03 * b.m31) + v.y * (a.m10 * b.m01 + a.m11 * b.m11 + a.m12 * b.m21 + a.m13 * b.m31) + v.z * (a.m20 * b.m01 + a.m21 * b.m11 + a.m22 * b.m21 + a.m23 * b.m31) + v.w * (a.m30 * b.m01 + a.m31 * b.m11 + a.m32 * b.m21 + a.m33 * b.m31)
    ensures RowTimes(v, Times(a, b)).z ==
      v.x * (a.m00 * b.m02 + a.m01 * b.m12 + a.m02 * b.m22 + a.m03 * b.m32) + v.y * (a.m10 * b.m02 + a.m11 * b.m12 + a.m12 * b.m22 + a.m13 * b.m32) + v.z * (a.m20 * b.m02 + a.m21 * b.m12 + a.m22 * b.m22 + a.m23 * b.m32) + v.w * (a.m30 * b.m02 + a.m31 * b.m12 + a.m32 * b.m22 + a.m33 * b.m32)
    ensures RowTimes(v, Times(a, b)).w ==
      v.x * (a.m00 * b.m03 + a.m01 * b.m13 + a.m02 * b.m23 + a.m03 * b.m33) + v.y * (a.m10 * b.m03 + a.m11 * b.m13 + a.m12 * b.m23 + a.m13 * b.m33) + v.z * (a.m20 * b.m03 + a.m21 * b.m13 + a.m22 * b.m23 + a.m23 * b.m33) + v.w * (a.m30 * b.m03 + a.m31 * b.m13 + a.m32 * b.m23 + a.m33 * b.m33)
  {
  }

  lemma TimesVectorProductExpanded(a: Matrix4, b: Matrix4, v: Vector4)
    ensures TimesVector(Times(a, b), v).x ==
      (a.m00 * b.m00 + a.m01 * b.m10 + a.m02 * b.m20 + a.m03 * b.m30) * v.x + (a.m00 * b.m01 + a.m01 * b.m11 + a.m02 * b.m21 + a.m03 * b.m31) * v.y + (a.m00 * b.m02 + a.m01 * b.m12 + a.m02 * b.m22 + a.m03 * b.m32) * v.z + (a.m00 * b.m03 + a.m01 * b.m13 + a.m02 * b.m23 + a.m03 * b.m33) * v.w
    ensures TimesVector(Times(a, b), v).y ==
      (a.m10 * b.m00 + a.m11 * b.m10 + a.m12 * b.m20 + a.m13 * b.m30) * v.x + (a.m10 * b.m01 + a.m11 * b.m11 + a.m12 * b.m21 + a.m13 * b.m31) * v.y + (a.m10 * b.m02 + a.m11 * b.m12 + a.m12 * b.m22 + a.m13 * b.m32) * v.z + (a.m10 * b.m03 + a.m11 * b.m13 + a.m12 * b.m23 + a.m13 * b.m33) * v.w
    ensures TimesVector(Times(a, b), v).z ==
      (a.m20 * b.m00 + a.m21 * b.m10 + a.m22 * b.m20 + a.m23 * b.m30) * v.x + (a.m20 * b.m01 + a.m21 * b.m11 + a.m22 * b.m21 + a.m23 * b.m31) * v.y + (a.m20 * b.m02 + a.m21 * b.m12 + a.m22 * b.m22 + a.m23 * b.m32) * v.z + (a.m20 * b.m03 + a.m21 * b.m13 + a.m22 * b.m23 + a.m23 * b.m33) * v.w
    ensures TimesVector(Times(a, b), v).w ==
      (a.m30 * b.m00 + a.m31 * b.m10 + a.m32 * b.m20 + a.m33 * b.m30) * v.x + (a.m30 * b.m01 + a.m31 * b.m11 + a.m32 * b.m21 + a.m33 * b.m31) * v.y + (a.m30 * b.m02 + a.m31 * b.m12 + a.m32 * b.m22 + a.m33 * b.m32) * v.z + (a.m30 * b.m03 + a.m31 * b.m13 + a.m32 * b.m23 + a.m33 * b.m33) * v.w
  {
  }

  lemma TimesVectorTwiceExpanded(a: Matrix4, b: Matrix4, v: Vector4)
    ensures TimesVector(a, TimesVector(b, v)).x ==
      a.m00 * (b.m00 * v.x + b.m01 * v.y + b.m02 * v.z + b.m03 * v.w) + a.m01 * (b.m10 * v.x + b.m11 * v.y + b.m12 * v.z + b.m13 * v.w) + a.m02 * (b.m20 * v.x + b.m21 * v.y + b.m22 * v.z + b.m23 * v.w) + a.m03 * (b.m30 * v.x + b.m31 * v.y + b.m32 * v.z + b.m33 * v.w)
    ensures TimesVector(a, TimesVector(b, v)).y ==
      a.m10 * (b.m00 * v.x + b.m01 * v.y + b.m02 * v.z + b.m03 * v.w) + a.m11 * (b.m10 * v.x + b.m11 * v.y + b.m12 * v.z + b.m13 * v.w) + a.m12 * (b.m20 * v.x + b.m21 * v.y + b.m22 * v.z + b.m23 * v.w) + a.m13 * (b.m30 * v.x + b.m31 * v.y + b.m32 * v.z + b.m33 * v.w)
    ensures TimesVector(a, TimesVector(b, v)).z ==
      a.m20 * (b.m00 * v.x + b.m01 * v.y + b.m02 * v.z + b.m03 * v.w) + a.m21 * (b.m10 * v.x + b.m11 * v.y + b.m12 * v.z + b.m13 * v.w) + a.m22 * (b.m20 * v.x + b.m21 * v.y + b.m22 * v.z + b.m23 * v.w) + a.m23 * (b.m30 * v.x + b.m31 * v.y + b.m32 * v.z + b.m33 * v.w)
    ensures TimesVector(a, TimesVector(b, v)).w ==
      a.m30 * (b.m00 * v.x + b.m01 * v.y + b.m02 * v.z + b.m03 * v.w) + a.m31 * (b.m10 * v.x + b.m11 * v.y + b.m12 * v.z + b.m13 * v.w) + a.m32 * (b.m20 * v.x + b.m21 * v.y + b.m22 * v.z + b.m23 * v.w) + a.m33 * (b.m30 * v.x + b.m31 * v.y + b.m32 * v.z + b.m33 * v.w)
  {
    var u := TimesVector(b, v);
    assert TimesVector(a, u).x == a.m00 * u.x + a.m01 * u.y + a.m02 * u.z + a.m03 * u.w;
    assert TimesVector(a, u).y == a.m10 * u.x + a.m11 * u.y + a.m12 * u.z + a.m13 * u.w;
    assert TimesVector(a, u).z == a.m20 * u.x + a.m21 * u.y + a.m22 * u.z + a.m23 * u.w;
    assert TimesVector(a, u).w == a.m30 * u.x + a.m31 * u.y + a.m32 * u.z + a.m33 * u.w;
  }

  /** Projecting a row vector by a and then by b is projecting it by a * b. */
  lemma RowTimesCompose(v: Vector4, a: Matrix4, b: Matrix4)
    ensures RowTimes(RowTimes(v, a), b) == RowTimes(v, Times(a, b))
  {
    RowTimesTwiceExpanded(v, a, b);
    RowTimesProductExpanded(v, a, b);
    BilinearRegroup(v.x, v.y, v.z, v.w,
      a.m00, a.m01, a.m02, a.m03, a.m10, a.m11, a.m12, a.m13, a.m20, a.m21, a.m22, a.m23, a.m30, a.m31, a.m32, a.m33,
      b.m00, b.m10, b.m20, b.m30);
    BilinearRegroup(v.x, v.y, v.z, v.w,
      a.m00, a.m01, a.m02, a.m03, a.m10, a.m11, a.m12, a.m13, a.m20, a.m21, a.m22, a.m23, a.m30, a.m31, a.m32, a.m33,
      b.m01, b.m11, b.m21, b.m31);
    BilinearRegroup(v.x, v.y, v.z, v.w,
      a.m00, a.m01, a.m02, a.m03, a.m10, a.m11, a.m12, a.m13, a.m20, a.m21, a.m22, a.m23, a.m30, a.m31, a.m32, a.m33,
      b.m02, b.m12, b.m22, b.m32);
    BilinearRegroup(v.x, v.y, v.z, v.w,
      a.m00, a.m01, a.m02, a.m03, a.m10, a.m11, a.m12, a.m13, a.m20, a.m21, a.m22, a.m23, a.m30, a.m31, a.m32, a.m33,
      b.m03, b.m13, b.m23, b.m33);
  }

  /** (a * b) * v == a * (b * v) for column vectors. */
  lemma TimesVectorCompose(a: Matrix4, b: Matrix4, v: Vector4)
    ensures TimesVector(Times(a, b), v) == TimesVector(a, TimesVector(b, v))
  {
    TimesVectorProductExpanded(a, b, v);
    TimesVectorTwiceExpanded(a, b, v);
    BilinearRegroup(a.m00, a.m01, a.m02, a.m03,
      b.m00, b.m01, b.m02, b.m03, b.m10, b.m11, b.m12, b.m13, b.m20, b.m21, b.m22, b.m23, b.m30, b.m31, b.m32, b.m33,
      v.x, v.y, v.z, v.w);
    BilinearRegroup(a.m10, a.m11, a.m12, a.m13,
      b.m00, b.m01, b.m02, b.m03, b.m10, b.m11, b.m12, b.m13, b.m20, b.m21, b.m22, b.m23, b.m30, b.m31, b.m32, b.m33,
      v.x, v.y, v.z, v.w);
    BilinearRegroup(a.m20, a.m21, a.m22, a.m23,
      b.m00, b.m01, b.m02, b.m03, b.m10, b.m11, b.m12, b.m13, b.m20, b.m21, b.m22, b.m23, b.m30, b.m31, b.m32, b.m33,
      v.x, v.y, v.z, v.w);
    BilinearRegroup(a.m30, a.m31, a.m32, a.m33,
      b.m00, b.m01, b.m02, b.m03, b.m10, b.m11, b.m12, b.m13, b.m20, b.m21, b.m22, b.m23, b.m30, b.m31, b.m32, b.m33,
      v.x, v.y, v.z, v.w);
  }

  lemma RowOfTimes(a: Matrix4, b: Matrix4, i: nat)
    requires i < 4
    ensures Row(Times(a, b), i) == RowTimes(Row(a, i), b)
  {
    if i == 0 {
      assert Row(a, i) == Vector4(a.m00, a.m01, a.m02, a.m03);
    } else if i == 1 {
      assert Row(a, i) == Vector4(a.m10, a.m11, a.m12, a.m13);
    } else if i == 2 {
      assert Row(a, i) == Vector4(a.m20, a.m21, a.m22, a.m23);
    } else {
      assert Row(a, i) == Vector4(a.m30, a.m31, a.m32, a.m33);
    }
  }

  lemma RowsDetermine(m: Matrix4, n: Matrix4)
    requires Row(m, 0) == Row(n, 0) && Row(m, 1) == Row(n, 1)
    requires Row(m, 2) == Row(n, 2) && Row(m, 3) == Row(n, 3)
    ensures m == n
  {
  }

  lemma RowOfAssociated(a: Matrix4, b: Matrix4, c: Matrix4, i: nat)
    requires i < 4
    ensures Row(Times(Times(a, b), c), i) == Row(Times(a, Times(b, c)), i)
  {
    RowOfTimes(Times(a, b), c, i);
    RowOfTimes(a, b, i);
    RowTimesCompose(Row(a, i), b, c);
    RowOfTimes(a, Times(b, c), i);
  }

  /** The matrix product is associative. */
  lemma TimesAssociative(a: Matrix4, b: Matrix4, c: Matrix4)
    ensures Times(Times(a, b), c) == Times(a, Times(b, c))
  {
    RowOfAssociated(a, b, c, 0);
    RowOfAssociated(a, b, c, 1);
    RowOfAssociated(a, b, c, 2);
    RowOfAssociated(a, b, c, 3);
    RowsDetermine(Times(Times(a, b), c), Times(a, Times(b, c)));
  }

  /** IDENTITY is a unit on both sides, for matrices, column vectors and row vectors. */
  lemma IdentityIsUnit(m: Matrix4, v: Vector4)
    ensures Times(IDENTITY, m) == m && Times(m, IDENTITY) == m
    ensures TimesVector(IDENTITY, v) == v && RowTimes(v, IDENTITY) == v
  {
  }

  /** `translation(x, y, z)` is IDENTITY with row 3 replaced by (x, y, z, 1). */
  lemma TranslationShape(x: real, y: real, z: real)
    ensures Translation(x, y, z) == Matrix4(
      1.0, 0.0, 0.0, 0.0,
      0.0, 1.0, 0.0, 0.0,
      0.0, 0.0, 1.0, 0.0,
      x, y, z, 1.0)
  {
  }

  /** `m.translateBy(x, y, z)` is `translation(x, y, z) * m`. */
  lemma TranslateByIsLeftProduct(m: Matrix4, x: real, y: real, z: real)
    ensures TranslateBy(m, x, y, z) == Times(Translation(x, y, z), m)
  {
    TranslationShape(x, y, z);
    RowTimesOf(1.0, 0.0, 0.0, 0.0, m);
    RowTimesOf(0.0, 1.0, 0.0, 0.0, m);
    RowTimesOf(0.0, 0.0, 1.0, 0.0, m);
    RowTimesOf(x, y, z, 1.0, m);
  }

  lemma RotationYShape(radians: real, sin: real -> real, cos: real -> real)
    ensures var s, c := sin(radians), cos(radians);
      RotationY(radians, sin, cos) == Matrix4(
        c, 0.0, -s, 0.0,
        0.0, 1.0, 0.0, 0.0,
        s, 0.0, c, 0.0,
        0.0, 0.0, 0.0, 1.0)
  {
  }

  lemma RotationZShape(radians: real, sin: real -> real, cos: real -> real)
    ensures var s, c := sin(radians), cos(radians);
      RotationZ(radians, sin, cos) == Matrix4(
        c, s, 0.0, 0.0,
        -s, c, 0.0, 0.0,
        0.0, 0.0, 1.0, 0.0,
        0.0, 0.0, 0.0, 1.0)
  {
  }

  /** Row i of `rotateY` is row i of the rotation times m, for i = 0, 1, 2, 3 in turn. */
  lemma RotateYByRow0(m: Matrix4, s: real, c: real)
    ensures RotateYBy(m, s, c).m00 == RowTimes(Vector4(c, 0.0, -s, 0.0), m).x
    ensures RotateYBy(m, s, c).m01 == RowTimes(Vector4(c, 0.0, -s, 0.0), m).y
    ensures RotateYBy(m, s, c).m02 == RowTimes(Vector4(c, 0.0, -s, 0.0), m).z
    ensures RotateYBy(m, s, c).m03 == RowTimes(Vector4(c, 0.0, -s, 0.0), m).w
  {
    assert RotateYBy(m, s, c).m00 == RowTimes(Vector4(c, 0.0, -s, 0.0), m).x by {
      PickRowsNegated(c, s, m.m00, m.m10, m.m20, m.m30);
    }
    assert RotateYBy(m, s, c).m01 == RowTimes(Vector4(c, 0.0, -s, 0.0), m).y by {
      PickRowsNegated(c, s, m.m01, m.m11, m.m21, m.m31);
    }
    assert RotateYBy(m, s, c).m02 == RowTimes(Vector4(c, 0.0, -s, 0.0), m).z by {
      PickRowsNegated(c, s, m.m02, m.m12, m.m22, m.m32);
    }
    assert RotateYBy(m, s, c).m03 == RowTimes(Vector4(c, 0.0, -s, 0.0), m).w by {
      PickRowsNegated(c, s, m.m03, m.m13, m.m23, m.m33);
    }
  }

  lemma RotateYByRow1(m: Matrix4, s: real, c: real)
    ensures RotateYBy(m, s, c).m10 == RowTimes(Vector4(0.0, 1.0, 0.0, 0.0), m).x
    ensures RotateYBy(m, s, c).m11 == RowTimes(Vector4(0.0, 1.0, 0.0, 0.0), m).y
    ensures RotateYBy(m, s, c).m12 == RowTimes(Vector4(0.0, 1.0, 0.0, 0.0), m).z
    ensures RotateYBy(m, s, c).m13 == RowTimes(Vector4(0.0, 1.0, 0.0, 0.0), m).w
  {
    var r := RowTimes(Vector4(0.0, 1.0, 0.0, 0.0), m);
    assert r == Vector4(m.m10, m.m11, m.m12, m.m13) by {
      RowTimesOf(0.0, 1.0, 0.0, 0.0, m);
      PickUnitRow(m.m00, m.m10, m.m20, m.m30);
      PickUnitRow(m.m01, m.m11, m.m21, m.m31);
      PickUnitRow(m.m02, m.m12, m.m22, m.m32);
      PickUnitRow(m.m03, m.m13, m.m23, m.m33);
    }
  }

  /** A row (u, 0, v, 0) combines rows 0 and 2 only. */
  lemma PickRows02(u: real, v: real, a: real, b: real, p: real, q: real)
    ensures u * a + 0.0 * b + v * p + 0.0 * q == a * u + p * v
  {
  }

  /** A row (u, v, 0, 0) combines rows 0 and 1 only. */
  lemma PickRows01(u: real, v: real, a: real, b: real, p: real, q: real)
    ensures u * a + v * b + 0.0 * p + 0.0 * q == a * u + b * v
  {
  }

  /** The rows (u, 0, -v, 0) and (-v, u, 0, 0) subtract the scaled second row. */
  lemma PickRowsNegated(u: real, v: real, a: real, b: real, p: real, q: real)
    ensures u * a + 0.0 * b + (-v) * p + 0.0 * q == a * u - p * v
    ensures (-v) * a + u * b + 0.0 * p + 0.0 * q == b * u - a * v
  {
    assert (-v) * p == -(p * v);
    assert (-v) * a == -(a * v);
  }

  /** A unit row picks one row of m. */
  lemma PickUnitRow(a: real, b: real, p: real, q: real)
    ensures 0.0 * a + 1.0 * b + 0.0 * p + 0.0 * q == b
    ensures 0.0 * a + 0.0 * b + 1.0 * p + 0.0 * q == p
    ensures 0.0 * a + 0.0 * b + 0.0 * p + 1.0 * q == q
  {
  }

  lemma RotateYByRow2(m: Matrix4, s: real, c: real)
    ensures RotateYBy(m, s, c).m20 == RowTimes(Vector4(s, 0.0, c, 0.0), m).x
    ensures RotateYBy(m, s, c).m21 == RowTimes(Vector4(s, 0.0, c, 0.0), m).y
    ensures RotateYBy(m, s, c).m22 == RowTimes(Vector4(s, 0.0, c, 0.0), m).z
    ensures RotateYBy(m, s, c).m23 == RowTimes(Vector4(s, 0.0, c, 0.0), m).w
  {
    assert RotateYBy(m, s, c).m20 == RowTimes(Vector4(s, 0.0, c, 0.0), m).x by {
      PickRows02(s, c, m.m00, m.m10, m.m20, m.m30);
    }
    assert RotateYBy(m, s, c).m21 == RowTimes(Vector4(s, 0.0, c, 0.0), m).y by {
      PickRows02(s, c, m.m01, m.m11, m.m21, m.m31);
    }
    assert RotateYBy(m, s, c).m22 == RowTimes(Vector4(s, 0.0, c, 0.0), m).z by {
      PickRows02(s, c, m.m02, m.m12, m.m22, m.m32);
    }
    assert RotateYBy(m, s, c).m23 == RowTimes(Vector4(s, 0.0, c, 0.0), m).w by {
      PickRows02(s, c, m.m03, m.m13, m.m23, m.m33);
    }
  }

  lemma RotateYByRow3(m: Matrix4, s: real, c: real)
    ensures RotateYBy(m, s, c).m30 == RowTimes(Vector4(0.0, 0.0, 0.0, 1.0), m).x
    ensures RotateYBy(m, s, c).m31 == RowTimes(Vector4(0.0, 0.0, 0.0, 1.0), m).y
    ensures RotateYBy(m, s, c).m32 == RowTimes(Vector4(0.0, 0.0, 0.0, 1.0), m).z
    ensures RotateYBy(m, s, c).m33 == RowTimes(Vector4(0.0, 0.0, 0.0, 1.0), m).w
  {
    var r := RowTimes(Vector4(0.0, 0.0, 0.0, 1.0), m);
    assert r == Vector4(m.m30, m.m31, m.m32, m.m33) by {
      RowTimesOf(0.0, 0.0, 0.0, 1.0, m);
      PickUnitRow(m.m00, m.m10, m.m20, m.m30);
      PickUnitRow(m.m01, m.m11, m.m21, m.m31);
      PickUnitRow(m.m02, m.m12, m.m22, m.m32);
      PickUnitRow(m.m03, m.m13, m.m23, m.m33);
    }
  }

  /** Row i of `rotateZ` is row i of the rotation times m, for i = 0, 1, 2, 3 in turn. */
  lemma RotateZByRow0(m: Matrix4, s: real, c: real)
    ensures RotateZBy(m, s, c).m00 == RowTimes(Vector4(c, s, 0.0, 0.0), m).x
    ensures RotateZBy(m, s, c).m01 == RowTimes(Vector4(c, s, 0.0, 0.0), m).y
    ensures RotateZBy(m, s, c).m02 == RowTimes(Vector4(c, s, 0.0, 0.0), m).z
    ensures RotateZBy(m, s, c).m03 == RowTimes(Vector4(c, s, 0.0, 0.0), m).w
  {
    assert RotateZBy(m, s, c).m00 == RowTimes(Vector4(c, s, 0.0, 0.0), m).x by {
      PickRows01(c, s, m.m00, m.m10, m.m20, m.m30);
    }
    assert RotateZBy(m, s, c).m01 == RowTimes(Vector4(c, s, 0.0, 0.0), m).y by {
      PickRows01(c, s, m.m01, m.m11, m.m21, m.m31);
    }
    assert RotateZBy(m, s, c).m02 == RowTimes(Vector4(c, s, 0.0, 0.0), m).z by {
      PickRows01(c, s, m.m02, m.m12, m.m22, m.m32);
    }
    assert RotateZBy(m, s, c).m03 == RowTimes(Vector4(c, s, 0.0, 0.0), m).w by {
      PickRows01(c, s, m.m03, m.m13, m.m23, m.m33);
    }
  }

  lemma RotateZByRow1(m: Matrix4, s: real, c: real)
    ensures RotateZBy(m, s, c).m10 == RowTimes(Vector4(-s, c, 0.0, 0.0), m).x
    ensures RotateZBy(m, s, c).m11 == RowTimes(Vector4(-s, c, 0.0, 0.0), m).y
    ensures RotateZBy(m, s, c).m12 == RowTimes(Vector4(-s, c, 0.0, 0.0), m).z
    ensures RotateZBy(m, s, c).m13 == RowTimes(Vector4(-s, c, 0.0, 0.0), m).w
  {
    assert RotateZBy(m, s, c).m10 == RowTimes(Vector4(-s, c, 0.0, 0.0), m).x by {
      PickRowsNegated(c, s, m.m00, m.m10, m.m20, m.m30);
    }
    assert RotateZBy(m, s, c).m11 == RowTimes(Vector4(-s, c, 0.0, 0.0), m).y by {
      PickRowsNegated(c, s, m.m01, m.m11, m.m21, m.m31);
    }
    assert RotateZBy(m, s, c).m12 == RowTimes(Vector4(-s, c, 0.0, 0.0), m).z by {
      PickRowsNegated(c, s, m.m02, m.m12, m.m22, m.m32);
    }
    assert RotateZBy(m, s, c).m13 == RowTimes(Vector4(-s, c, 0.0, 0.0), m).w by {
      PickRowsNegated(c, s, m.m03, m.m13, m.m23, m.m33);
    }
  }

  lemma RotateZByRow2(m: Matrix4, s: real, c: real)
    ensures RotateZBy(m, s, c).m20 == RowTimes(Vector4(0.0, 0.0, 1.0, 0.0), m).x
    ensures RotateZBy(m, s, c).m21 == RowTimes(Vector4(0.0, 0.0, 1.0, 0.0), m).y
    ensures RotateZBy(m, s, c).m22 == RowTimes(Vector4(0.0, 0.0, 1.0, 0.0), m).z
    ensures RotateZBy(m, s, c).m23 == RowTimes(Vector4(0.0, 0.0, 1.0, 0.0), m).w
  {
    var r := RowTimes(Vector4(0.0, 0.0, 1.0, 0.0), m);
    assert r == Vector4(m.m20, m.m21, m.m22, m.m23) by {
      RowTimesOf(0.0, 0.0, 1.0, 0.0, m);
      PickUnitRow(m.m00, m.m10, m.m20, m.m30);
      PickUnitRow(m.m01, m.m11, m.m21, m.m31);
      PickUnitRow(m.m02, m.m12, m.m22, m.m32);
      PickUnitRow(m.m03, m.m13, m.m23, m.m33);
    }
  }

  lemma RotateZByRow3(m: Matrix4, s: real, c: real)
    ensures RotateZBy(m, s, c).m30 == RowTimes(Vector4(0.0, 0.0, 0.0, 1.0), m).x
    ensures RotateZBy(m, s, c).m31 == RowTimes(Vector4(0.0, 0.0, 0.0, 1.0), m).y
    ensures RotateZBy(m, s, c).m32 == RowTimes(Vector4(0.0, 0.0, 0.0, 1.0), m).z
    ensures RotateZBy(m, s, c).m33 == RowTimes(Vector4(0.0, 0.0, 0.0, 1.0), m).w
  {
    var r := RowTimes(Vector4(0.0, 0.0, 0.0, 1.0), m);
    assert r == Vector4(m.m30, m.m31, m.m32, m.m33) by {
      RowTimesOf(0.0, 0.0, 0.0, 1.0, m);
      PickUnitRow(m.m00, m.m10, m.m20, m.m30);
      PickUnitRow(m.m01, m.m11, m.m21, m.m31);
      PickUnitRow(m.m02, m.m12, m.m22, m.m32);
      PickUnitRow(m.m03, m.m13, m.m23, m.m33);
    }
  }

  /** For any sine and cosine, `rotateY` is a left product by the rotation with those entries. */
  lemma RotateYByIsLeftProduct(m: Matrix4, s: real, c: real)
    ensures RotateYBy(m, s, c) == Times(Matrix4(c, 0.0, -s, 0.0, 0.0, 1.0, 0.0, 0.0, s, 0.0, c, 0.0, 0.0, 0.0, 0.0, 1.0), m)
  {
    RotateYByRow0(m, s, c);
    RotateYByRow1(m, s, c);
    RotateYByRow2(m, s, c);
    RotateYByRow3(m, s, c);
  }

  /** For any sine and cosine, `rotateZ` is a left product by the rotation with those entries. */
  lemma RotateZByIsLeftProduct(m: Matrix4, s: real, c: real)
    ensures RotateZBy(m, s, c) == Times(Matrix4(c, s, 0.0, 0.0, -s, c, 0.0, 0.0, 0.0, 0.0, 1.0, 0.0, 0.0, 0.0, 0.0, 1.0), m)
  {
    RotateZByRow0(m, s, c);
    RotateZByRow1(m, s, c);
    RotateZByRow2(m, s, c);
    RotateZByRow3(m, s, c);
  }

  /** `m.rotateY(r)` is `rotationY(r) * m`, and leaves rows 1 and 3 alone. */
  lemma RotateYIsLeftProduct(m: Matrix4, radians: real, sin: real -> real, cos: real -> real)
    ensures RotateY(m, radians, sin, cos) == Times(RotationY(radians, sin, cos), m)
    ensures Row(RotateY(m, radians, sin, cos), 1) == Row(m, 1)
    ensures Row(RotateY(m, radians, sin, cos), 3) == Row(m, 3)
  {
    RotationYShape(radians, sin, cos);
    RotateYByIsLeftProduct(m, sin(radians), cos(radians));
  }

  /** `m.rotateZ(r)` is `rotationZ(r) * m`, and leaves rows 2 and 3 alone. */
  lemma RotateZIsLeftProduct(m: Matrix4, radians: real, sin: real -> real, cos: real -> real)
    ensures RotateZ(m, radians, sin, cos) == Times(RotationZ(radians, sin, cos), m)
    ensures Row(RotateZ(m, radians, sin, cos), 2) == Row(m, 2)
    ensures Row(RotateZ(m, radians, sin, cos), 3) == Row(m, 3)
  {
    RotationZShape(radians, sin, cos);
    RotateZByIsLeftProduct(m, sin(radians), cos(radians));
  }

  /** `axisAngle` is affine-free: its last row and column are those of IDENTITY; no rotation is IDENTITY. */
  lemma AxisAngleShape(axis: Vector4, radians: real, sin: real -> real, cos: real -> real)
    ensures Row(AxisAngle(axis, radians, sin, cos), 3) == Vector4(0.0, 0.0, 0.0, 1.0)
    ensures var r := AxisAngle(axis, radians, sin, cos);
      r.m03 == 0.0 && r.m13 == 0.0 && r.m23 == 0.0
    ensures cos(-radians) == 1.0 && sin(-radians) == 0.0 ==> AxisAngle(axis, radians, sin, cos) == IDENTITY
  {
  }

  /** The homogeneous point (p.x, p.y, p.z, 1). */
  function Point(p: Vector4): Vector4 {
    Vector4(p.x, p.y, p.z, 1.0)
  }

  lemma OffsetCancels(e0: real, e1: real, e2: real, a0: real, a1: real, a2: real, l: real)
    ensures e0 * (a0 * l) + e1 * (a1 * l) + e2 * (a2 * l) + 1.0 * (-(a0 * e0 + a1 * e1 + a2 * e2) * l) == 0.0
  {
  }

  /** The image of the eye under the matrix `lookAt` builds has x component 0. */
  lemma LookAtFromMapsEyeX(eye: Vector4, x: Vector4, y: Vector4, z: Vector4, lx: real, ly: real, lz: real)
    ensures RowTimes(Point(eye), LookAtFrom(eye, x, y, z, lx, ly, lz)).x == 0.0
  {
    RowTimesOf(eye.x, eye.y, eye.z, 1.0, LookAtFrom(eye, x, y, z, lx, ly, lz));
    OffsetCancels(eye.x, eye.y, eye.z, x.x, x.y, x.z, lx);
  }

  /** The image of the eye under the matrix `lookAt` builds has y component 0. */
  lemma LookAtFromMapsEyeY(eye: Vector4, x: Vector4, y: Vector4, z: Vector4, lx: real, ly: real, lz: real)
    ensures RowTimes(Point(eye), LookAtFrom(eye, x, y, z, lx, ly, lz)).y == 0.0
  {
    RowTimesOf(eye.x, eye.y, eye.z, 1.0, LookAtFrom(eye, x, y, z, lx, ly, lz));
    OffsetCancels(eye.x, eye.y, eye.z, y.x, y.y, y.z, ly);
  }

  /** The image of the eye under the matrix `lookAt` builds has z component 0. */
  lemma LookAtFromMapsEyeZ(eye: Vector4, x: Vector4, y: Vector4, z: Vector4, lx: real, ly: real, lz: real)
    ensures RowTimes(Point(eye), LookAtFrom(eye, x, y, z, lx, ly, lz)).z == 0.0
  {
    RowTimesOf(eye.x, eye.y, eye.z, 1.0, LookAtFrom(eye, x, y, z, lx, ly, lz));
    OffsetCancels(eye.x, eye.y, eye.z, z.x, z.y, z.z, lz);
  }

  lemma LookAtFromMapsEye(eye: Vector4, x: Vector4, y: Vector4, z: Vector4, lx: real, ly: real, lz: real)
    ensures RowTimes(Point(eye), LookAtFrom(eye, x, y, z, lx, ly, lz)) == Vector4(0.0, 0.0, 0.0, 1.0)
  {
    LookAtFromMapsEyeX(eye, x, y, z, lx, ly, lz);
    LookAtFromMapsEyeY(eye, x, y, z, lx, ly, lz);
    LookAtFromMapsEyeZ(eye, x, y, z, lx, ly, lz);
  }

  /** `lookAt` moves the eye to the origin, whatever the normalisation factors turn out to be. */
  lemma LookAtMapsEyeToOrigin(eye: Vector4, center: Vector4, up: Vector4, invSqrt: real -> real)
    ensures RowTimes(Point(eye), LookAt(eye, center, up, invSqrt)) == Vector4(0.0, 0.0, 0.0, 1.0)
  {
    var z := Vector4(eye.x - center.x, eye.y - center.y, eye.z - center.z, 0.0);
    var x := Cross(up, z);
    var y := Cross(z, x);
    LookAtFromMapsEye(eye, x, y, z, invSqrt(Norm3(x)), invSqrt(Norm3(y)), invSqrt(Norm3(z)));
  }

  /** The depth a point at distance d in front of the camera is sent to: the z of its image with w = d. */
  lemma DepthImage(n: real, f: real, nf: real, d: real)
    requires n != f && nf == 1.0 / (n - f)
    ensures -d * ((f + n) * nf) + 1.0 * (2.0 * f * n * nf) == nf * (2.0 * f * n - d * (f + n))
  {
  }

  lemma NearFarDepths(n: real, f: real, nf: real)
    requires n != f && nf == 1.0 / (n - f)
    ensures nf * (2.0 * f * n - n * (f + n)) == -n
    ensures nf * (2.0 * f * n - f * (f + n)) == f
  {
    assert 2.0 * f * n - n * (f + n) == n * (f - n);
    assert 2.0 * f * n - f * (f + n) == f * (n - f);
    assert nf * (n * (f - n)) == -n * (nf * (n - f));
    assert nf * (f * (n - f)) == f * (nf * (n - f));
  }

  /**
   * `perspective` sends the point on the axis at the near plane to depth z/w = -1 and the one at the
   * far plane to z/w = +1, for any field-of-view tangent.
   */
  lemma PerspectiveMapsNearAndFar(fieldOfView: real, aspectRatio: real, n: real, f: real, tan: real -> real)
    requires n != f && n != 0.0 && f != 0.0
    requires tan(fieldOfView / 2.0) != 0.0 && aspectRatio != 0.0
    ensures var p := RowTimes(Vector4(0.0, 0.0, -n, 1.0), Perspective(fieldOfView, aspectRatio, n, f, tan));
      p.w == n && p.z / p.w == -1.0
    ensures var p := RowTimes(Vector4(0.0, 0.0, -f, 1.0), Perspective(fieldOfView, aspectRatio, n, f, tan));
      p.w == f && p.z / p.w == 1.0
  {
    var m := Perspective(fieldOfView, aspectRatio, n, f, tan);
    var nf := 1.0 / (n - f);
    assert m.m02 == 0.0 && m.m12 == 0.0 && m.m22 == (f + n) * nf && m.m32 == 2.0 * f * n * nf;
    assert m.m03 == 0.0 && m.m13 == 0.0 && m.m23 == -1.0 && m.m33 == 0.0;
    DepthImage(n, f, nf, n);
    DepthImage(n, f, nf, f);
    NearFarDepths(n, f, nf);
    var pn := RowTimes(Vector4(0.0, 0.0, -n, 1.0), m);
    assert pn.z == -n * ((f + n) * nf) + 1.0 * (2.0 * f * n * nf);
    assert pn.w == n;
    assert pn.z == -n;
    assert pn.z / pn.w == -n / n == -1.0;
    var pf := RowTimes(Vector4(0.0, 0.0, -f, 1.0), m);
    assert pf.z == -f * ((f + n) * nf) + 1.0 * (2.0 * f * n * nf);
    assert pf.w == f;
    assert pf.z == f;
    assert pf.z / pf.w == f / f == 1.0;
  }
}
