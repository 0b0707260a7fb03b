/** Homogeneous 4-vectors (Vector4.kt), over exact real numbers. */
module Vectors {

  /** A homogeneous tuple: w = 0 is a direction, w = 1 a point. */
  datatype Vector4 = Vector4(x: real, y: real, z: real, w: real)

  /** The three-argument constructor: the fourth component defaults to 0. */
  function Direction(x: real, y: real, z: real): (v: Vector4)
    ensures v.w == 0.0
    ensures v.x == x && v.y == y && v.z == z
  {
    Vector4(x, y, z, 0.0)
  }

  /** A vector is rebuilt from its x, y, z by the three-argument constructor exactly when it is a direction. */
  lemma DirectionRoundTrip(v: Vector4)
    ensures Direction(v.x, v.y, v.z) == v <==> v.w == 0.0
  {
  }

  const ZERO: Vector4 := Direction(0.0, 0.0, 0.0)
  const UNIT_X: Vector4 := Direction(1.0, 0.0, 0.0)
  const UNIT_Y: Vector4 := Direction(0.0, 1.0, 0.0)
  const UNIT_Z: Vector4 := Direction(0.0, 0.0, 1.0)

  function Plus(a: Vector4, b: Vector4): Vector4 {
    Vector4(a.x + b.x, a.y + b.y, a.z + b.z, a.w + b.w)
  }

  function Minus(a: Vector4, b: Vector4): Vector4 {
    Vector4(a.x - b.x, a.y - b.y, a.z - b.z, a.w - b.w)
  }

  /** `v * s`: every component, w included, scaled by s. */
  function Scale(v: Vector4, s: real): Vector4 {
    Vector4(v.x * s, v.y * s, v.z * s, v.w * s)
  }

  /** `v / s`; the source divides by zero into infinities, which reals cannot. */
  function Div(v: Vector4, s: real): Vector4
    requires s != 0.0
  {
    Vector4(v.x / s, v.y / s, v.z / s, v.w / s)
  }

  /** The sum of the squares of all four components. */
  function SquaredLength(v: Vector4): real {
    v.x * v.x + v.y * v.y + v.z * v.z + v.w * v.w
  }

  /** What the model assumes of the square root it is given. */
  ghost predicate IsSqrt(sqrt: real -> real) {
    forall q: real {:trigger sqrt(q)} :: 0.0 <= q ==> 0.0 <= sqrt(q) && sqrt(q) * sqrt(q) == q
  }

  /** `length`: Euclidean length over all four components, through the given square root. */
  function Length(v: Vector4, sqrt: real -> real): real {
    sqrt(SquaredLength(v))
  }

  /** `normalize(v)` is `v / v.length`. */
  function Normalize(v: Vector4, sqrt: real -> real): Vector4
    requires Length(v, sqrt) != 0.0
  {
    Div(v, Length(v, sqrt))
  }

  lemma ConstantsAreDirections()
    ensures ZERO.w == 0.0 && UNIT_X.w == 0.0 && UNIT_Y.w == 0.0 && UNIT_Z.w == 0.0
    ensures ZERO == Vector4(0.0, 0.0, 0.0, 0.0)
    ensures UNIT_X == Vector4(1.0, 0.0, 0.0, 0.0)
    ensures UNIT_Y == Vector4(0.0, 1.0, 0.0, 0.0)
    ensures UNIT_Z == Vector4(0.0, 0.0, 1.0, 0.0)
  {
  }

  lemma PlusMinusComponentwise(a: Vector4, b: Vector4)
    ensures Plus(a, b).x == a.x + b.x && Plus(a, b).y == a.y + b.y
    ensures Plus(a, b).z == a.z + b.z && Plus(a, b).w == a.w + b.w
    ensures Minus(a, b).x == a.x - b.x && Minus(a, b).y == a.y - b.y
    ensures Minus(a, b).z == a.z - b.z && Minus(a, b).w == a.w - b.w
    ensures Plus(a, b) == Plus(b, a)
    ensures Minus(Plus(a, b), b) == a
  {
  }

  lemma ScaleLaws(v: Vector4, s: real, t: real)
    ensures Scale(v, 1.0) == v
    ensures Scale(Scale(v, s), t) == Scale(v, s * t)
  {
  }

  lemma DivIsScaleByInverse(v: Vector4, s: real)
    requires s != 0.0
    ensures Div(v, s) == Scale(v, 1.0 / s)
  {
  }

  /** The product of two positive numbers is positive. */
  lemma PositiveProduct(a: real, b: real)
    requires 0.0 < a && 0.0 < b
    ensures 0.0 < a * b
  {
  }

  /** The product of a number with itself, with the product named `p`. */
  lemma ProductWithItself(a: real, b: real, p: real)
    requires a == b && p == a * b
    ensures p >= 0.0
    ensures a != 0.0 ==> p > 0.0
  {
    if a < 0.0 {
      PositiveProduct(-a, -b);
      assert (-a) * (-b) == a * b;
      assert p > 0.0;
    } else if a > 0.0 {
      PositiveProduct(a, b);
      assert 0.0 < a * b;
      assert p == a * b;
      assert p > 0.0;
    }
  }

  lemma SquareSign(a: real, s: real)
    requires s == a * a
    ensures s >= 0.0
    ensures a != 0.0 ==> s > 0.0
  {
    ProductWithItself(a, a, s);
  }

  /** The squared length is never negative, and zero only for the zero vector. */
  lemma SquaredLengthZero(v: Vector4)
    ensures SquaredLength(v) >= 0.0
    ensures SquaredLength(v) == 0.0 <==> v == ZERO
  {
    SquareSign(v.x, v.x * v.x);
    SquareSign(v.y, v.y * v.y);
    SquareSign(v.z, v.z * v.z);
    SquareSign(v.w, v.w * v.w);
  }

  /** A nonnegative root of q is zero exactly when q is. */
  lemma RootZero(q: real, l: real)
    requires 0.0 <= l && q == l * l
    ensures l == 0.0 <==> q == 0.0
  {
    SquareSign(l, q);
  }

  /** The length is never negative and is zero exactly for the zero vector (w included). */
  lemma LengthZeroIffZero(v: Vector4, sqrt: real -> real)
    requires IsSqrt(sqrt)
    ensures Length(v, sqrt) >= 0.0
    ensures Length(v, sqrt) == 0.0 <==> v == ZERO
  {
    SquaredLengthZero(v);
    var q := SquaredLength(v);
    RootZero(q, sqrt(q));
  }

  /** Squaring a quotient: (a / l)^2 * l^2 == a^2, with every product named. */
  lemma QuotientSquare(a: real, l: real, n: real, sn: real, sl: real, sa: real)
    requires l != 0.0 && n == a / l
    requires sn == n * n && sl == l * l && sa == a * a
    ensures sn * sl == sa
  {
    assert a == n * l;
    assert sa == (n * l) * (n * l);
    assert (n * l) * (n * l) == (n * n) * (l * l);
  }

  lemma SumTimes(p: real, q: real, r: real, s: real, t: real)
    ensures (p + q + r + s) * t == p * t + q * t + r * t + s * t
  {
  }

  /** Four numbers whose products with a nonzero q sum to q sum to one. */
  lemma SharesOfOne(px: real, py: real, pz: real, pw: real, q: real, sx: real, sy: real, sz: real, sw: real)
    requires q != 0.0 && q == sx + sy + sz + sw
    requires px * q == sx && py * q == sy && pz * q == sz && pw * q == sw
    ensures px + py + pz + pw == 1.0
  {
    SumTimes(px, py, pz, pw, q);
    assert (px + py + pz + pw - 1.0) * q == 0.0;
  }

  /** Dividing each of four numbers by the root of their squared sum gives squares summing to one. */
  lemma UnitQuotients(x: real, y: real, z: real, w: real, sx: real, sy: real, sz: real, sw: real,
                      l: real, q: real, nx: real, ny: real, nz: real, nw: real)
    requires sx == x * x && sy == y * y && sz == z * z && sw == w * w
    requires l != 0.0 && q == l * l && q == sx + sy + sz + sw
    requires nx == x / l && ny == y / l && nz == z / l && nw == w / l
    ensures nx * nx + ny * ny + nz * nz + nw * nw == 1.0
  {
    QuotientSquare(x, l, nx, nx * nx, q, sx);
    QuotientSquare(y, l, ny, ny * ny, q, sy);
    QuotientSquare(z, l, nz, nz * nz, q, sz);
    QuotientSquare(w, l, nw, nw * nw, q, sw);
    SquareSign(l, q);
    SharesOfOne(nx * nx, ny * ny, nz * nz, nw * nw, q, sx, sy, sz, sw);
  }

  /** A nonzero vector normalises to squared length one. */
  lemma NormalizeIsUnit(v: Vector4, sqrt: real -> real)
    requires IsSqrt(sqrt)
    requires v != ZERO
    ensures Length(v, sqrt) != 0.0
    ensures SquaredLength(Normalize(v, sqrt)) == 1.0
  {
    LengthZeroIffZero(v, sqrt);
    SquaredLengthZero(v);
    var l := Length(v, sqrt);
    var n := Normalize(v, sqrt);
    UnitQuotients(v.x, v.y, v.z, v.w, v.x * v.x, v.y * v.y, v.z * v.z, v.w * v.w,
                  l, SquaredLength(v), n.x, n.y, n.z, n.w);
  }
}
