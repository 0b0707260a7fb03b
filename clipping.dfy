/**
 * Clip-space geometry of Wireframe3D: outcodes, clipping against one plane
 * of the canonical view volume, the five-round clipping loop, the viewport
 * mapping and the back-face test.
 */
module Clipping {
  import opened Vectors

  datatype Option<T> = None | Some(value: T)

  /** The canonical view volume: -w <= x, y, z <= w. */
  predicate Inside(v: Vector4) {
    -v.w <= v.x <= v.w && -v.w <= v.y <= v.w && -v.w <= v.z <= v.w
  }

  /** `computeClipMask`: one bit per plane the vertex lies strictly outside of. */
  function ClipMask(v: Vector4): bv8 {
    (if v.x > v.w then 32 else 0) | (if v.y > v.w then 16 else 0) | (if v.z > v.w then 8 else 0)
    | (if v.x < -v.w then 4 else 0) | (if v.y < -v.w then 2 else 0) | (if v.z < -v.w then 1 else 0)
  }

  lemma ClipMaskBits(v: Vector4)
    ensures var m := ClipMask(v);
      && (m & 32 != 0 <==> v.x > v.w) && (m & 16 != 0 <==> v.y > v.w) && (m & 8 != 0 <==> v.z > v.w)
      && (m & 4 != 0 <==> v.x < -v.w) && (m & 2 != 0 <==> v.y < -v.w) && (m & 1 != 0 <==> v.z < -v.w)
      && m < 64
  {
  }

  /** The outcode is zero exactly for a vertex in the view volume. */
  lemma ClipMaskZeroIffInside(v: Vector4)
    ensures ClipMask(v) == 0 <==> Inside(v)
  {
    ClipMaskBits(v);
  }

  /** `Vertex.lerp(from, to, t)`. */
  function Lerp(from: Vector4, to: Vector4, t: real): Vector4 {
    Vector4((1.0 - t) * from.x + t * to.x, (1.0 - t) * from.y + t * to.y,
            (1.0 - t) * from.z + t * to.z, (1.0 - t) * from.w + t * to.w)
  }

  /**
   * The signed distance `clipLine` uses for the highest plane bit of mask;
   * it is negative exactly when v lies outside that plane.
   */
  function Boundary(v: Vector4, mask: bv8): real {
    if mask & 32 != 0 then v.w - v.x
    else if mask & 16 != 0 then v.w - v.y
    else if mask & 8 != 0 then v.w - v.z
    else if mask & 4 != 0 then v.w + v.x
    else if mask & 2 != 0 then v.w + v.y
    else v.w + v.z
  }

  /**
   * `clipLine(from, to, mask)`: the point where segment from-to meets the
   * plane of mask's highest bit. The source divides by zero into infinities
   * when the segment runs parallel to that plane; the model reports None.
   */
  function ClipLine(from: Vector4, to: Vector4, mask: bv8): Option<Vector4> {
    var num := Boundary(from, mask);
    var den := num - Boundary(to, mask);
    if den == 0.0 then None else Some(Lerp(from, to, num / den))
  }

  lemma LerpLinear(p: real, q: real, t: real, a: real, b: real)
    ensures ((1.0 - t) * p + t * q) - ((1.0 - t) * a + t * b) == (1.0 - t) * (p - a) + t * (q - b)
    ensures ((1.0 - t) * p + t * q) + ((1.0 - t) * a + t * b) == (1.0 - t) * (p + a) + t * (q + b)
  {
  }

  /** The signed distances interpolate along with the vertex. */
  lemma BoundaryOfLerp(from: Vector4, to: Vector4, t: real, mask: bv8)
    ensures Boundary(Lerp(from, to, t), mask) == (1.0 - t) * Boundary(from, mask) + t * Boundary(to, mask)
  {
    LerpLinear(from.w, to.w, t, from.x, to.x);
    LerpLinear(from.w, to.w, t, from.y, to.y);
    LerpLinear(from.w, to.w, t, from.z, to.z);
  }

  lemma ZeroAtQuotient(n: real, d: real, t: real)
    requires d != 0.0 && t == n / d
    ensures (1.0 - t) * n + t * (n - d) == 0.0
  {
    assert t * d == n;
  }

  /** The clipped vertex lies on the plane `clipLine` chose. */
  lemma ClipLineOnPlane(from: Vector4, to: Vector4, mask: bv8)
    requires ClipLine(from, to, mask).Some?
    ensures var r := ClipLine(from, to, mask).value;
      && Boundary(r, mask) == 0.0
      && (mask & 32 != 0 ==> r.x == r.w)
      && (mask & 32 == 0 && mask & 16 != 0 ==> r.y == r.w)
      && (mask & 48 == 0 && mask & 8 != 0 ==> r.z == r.w)
      && (mask & 56 == 0 && mask & 4 != 0 ==> r.x == -r.w)
      && (mask & 60 == 0 && mask & 2 != 0 ==> r.y == -r.w)
      && (mask & 62 == 0 ==> r.z == -r.w)
  {
    var n := Boundary(from, mask);
    var d := n - Boundary(to, mask);
    BoundaryOfLerp(from, to, n / d, mask);
    ZeroAtQuotient(n, d, n / d);
  }

  lemma QuotientInUnit(n: real, d: real)
    requires n < 0.0 && d <= n
    ensures 0.0 < n / d <= 1.0
  {
    var t := n / d;
    assert t * d == n;
  }

  /**
   * When `from` lies outside the chosen plane and `to` does not, `clipLine`
   * is defined and moves `from` along the segment toward `to`,
   * by a parameter in (0, 1].
   */
  lemma ClipLineAcross(from: Vector4, to: Vector4, mask: bv8)
    requires Boundary(from, mask) < 0.0 <= Boundary(to, mask)
    ensures ClipLine(from, to, mask).Some?
    ensures var n := Boundary(from, mask); var t := n / (n - Boundary(to, mask));
      0.0 < t <= 1.0 && ClipLine(from, to, mask).value == Lerp(from, to, t)
  {
    QuotientInUnit(Boundary(from, mask), Boundary(from, mask) - Boundary(to, mask));
  }

  /** For an outcode, the chosen plane is one the vertex lies outside of, and one the other vertex does not. */
  lemma OutcodeGivesCrossing(from: Vector4, to: Vector4)
    requires ClipMask(from) != 0 && ClipMask(from) & ClipMask(to) == 0
    ensures Boundary(from, ClipMask(from)) < 0.0 <= Boundary(to, ClipMask(from))
  {
    ClipMaskBits(from);
    ClipMaskBits(to);
  }

  /** What `clip` leaves behind: whether to draw, and the two (possibly moved) endpoints. */
  datatype Clipped = Clipped(accepted: bool, a: Vector4, b: Vector4)

  /**
   * `rounds` iterations of the loop in `clip`: accept when both outcodes are
   * zero, reject when they share a bit, otherwise clip a against one of its
   * planes and then b against one of its own, toward the clipped a. The
   * first step is always defined (FirstStepLandsOnPlane); the second can hit a
   * zero denominator, where the source computes infinities: the model rejects.
   */
  function ClipRounds(a: Vector4, b: Vector4, rounds: nat): Clipped
    decreases rounds
  {
    if rounds == 0 then Clipped(false, a, b)
    else
      var ma, mb := ClipMask(a), ClipMask(b);
      if ma == 0 && mb == 0 then Clipped(true, a, b)
      else if ma & mb != 0 then Clipped(false, a, b)
      else
        var a1 := if ma != 0 then FirstStepLandsOnPlane(a, b); ClipLine(a, b, ma).value else a;
        var b1 := if mb != 0 then ClipLine(b, a1, mb) else Some(b);
        if b1.None? then Clipped(false, a1, b)
        else ClipRounds(a1, b1.value, rounds - 1)
  }

  /** The number of rounds `clip` runs before it gives up. */
  const CLIP_ROUNDS: nat := 5

  /** Whatever the number of rounds, an accepted segment lies in the view volume. */
  lemma {:induction false} ClipAcceptsOnlyInside(a: Vector4, b: Vector4, rounds: nat)
    requires ClipRounds(a, b, rounds).accepted
    ensures Inside(ClipRounds(a, b, rounds).a) && Inside(ClipRounds(a, b, rounds).b)
    decreases rounds
  {
    var ma, mb := ClipMask(a), ClipMask(b);
    if ma == 0 && mb == 0 {
      ClipMaskZeroIffInside(a);
      ClipMaskZeroIffInside(b);
    } else {
      var a1 := if ma != 0 then ClipLine(a, b, ma).value else a;
      var b1 := if mb != 0 then ClipLine(b, a1, mb) else Some(b);
      ClipAcceptsOnlyInside(a1, b1.value, rounds - 1);
    }
  }

  /** A segment already in the view volume is accepted at once and left as it is. */
  lemma ClipKeepsInside(a: Vector4, b: Vector4, rounds: nat)
    requires Inside(a) && Inside(b) && rounds > 0
    ensures ClipRounds(a, b, rounds) == Clipped(true, a, b)
  {
    ClipMaskZeroIffInside(a);
    ClipMaskZeroIffInside(b);
  }

  /** Two endpoints outside a common plane are rejected at once and left as they are. */
  lemma ClipRejectsCommonOutside(a: Vector4, b: Vector4, rounds: nat)
    requires ClipMask(a) & ClipMask(b) != 0
    ensures ClipRounds(a, b, rounds) == Clipped(false, a, b)
  {
  }

  /** In the first clipping step of a round, `a` moves toward `b` and lands on a plane. */
  lemma FirstStepLandsOnPlane(a: Vector4, b: Vector4)
    requires ClipMask(a) != 0 && ClipMask(a) & ClipMask(b) == 0
    ensures ClipLine(a, b, ClipMask(a)).Some?
    ensures Boundary(ClipLine(a, b, ClipMask(a)).value, ClipMask(a)) == 0.0
  {
    OutcodeGivesCrossing(a, b);
    ClipLineAcross(a, b, ClipMask(a));
    ClipLineOnPlane(a, b, ClipMask(a));
  }

  /** `java.awt.Rectangle`, as far as `screen` uses it. */
  datatype Rectangle = Rectangle(x: int, y: int, width: int, height: int)

  /** `Vertex.screen(viewport)`: perspective divide and viewport mapping, y pointing down. */
  function Screen(v: Vector4, viewport: Rectangle): Vector4
    requires v.w != 0.0
  {
    Vector4(viewport.x as real + viewport.width as real * (1.0 + v.x / v.w) * 0.5,
            viewport.y as real + viewport.height as real * (1.0 - v.y / v.w) * 0.5,
            1.0 + v.z / v.w, v.w)
  }

  lemma RatioInUnit(x: real, w: real)
    requires 0.0 < w && -w <= x <= w
    ensures -1.0 <= x / w <= 1.0
  {
    var q := x / w;
    assert q * w == x;
  }

  lemma HalfSpan(n: real, q: real)
    requires 0.0 <= n && -1.0 <= q <= 1.0
    ensures 0.0 <= n * (1.0 + q) * 0.5 <= n
    ensures 0.0 <= n * (1.0 - q) * 0.5 <= n
  {
    var p := n * q;
    assert n * (1.0 + q) == n + p;
    assert n * (1.0 - q) == n - p;
    assert -n <= p <= n by {
      assert n * (1.0 - q) >= 0.0 && n * (1.0 + q) >= 0.0;
    }
  }

  /** A vertex in the view volume with positive w maps into the viewport rectangle. */
  lemma ScreenInViewport(v: Vector4, viewport: Rectangle)
    requires Inside(v) && v.w > 0.0
    requires viewport.width >= 0 && viewport.height >= 0
    ensures var s := Screen(v, viewport);
      && viewport.x as real <= s.x <= (viewport.x + viewport.width) as real
      && viewport.y as real <= s.y <= (viewport.y + viewport.height) as real
      && s.w == v.w
  {
    RatioInUnit(v.x, v.w);
    RatioInUnit(v.y, v.w);
    HalfSpan(viewport.width as real, v.x / v.w);
    HalfSpan(viewport.height as real, v.y / v.w);
  }

  /** A vertex of the view volume never has negative w. */
  lemma InsideHasNonnegativeW(v: Vector4)
    requires Inside(v)
    ensures v.w >= 0.0
  {
  }

  /**
   * Twice the signed screen area of the triangle a, b, c after the perspective
   * divide, positive when `isBackFacing` holds.
   */
  function Winding(a: Vector4, b: Vector4, c: Vector4): real
    requires a.w != 0.0 && b.w != 0.0 && c.w != 0.0
  {
    var cax := c.x / c.w - a.x / a.w;
    var cay := a.y / a.w - b.y / b.w;
    var bax := b.x / b.w - a.x / a.w;
    var bay := a.y / a.w - c.y / c.w;
    bax * bay - cax * cay
  }

  /**
   * `isBackFacing`. With a vertex at w = 0 the source compares infinities or
   * NaN; the model calls such a polygon front-facing.
   */
  function IsBackFacing(a: Vector4, b: Vector4, c: Vector4): (r: bool)
    ensures r ==> a.w != 0.0 && b.w != 0.0 && c.w != 0.0 && Winding(a, b, c) > 0.0
  {
    if a.w == 0.0 || b.w == 0.0 || c.w == 0.0 then false
    else
      var cax := c.x / c.w - a.x / a.w;
      var cay := a.y / a.w - b.y / b.w;
      var bax := b.x / b.w - a.x / a.w;
      var bay := a.y / a.w - c.y / c.w;
      cax * cay < bax * bay
  }

  lemma AreaAntisymmetric(px: real, py: real, qx: real, qy: real, rx: real, ry: real)
    ensures (rx - px) * (py - qy) - (qx - px) * (py - ry) == -((qx - px) * (py - ry) - (rx - px) * (py - qy))
  {
  }

  lemma AreaCyclic(px: real, py: real, qx: real, qy: real, rx: real, ry: real)
    ensures (qx - px) * (py - ry) - (rx - px) * (py - qy) == (rx - qx) * (qy - py) - (px - qx) * (qy - ry)
  {
  }

  /** Reversing the order of the vertices negates the winding. */
  lemma WindingReversed(a: Vector4, b: Vector4, c: Vector4)
    requires a.w != 0.0 && b.w != 0.0 && c.w != 0.0
    ensures Winding(a, c, b) == -Winding(a, b, c)
  {
    AreaAntisymmetric(a.x / a.w, a.y / a.w, b.x / b.w, b.y / b.w, c.x / c.w, c.y / c.w);
  }

  /** Starting the polygon at its next vertex keeps the winding. */
  lemma WindingRotated(a: Vector4, b: Vector4, c: Vector4)
    requires a.w != 0.0 && b.w != 0.0 && c.w != 0.0
    ensures Winding(b, c, a) == Winding(a, b, c)
  {
    AreaCyclic(a.x / a.w, a.y / a.w, b.x / b.w, b.y / b.w, c.x / c.w, c.y / c.w);
  }

  /**
   * Of a triangle and its mirror order, at most one is back-facing, and
   * exactly one when the triangle is not degenerate.
   */
  lemma BackFacingSwap(a: Vector4, b: Vector4, c: Vector4)
    requires a.w != 0.0 && b.w != 0.0 && c.w != 0.0
    ensures !(IsBackFacing(a, b, c) && IsBackFacing(a, c, b))
    ensures Winding(a, b, c) != 0.0 ==> IsBackFacing(a, b, c) || IsBackFacing(a, c, b)
  {
    WindingReversed(a, b, c);
  }

  /** Back-facing does not depend on which vertex the polygon starts at. */
  lemma BackFacingRotated(a: Vector4, b: Vector4, c: Vector4)
    requires a.w != 0.0 && b.w != 0.0 && c.w != 0.0
    ensures IsBackFacing(b, c, a) == IsBackFacing(a, b, c)
  {
    WindingRotated(a, b, c);
  }
}
