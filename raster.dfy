/**
 * The value-level pieces of Wireframe3D's rasteriser: the depth buffer's
 * values and its strict depth test, how a pixel write may change a depth or a
 * colour cell, where `wupixel` writes, the bounds of the points `wuLine`
 * visits, and the order in which `drawLines` and `drawPolygon` pair up vertices.
 */
module Raster {
  import opened Numbers
  import opened Colors

  // ---------------------------------------------------------------- depth values

  /** A depth buffer cell: `Double.POSITIVE_INFINITY` after `clear`, a finite depth after a write. */
  datatype Depth = Infinity | Finite(value: real)

  /** `z < depthBuffer[addr]`: a finite depth passes the test against infinity and against any larger depth. */
  predicate Closer(z: real, d: Depth) {
    d.Infinity? || z < d.value
  }

  /** A depth cell is either kept or replaced by a strictly closer finite depth. */
  predicate Lowered(before: Depth, after: Depth) {
    after == before || (after.Finite? && Closer(after.value, before))
  }

  ghost predicate DepthsLowered(before: seq<Depth>, after: seq<Depth>) {
    |before| == |after| && forall i {:trigger Lowered(before[i], after[i])} :: 0 <= i < |after| ==> Lowered(before[i], after[i])
  }

  lemma LoweredTransitive(a: Depth, b: Depth, c: Depth)
    requires Lowered(a, b) && Lowered(b, c)
    ensures Lowered(a, c)
  {
  }

  /** Successive writes keep every depth cell at or below its starting value. */
  lemma DepthsLoweredTransitive(a: seq<Depth>, b: seq<Depth>, c: seq<Depth>)
    requires DepthsLowered(a, b) && DepthsLowered(b, c)
    ensures DepthsLowered(a, c)
  {
    forall i | 0 <= i < |c|
      ensures Lowered(a[i], c[i])
    {
      LoweredTransitive(a[i], b[i], c[i]);
    }
  }

  /** Writing a depth that passes the test lowers that cell and leaves the others. */
  lemma DepthWriteLowers(s: seq<Depth>, addr: int, z: real)
    requires 0 <= addr < |s| && Closer(z, s[addr])
    ensures DepthsLowered(s, s[addr := Finite(z)])
  {
  }

  // ---------------------------------------------------------------- colour values

  predicate Between(a: int, x: int, b: int) {
    (a <= x <= b) || (b <= x <= a)
  }

  /**
   * A colour cell is either kept, or made opaque with every channel moved
   * from its old value toward the drawing colour c's.
   */
  predicate Toward(before: Argb, after: Argb, c: Argb) {
    after == before
    || (Alpha(after) == 0xff && Between(Red(c), Red(after), Red(before))
        && Between(Green(c), Green(after), Green(before)) && Between(Blue(c), Blue(after), Blue(before)))
  }

  ghost predicate Tinted(before: seq<Argb>, after: seq<Argb>, c: Argb) {
    |before| == |after| && forall i {:trigger Toward(before[i], after[i], c)} :: 0 <= i < |after| ==> Toward(before[i], after[i], c)
  }

  lemma TowardTransitive(a: Argb, b: Argb, d: Argb, c: Argb)
    requires Toward(a, b, c) && Toward(b, d, c)
    ensures Toward(a, d, c)
  {
  }

  /** Pixels drawn over and over in one colour only ever move toward that colour. */
  lemma TintedTransitive(a: seq<Argb>, b: seq<Argb>, d: seq<Argb>, c: Argb)
    requires Tinted(a, b, c) && Tinted(b, d, c)
    ensures Tinted(a, d, c)
  {
    forall i | 0 <= i < |d|
      ensures Toward(a[i], d[i], c)
    {
      TowardTransitive(a[i], b[i], d[i], c);
    }
  }

  /** x lies between the least and the greatest of a, c and f. */
  predicate Spans(a: int, x: int, c: int, f: int) {
    (a <= x || c <= x || f <= x) && (x <= a || x <= c || x <= f)
  }

  /**
   * A colour cell is either kept, or made opaque with every channel within
   * the range of its old value, c's and f's: what drawing in c, or in a colour
   * part of the way from c to f, leaves behind.
   */
  predicate Shaded(before: Argb, after: Argb, c: Argb, f: Argb) {
    after == before
    || (Alpha(after) == 0xff && Spans(Red(before), Red(after), Red(c), Red(f))
        && Spans(Green(before), Green(after), Green(c), Green(f)) && Spans(Blue(before), Blue(after), Blue(c), Blue(f)))
  }

  /** Every cell of a colour buffer is Shaded between c and f. */
  ghost predicate Painted(before: seq<Argb>, after: seq<Argb>, c: Argb, f: Argb) {
    |before| == |after| && forall i {:trigger Shaded(before[i], after[i], c, f)} :: 0 <= i < |after| ==> Shaded(before[i], after[i], c, f)
  }

  /** A colour's channels lie between c's and f's. */
  predicate Among(e: Argb, c: Argb, f: Argb) {
    Between(Red(c), Red(e), Red(f)) && Between(Green(c), Green(e), Green(f)) && Between(Blue(c), Blue(e), Blue(f))
  }

  /** Shading twice between the same two colours is shading once. */
  lemma PaintedTransitive(a: seq<Argb>, b: seq<Argb>, d: seq<Argb>, c: Argb, f: Argb)
    requires Painted(a, b, c, f) && Painted(b, d, c, f)
    ensures Painted(a, d, c, f)
  {
    forall i | 0 <= i < |d|
      ensures Shaded(a[i], d[i], c, f)
    {
      assert Shaded(a[i], b[i], c, f) && Shaded(b[i], d[i], c, f);
    }
  }

  /** Moving cells toward a colour e between c and f shades them between c and f. */
  lemma TintedPaints(a: seq<Argb>, b: seq<Argb>, e: Argb, c: Argb, f: Argb)
    requires Tinted(a, b, e) && Among(e, c, f)
    ensures Painted(a, b, c, f)
  {
    forall i | 0 <= i < |b|
      ensures Shaded(a[i], b[i], c, f)
    {
      assert Toward(a[i], b[i], e);
    }
  }

  /** Shading between e and f, with e between c and f, is shading between c and f. */
  lemma PaintedWider(a: seq<Argb>, b: seq<Argb>, e: Argb, c: Argb, f: Argb)
    requires Painted(a, b, e, f) && Among(e, c, f)
    ensures Painted(a, b, c, f)
  {
    forall i | 0 <= i < |b|
      ensures Shaded(a[i], b[i], c, f)
    {
      assert Shaded(a[i], b[i], e, f);
    }
  }

  /** `(0xff shl 24) or blend(c, old, f)` with f in [0, 1] moves a cell toward c. */
  lemma PlotTints(s: seq<Argb>, addr: int, c: Argb, f: real)
    requires 0 <= addr < |s| && 0.0 <= f <= 1.0
    ensures Tinted(s, s[addr := Opaque(Blend(c, s[addr], f))], c)
  {
    BlendBetween(c, s[addr], f);
  }

  lemma ProductInUnit(a: real, b: real)
    requires 0.0 <= a <= 1.0 && 0.0 <= b <= 1.0
    ensures 0.0 <= a * b <= 1.0
  {
    assert 0.0 <= a * b <= 1.0 * b;
  }

  /** The two coverage weights `wupixel` hands to `plot` lie in [0, 1]. */
  lemma CoverageInUnit(intery: real, gap: real)
    requires INT_MIN as real < intery < INT_MAX as real && 0.0 <= gap <= 1.0
    ensures 0.0 <= RfPart(intery) * gap <= 1.0 && 0.0 <= FPart(intery) * gap <= 1.0
  {
    FractionalParts(intery);
    ProductInUnit(RfPart(intery), gap);
    ProductInUnit(FPart(intery), gap);
  }

  /** The two plots of one `wupixel` call move both cells toward the drawing colour. */
  lemma PixelPairTints(s: seq<Argb>, addr: int, next: int, c: Argb, intery: real, gap: real)
    requires 0 <= addr < |s| && 0 <= next < |s| && addr != next
    requires INT_MIN as real < intery < INT_MAX as real && 0.0 <= gap <= 1.0
    ensures Tinted(s, s[addr := Opaque(Blend(c, s[addr], RfPart(intery) * gap))]
                    [next := Opaque(Blend(c, s[next], FPart(intery) * gap))], c)
  {
    CoverageInUnit(intery, gap);
    var s1 := s[addr := Opaque(Blend(c, s[addr], RfPart(intery) * gap))];
    PlotTints(s, addr, c, RfPart(intery) * gap);
    PlotTints(s1, next, c, FPart(intery) * gap);
    TintedTransitive(s, s1, s1[next := Opaque(Blend(c, s1[next], FPart(intery) * gap))], c);
  }

  // ---------------------------------------------------------------- pixel addresses

  /**
   * The buffer cell `wupixel` tests: a steep line swapped its axes, so its
   * major coordinate x is a row and y a column.
   */
  function Address(steep: bool, x: int, y: int, width: int): int {
    if steep then y + x * width else x + y * width
  }

  /** The second cell `wupixel` plots: the next column of a steep line, the next row otherwise. */
  function NextAddress(steep: bool, addr: int, width: int): int {
    if steep then addr + 1 else addr + width
  }

  lemma MulMonotone(a: int, b: int, w: int)
    requires 0 <= a <= b && 0 <= w
    ensures 0 <= a * w <= b * w
  {
    assert b * w == a * w + (b - a) * w;
  }

  /** Both cells `wupixel` touches at column x and row y are distinct cells of a buffer of `size` cells. */
  predicate InBuffer(steep: bool, x: int, y: int, width: int, size: int) {
    && 0 <= Address(steep, x, y, width)
    && NextAddress(steep, Address(steep, x, y, width), width) < size
    && NextAddress(steep, Address(steep, x, y, width), width) != Address(steep, x, y, width)
  }

  /** The extent of the major (x) and the minor (y) axis of a line, steep or not. */
  function MajorExtent(steep: bool, width: int, height: int): int {
    if steep then height else width
  }

  function MinorExtent(steep: bool, width: int, height: int): int {
    if steep then width else height
  }

  /**
   * The margin of three rows under the viewport is what keeps `wupixel` in
   * the buffer: with the column in [0, width] and the row in [0, height],
   * both cells it touches lie in a buffer of width * (height + 3) cells.
   */
  lemma PixelInBounds(steep: bool, x: int, y: int, width: int, height: int)
    requires width >= 1 && height >= 0
    requires 0 <= x <= MajorExtent(steep, width, height) && 0 <= y <= MinorExtent(steep, width, height)
    ensures InBuffer(steep, x, y, width, width * (height + 3))
  {
    assert width * (height + 3) == height * width + 3 * width;
    if steep {
      MulMonotone(x, height, width);
    } else {
      MulMonotone(y, height, width);
    }
  }

  /** A buffer of width * (height + 3) Int-indexed cells leaves both sides of the viewport well inside the Int range. */
  lemma ViewportFits(width: int, height: int)
    requires width >= 1 && height >= 0 && width * (height + 3) <= INT_MAX
    ensures width <= INT_MAX - 2 && height <= INT_MAX - 2
  {
    var h := height + 3;
    MulMonotone(1, width, h);
    assert h <= width * h;
    MulMonotone(1, h, width);
    assert width <= h * width;
  }

  // ---------------------------------------------------------------- line geometry

  lemma ScaledInUnit(d: real, t: real)
    requires 0.0 <= t <= 1.0
    ensures 0.0 <= d ==> 0.0 <= d * t <= d
    ensures d <= 0.0 ==> d <= d * t <= 0.0
  {
    if 0.0 <= d {
      assert d * t <= d * 1.0;
    } else {
      assert (-d) * t <= (-d) * 1.0;
    }
  }

  /** For |dy| <= dx the slope dy / dx lies in [-1, 1]. */
  lemma GentleSlope(dy: real, dx: real)
    requires 0.0 < dx && -dx <= dy <= dx
    ensures -1.0 <= dy / dx <= 1.0
  {
    var g := dy / dx;
    assert g * dx == dy;
  }

  /** A point of the line from (xa, ya) with slope (yb - ya) / dx, at most dx further on, lies between ya and yb. */
  lemma SpanBetween(ya: real, yb: real, dx: real, gy: real, u: real)
    requires 0.0 < dx && gy == (yb - ya) / dx && 0.0 <= u <= dx
    ensures ya <= yb ==> ya <= ya + gy * u <= yb
    ensures yb <= ya ==> yb <= ya + gy * u <= ya
  {
    var t := u / dx;
    assert t * dx == u;
    assert gy * dx == yb - ya;
    assert gy * u == (gy * dx) * t;
    assert 0.0 <= t <= 1.0 by {
      if t > 1.0 {
        assert t * dx > 1.0 * dx;
      }
    }
    ScaledInUnit(yb - ya, t);
  }

  /** A step of at most one half along a gentle slope moves by at most one half. */
  lemma CapNear(y: real, gy: real, u: real)
    requires -1.0 <= gy <= 1.0 && -0.5 < u <= 0.5
    ensures y - 0.5 <= y + gy * u <= y + 0.5
  {
    if u >= 0.0 {
      if gy >= 0.0 {
        assert gy * u <= 1.0 * u;
      } else {
        assert (-gy) * u <= 1.0 * u;
      }
    } else {
      if gy >= 0.0 {
        assert gy * (-u) <= 1.0 * (-u);
      } else {
        assert (-gy) * (-u) <= 1.0 * (-u);
      }
    }
  }

  /**
   * The end caps of `wuLine`: rounding an endpoint's major coordinate to the
   * nearest pixel keeps it in [0, xm], and the minor coordinate there, on a
   * gentle slope, truncates into [0, ym].
   */
  lemma CapInRange(xa: real, ya: real, gy: real, xm: int, ym: int)
    requires 0 <= xm <= INT_MAX - 2 && 0 <= ym <= INT_MAX - 2
    requires 0.0 <= xa <= xm as real && 0.0 <= ya <= ym as real && -1.0 <= gy <= 1.0
    ensures var xend := ToInt(xa + 0.5);
      && 0 <= xend <= xm
      && xa - 0.5 < xend as real <= xa + 0.5
      && -1.0 < ya + gy * (xend as real - xa) < ym as real + 1.0
      && 0 <= ToInt(ya + gy * (xend as real - xa)) <= ym
  {
    RoundHalfUp(xa);
    var xend := ToInt(xa + 0.5);
    var u := xend as real - xa;
    assert -0.5 < u <= 0.5;
    CapNear(ya, gy, u);
    var y := ya + gy * u;
    assert ya - 0.5 <= y <= ya + 0.5;
    assert -1.0 < y < ym as real + 1.0;
    TruncatesInto(y, ym);
  }

  /** The interior pixels of `wuLine` lie on the segment, so their minor coordinate truncates into [0, ym]. */
  lemma SpanInRange(xa: real, ya: real, yb: real, dx: real, gy: real, x: real, ym: int)
    requires 0 <= ym <= INT_MAX - 2
    requires 0.0 < dx && gy == (yb - ya) / dx && xa <= x <= xa + dx
    requires 0.0 <= ya <= ym as real && 0.0 <= yb <= ym as real
    ensures -1.0 < ya + gy * (x - xa) < ym as real + 1.0
    ensures 0 <= ToInt(ya + gy * (x - xa)) <= ym
  {
    var u := x - xa;
    SpanBetween(ya, yb, dx, gy, u);
    var y := ya + gy * u;
    if ya <= yb {
      assert ya <= y <= yb;
    } else {
      assert yb <= y <= ya;
    }
    TruncatesInto(y, ym);
  }

  lemma Distribute(g: real, a: real, b: real)
    ensures g * a + g * b == g * (a + b)
  {
  }

  /**
   * An end cap of `wuLine` at (xa, ya) on a gentle slope, both inside the
   * viewport: rounding moves it by at most one half, and its pixel is in the viewport.
   */
  lemma CapPixel(steep: bool, xa: real, ya: real, gy: real, width: int, height: int)
    requires width >= 1 && height >= 0 && width <= INT_MAX - 2 && height <= INT_MAX - 2
    requires 0.0 <= xa <= MajorExtent(steep, width, height) as real
    requires 0.0 <= ya <= MinorExtent(steep, width, height) as real && -1.0 <= gy <= 1.0
    ensures var x := ToInt(xa + 0.5);
      var intery := Along(ya, gy, x as real, xa);
      && 0 <= x <= MajorExtent(steep, width, height)
      && 0 <= ToInt(intery) <= MinorExtent(steep, width, height)
      && xa - 0.5 < x as real <= xa + 0.5
      && INT_MIN as real < intery < INT_MAX as real
      && INT_MIN as real < xa + 0.5 < INT_MAX as real
  {
    CapInRange(xa, ya, gy, MajorExtent(steep, width, height), MinorExtent(steep, width, height));
  }

  /** An interior pixel of `wuLine`, at a whole x between the end points, is in the viewport. */
  lemma SpanPixel(steep: bool, xa: real, ya: real, yb: real, dx: real, gy: real, x: int, width: int, height: int)
    requires width >= 1 && height >= 0 && width <= INT_MAX - 2 && height <= INT_MAX - 2
    requires 0.0 <= ya <= MinorExtent(steep, width, height) as real
    requires 0.0 <= yb <= MinorExtent(steep, width, height) as real
    requires 0.0 < dx && gy == (yb - ya) / dx && xa <= x as real <= xa + dx
    ensures var intery := Along(ya, gy, x as real, xa);
      && 0 <= ToInt(intery) <= MinorExtent(steep, width, height)
      && INT_MIN as real < intery < INT_MAX as real
  {
    SpanInRange(xa, ya, yb, dx, gy, x as real, MinorExtent(steep, width, height));
  }

  /** The minor coordinate at x of the line through (xa, ya) with slope gy. */
  function Along(ya: real, gy: real, x: real, xa: real): real {
    ya + gy * (x - xa)
  }

  /** One step of `intery += gy` moves the interpolated point one whole x further on. */
  lemma StepAlong(ya: real, gy: real, x: int, xa: real)
    ensures Along(ya, gy, x as real, xa) + gy == Along(ya, gy, (x + 1) as real, xa)
  {
    Distribute(gy, x as real - xa, 1.0);
  }

  // ---------------------------------------------------------------- edge orders

  /**
   * The vertex pairs `drawLines` hands to `drawLine`: (0, 1), (2, 3), ... —
   * count / 2 disjoint pairs, an odd last vertex left over.
   */
  function LinePairs(count: int): (r: seq<(int, int)>)
    ensures |r| == if count > 1 then count / 2 else 0
    ensures forall k :: 0 <= k < |r| ==> 0 <= r[k].0 < r[k].1 < count && r[k].1 == r[k].0 + 1
    ensures forall k :: 0 <= k < |r| ==> r[k].0 == 2 * k
  {
    if count <= 1 then [] else seq(count / 2, k requires 0 <= k < count / 2 => (2 * k, 2 * k + 1))
  }

  /** Every vertex of a LINE batch but an odd last one is in exactly one pair. */
  lemma LinePairsCover(count: int, v: int)
    requires 0 <= v < count && (v < count - 1 || count % 2 == 0)
    ensures exists k :: 0 <= k < |LinePairs(count)| && (LinePairs(count)[k].0 == v || LinePairs(count)[k].1 == v)
    ensures forall k, j :: 0 <= k < j < |LinePairs(count)| ==>
      LinePairs(count)[k].0 != LinePairs(count)[j].0 && LinePairs(count)[k].0 != LinePairs(count)[j].1
      && LinePairs(count)[k].1 != LinePairs(count)[j].0 && LinePairs(count)[k].1 != LinePairs(count)[j].1
  {
    var k := v / 2;
    assert count > 1;
    assert 0 <= k < count / 2;
    assert LinePairs(count)[k].0 == v || LinePairs(count)[k].1 == v;
  }

  /**
   * The vertex pairs `drawPolygon` hands to `drawLine`: the closing edge
   * (count - 1, 0) first, then the other edges walking back to (0, 1).
   */
  function PolygonPairs(count: int): (r: seq<(int, int)>)
    ensures |r| == if count > 2 then count else 0
    ensures forall j :: 0 <= j < |r| ==> 0 <= r[j].0 < count && 0 <= r[j].1 < count
  {
    if count <= 2 then [] else seq(count, j requires 0 <= j < count => (count - 1 - j, (count - j) % count))
  }

  lemma ModBelow(a: int, n: int)
    requires 0 <= a < n
    ensures a % n == a
  {
  }

  lemma ModSelf(n: int)
    requires n > 0
    ensures n % n == 0
  {
  }

  /** The boundary edge from vertex k to the next one, wrapping around to vertex 0. */
  function BoundaryEdge(count: int, k: int): (int, int)
    requires count > 0
  {
    (k, (k + 1) % count)
  }

  /**
   * A polygon of more than two vertices is drawn as exactly its closed
   * boundary: each of its count edges is drawn, and no vertex starts two of them.
   */
  lemma PolygonPairsCloseBoundary(count: int)
    requires count > 2
    ensures |PolygonPairs(count)| == count
    ensures PolygonPairs(count)[0] == (count - 1, 0)
    ensures forall k :: 0 <= k < count ==> BoundaryEdge(count, k) in PolygonPairs(count)
    ensures forall i, j :: 0 <= i < j < count ==> PolygonPairs(count)[i].0 != PolygonPairs(count)[j].0
    ensures forall j :: 1 <= j < count ==> PolygonPairs(count)[j] == (count - 1 - j, count - j)
  {
    var r := PolygonPairs(count);
    forall j | 1 <= j < count
      ensures r[j] == (count - 1 - j, count - j)
    {
      ModBelow(count - j, count);
    }
    ModSelf(count);
    assert r[0] == (count - 1, 0);
    forall k | 0 <= k < count
      ensures BoundaryEdge(count, k) in r
    {
      if k == count - 1 {
        ModSelf(count);
        assert BoundaryEdge(count, k) == r[0];
      } else {
        ModBelow(k + 1, count);
        assert BoundaryEdge(count, k) == (k, k + 1);
        assert r[count - 1 - k] == (k, k + 1);
      }
    }
  }
}
