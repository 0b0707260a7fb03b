/**
 * Wireframe3D.kt: an immediate-mode wireframe renderer over an Int pixel
 * buffer. Vertices are collected between `begin` and `end`, transformed by
 * world * view * proj, clipped against the canonical view volume, mapped to
 * the viewport and drawn as anti-aliased lines (Xiaolin Wu's algorithm)
 * under a strict depth test.
 */
module Wireframes {
  import opened Vectors
  import opened Matrices
  import opened Numbers
  import opened Colors
  import opened Clipping
  import opened Shapes
  import opened Raster
  import opened Primitives

  /** `abs` on doubles. */
  function Abs(r: real): (a: real)
    ensures a >= 0.0 && (a == r || a == -r)
  {
    if r < 0.0 then -r else r
  }

  /** The three matrices a Wireframe3D projects by, as one value. */
  datatype Transforms = Transforms(world: Matrix4, view: Matrix4, proj: Matrix4)

  /** world * view * proj, the product `end` projects by. */
  function Product(t: Transforms): Matrix4 {
    Times(Times(t.world, t.view), t.proj)
  }

  class Wireframe3D {
    var world: Matrix4
    var view: Matrix4
    var proj: Matrix4
    var comb: Matrix4
    /** The 64 scratch vertices; `Vertex.set`, `copy`, `lerp`, `project` and `screen` overwrite a slot. */
    const vertices: array<Vector4>
    const viewport: Rectangle
    /** The image's pixels, shared with the caller. */
    const colorBuffer: array<Argb>
    const depthBuffer: array<Depth>
    var drawMode: Mode
    var dirty: bool
    var count: int
    var rgb: Argb
    var fill: Argb
    var offset: real
    /** Every batch `end` has drawn, in order. */
    ghost var primitives: seq<Primitive>
    /** Every segment handed to `drawLine`, in order. */
    ghost var segments: seq<Segment>
    /** The segments each batch in `primitives` was drawn as, batch by batch. */
    ghost var drawn: seq<seq<Segment>>

    /**
     * The viewport is the image less its last three rows, the buffers cover
     * the whole image, and the batch fits the scratch vertices.
     */
    predicate Sized()
      reads this`count
    {
      && vertices.Length == 64
      && viewport.x == 0 && viewport.y == 0 && viewport.width >= 1 && viewport.height >= 0
      && colorBuffer.Length == viewport.width * (viewport.height + 3) <= INT_MAX
      && depthBuffer.Length == colorBuffer.Length
      && 0 <= count <= 64
    }

    /**
     * Every batch logged from index k of `primitives` on has been drawn, in
     * colours between tint and the fill colour, since the segment log was s0,
     * the depths d0 and the pixels c0, projected by Product(t): LoggedSince
     * of the logs and the buffers. DrewSinceDrew restates this as Drew.
     */
    ghost predicate DrewSince(k: int, t: Transforms, tint: Argb, s0: seq<Segment>, d0: seq<Depth>, c0: seq<Argb>)
      reads this`primitives, this`drawn, this`fill, this`segments, depthBuffer, colorBuffer
    {
      LoggedSince(primitives, drawn, k, Product(t), fill, tint, s0, segments, d0, depthBuffer[..], c0, colorBuffer[..])
    }

    /** The batches logged from index k on have been drawn as Drew says. */
    lemma DrewSinceDrew(k: int, t: Transforms, tint: Argb, s0: seq<Segment>, d0: seq<Depth>, c0: seq<Argb>,
                        p0: seq<Primitive>, run: seq<Primitive>)
      requires DrewSince(k, t, tint, s0, d0, c0) && primitives == p0 + run && |p0| == k
      ensures Drew(run, Product(t), fill, tint, s0, segments, d0, depthBuffer[..], c0, colorBuffer[..])
    {
      assert primitives[k..] == run;
      LoggedSinceDrew(primitives, drawn, k, Product(t), fill, tint, s0, segments, d0, depthBuffer[..], c0, colorBuffer[..]);
    }

    /** Nothing has been drawn since now, in colours between c and the fill colour. */
    lemma DrewSinceNow(t: Transforms, c: Argb)
      requires |drawn| == |primitives|
      ensures DrewSince(|primitives|, t, c, segments, depthBuffer[..], colorBuffer[..])
    {
      assert drawn[|primitives|..] == [];
    }

    /** What has been drawn since index k, with the pixels as they are now and a new tint. */
    lemma NewTint(k: int, t: Transforms, tint: Argb, s0: seq<Segment>, d0: seq<Depth>, c0: seq<Argb>, c: Argb)
      requires DrewSince(k, t, tint, s0, d0, c0)
      ensures DrewSince(k, t, c, s0, d0, colorBuffer[..])
    {
    }

    /**
     * Valid, with the three matrices named by t: Sized, the cached product is
     * Product(t) unless dirty, and every logged batch has its segments logged.
     */
    ghost predicate Ready(t: Transforms)
      reads this`count, this`dirty, this`comb, this`world, this`view, this`proj, this`primitives, this`drawn
    {
      && Sized() && world == t.world && view == t.view && proj == t.proj
      && (!dirty ==> comb == Product(t)) && |drawn| == |primitives|
    }

    /** Sized, the cached product is current unless dirty, and every logged batch has its segments logged. */
    ghost predicate Valid()
      reads this`count, this`dirty, this`comb, this`world, this`view, this`proj, this`primitives, this`drawn
    {
      Sized() && (!dirty ==> comb == Times(Times(world, view), proj)) && |drawn| == |primitives|
    }

    /** `Wireframe3D(image)`: draws into the image's pixels, of the given width and height. */
    constructor (pixels: array<Argb>, width: int, height: int)
      requires width >= 1 && height >= 3 && pixels.Length == width * height <= INT_MAX
      ensures Valid()
      ensures colorBuffer == pixels && fresh(vertices) && fresh(depthBuffer)
      ensures viewport == Rectangle(0, 0, width, height - 3)
      ensures world == IDENTITY && view == IDENTITY && proj == IDENTITY && comb == IDENTITY
      ensures drawMode == LINE && dirty && count == 0 && rgb == 0 && fill == 0 && offset == 0.0
      ensures forall i :: 0 <= i < depthBuffer.Length ==> depthBuffer[i] == Finite(0.0)
      ensures primitives == [] && segments == [] && drawn == []
    {
      world, view, proj, comb := IDENTITY, IDENTITY, IDENTITY, IDENTITY;
      vertices := new Vector4[64](_ => Vector4(0.0, 0.0, 0.0, 0.0));
      viewport := Rectangle(0, 0, width, height - 3);
      colorBuffer := pixels;
      depthBuffer := new Depth[pixels.Length](_ => Finite(0.0));
      drawMode := LINE;
      dirty := true;
      count := 0;
      rgb, fill := 0, 0;
      offset := 0.0;
      primitives, segments, drawn := [], [], [];
    }

    /** The `color` getter: the drawing colour, made opaque. */
    function Color(): (c: Argb)
      reads this`rgb
      ensures Alpha(c) == 0xff && Red(c) == Red(rgb) && Green(c) == Green(rgb) && Blue(c) == Blue(rgb)
    {
      Opaque(rgb)
    }

    /** The `color` setter. */
    method SetColor(c: Argb)
      modifies this`rgb
      ensures rgb == c
    {
      rgb := c;
    }

    /** `clear`: the drawing colour becomes the fill colour, every pixel gets it, every depth is infinite. */
    method Clear()
      requires Sized()
      modifies this`fill, colorBuffer, depthBuffer
      ensures fill == rgb
      ensures forall i :: 0 <= i < colorBuffer.Length ==> colorBuffer[i] == fill
      ensures forall i :: 0 <= i < depthBuffer.Length ==> depthBuffer[i] == Infinity
    {
      fill := rgb;
      for i := 0 to colorBuffer.Length
        invariant fill == rgb
        invariant forall k :: 0 <= k < i ==> colorBuffer[k] == fill
      {
        colorBuffer[i] := fill;
      }
      for i := 0 to depthBuffer.Length
        invariant fill == rgb
        invariant forall k :: 0 <= k < i ==> depthBuffer[k] == Infinity
        invariant forall k :: 0 <= k < colorBuffer.Length ==> colorBuffer[k] == fill
      {
        depthBuffer[i] := Infinity;
      }
    }

    method Identity()
      requires Valid()
      modifies this`dirty, this`world
      ensures Valid() && dirty && world == IDENTITY
    {
      dirty := true;
      world := IDENTITY;
    }

    /** `rotate`: the world matrix is followed by a rotation about the normalised axis. */
    method Rotate(x: real, y: real, z: real, angle: real, sqrt: real -> real, sin: real -> real, cos: real -> real)
      requires Valid() && Length(Direction(x, y, z), sqrt) != 0.0
      modifies this`dirty, this`world
      ensures Valid() && dirty
      ensures world == Times(old(world), AxisAngle(Normalize(Direction(x, y, z), sqrt), angle, sin, cos))
    {
      dirty := true;
      world := Times(world, AxisAngle(Normalize(Direction(x, y, z), sqrt), angle, sin, cos));
    }

    method Transform(m: Matrix4)
      requires Valid()
      modifies this`dirty, this`world
      ensures Valid() && dirty && world == Times(old(world), m)
    {
      dirty := true;
      world := Times(world, m);
    }

    method View(m: Matrix4)
      requires Valid()
      modifies this`dirty, this`view
      ensures Valid() && dirty && view == m
    {
      dirty := true;
      view := m;
    }

    method Proj(m: Matrix4)
      requires Valid()
      modifies this`dirty, this`proj
      ensures Valid() && dirty && proj == m
    {
      dirty := true;
      proj := m;
    }

    method Begin(mode: Mode)
      requires Sized()
      modifies this`drawMode, this`count
      ensures Sized() && drawMode == mode && count == 0
    {
      drawMode := mode;
      count := 0;
    }

    /** `vertex`: the next slot holds the point (x, y, z, 1); a 65th vertex is out of the array. */
    method Vertex(x: real, y: real, z: real)
      requires Sized() && count < 64
      modifies this`count, vertices
      ensures Sized() && count == old(count) + 1
      ensures vertices[old(count)] == Vector4(x, y, z, 1.0)
      ensures forall k :: 0 <= k < vertices.Length && k != old(count) ==> vertices[k] == old(vertices[k])
    {
      vertices[count] := Vector4(x, y, z, 1.0);
      count := count + 1;
    }

    /** `updateTransform`: the product world * view * proj, recomputed only when dirty. */
    method UpdateTransform() returns (matrix: Matrix4)
      requires Valid()
      modifies this`comb, this`dirty
      ensures Valid() && !dirty
      ensures matrix == comb == Times(Times(world, view), proj)
    {
      if dirty {
        comb := Times(Times(world, view), proj);
        dirty := false;
      }
      return comb;
    }

    // ---------------------------------------------------------------- pixels

    /** `plot`: pixel (px, py) is blended toward the drawing colour by c and made opaque. */
    method Plot(px: int, py: int, c: real)
      requires Sized() && 0 <= py * viewport.width + px < colorBuffer.Length
      modifies colorBuffer
      ensures colorBuffer[..] == old(colorBuffer[..])[py * viewport.width + px :=
        Opaque(Blend(rgb, old(colorBuffer[py * viewport.width + px]), c))]
    {
      var at := py * viewport.width + px;
      colorBuffer[at] := Opaque(Blend(rgb, colorBuffer[at], c));
    }

    /**
     * `wupixel`: if z passes the depth test at the cell of (x, intery), the
     * depth is written and that cell and the next one across the line are
     * blended by the line's coverage of each, scaled by gap.
     */
    method WuPixel(steep: bool, x: int, intery: real, z: real, gap: real)
      requires Sized()
      requires 0 <= x <= MajorExtent(steep, viewport.width, viewport.height)
      requires 0 <= ToInt(intery) <= MinorExtent(steep, viewport.width, viewport.height)
      requires 0.0 <= gap <= 1.0
      modifies colorBuffer, depthBuffer
      ensures var addr := Address(steep, x, ToInt(intery), viewport.width);
        var next := NextAddress(steep, addr, viewport.width);
        InBuffer(steep, x, ToInt(intery), viewport.width, colorBuffer.Length) &&
        if Closer(z, old(depthBuffer[addr])) then
          && depthBuffer[..] == old(depthBuffer[..])[addr := Finite(z)]
          && colorBuffer[..] == old(colorBuffer[..])
               [addr := Opaque(Blend(rgb, old(colorBuffer[addr]), RfPart(intery) * gap))]
               [next := Opaque(Blend(rgb, old(colorBuffer[next]), FPart(intery) * gap))]
        else
          depthBuffer[..] == old(depthBuffer[..]) && colorBuffer[..] == old(colorBuffer[..])
      ensures DepthsLowered(old(depthBuffer[..]), depthBuffer[..])
      ensures Tinted(old(colorBuffer[..]), colorBuffer[..], rgb)
    {
      var y := ToInt(intery);
      var width := viewport.width;
      var addr := if steep then y + x * width else x + y * width;
      var px, py := if steep then y else x, if steep then x else y;
      var qx, qy := if steep then y + 1 else x, if steep then x else y + 1;
      ghost var next := NextAddress(steep, addr, width);
      ViewportFits(width, viewport.height);
      PixelInBounds(steep, x, y, width, viewport.height);
      assert py * width + px == addr && qy * width + qx == next;
      ghost var c0 := colorBuffer[..];
      if Closer(z, depthBuffer[addr]) {
        DepthWriteLowers(depthBuffer[..], addr, z);
        depthBuffer[addr] := Finite(z);
        Plot(px, py, RfPart(intery) * gap);
        assert colorBuffer[next] == c0[next];
        Plot(qx, qy, FPart(intery) * gap);
        ToIntUnsaturated(intery);
        PixelPairTints(c0, addr, next, rgb, intery, gap);
      }
    }

    /**
     * `wuLine`: Xiaolin Wu's line from (x0, y0) to (x1, y1) with depths z0, z1.
     * Both end points lie in the viewport, so every cell it touches is in the
     * buffers; depths only ever decrease and pixels only move toward rgb.
     */
    method WuLine(x0: real, y0: real, z0: real, x1: real, y1: real, z1: real)
      requires Sized()
      requires 0.0 <= x0 <= viewport.width as real && 0.0 <= y0 <= viewport.height as real
      requires 0.0 <= x1 <= viewport.width as real && 0.0 <= y1 <= viewport.height as real
      modifies colorBuffer, depthBuffer
      ensures DepthsLowered(old(depthBuffer[..]), depthBuffer[..])
      ensures Tinted(old(colorBuffer[..]), colorBuffer[..], rgb)
    {
      var xa, ya, za, xb, yb, zb := x0, y0, z0, x1, y1, z1;
      var steep := Abs(yb - ya) > Abs(xb - xa);
      if steep {
        xa, ya := ya, xa;
        xb, yb := yb, xb;
      }
      if xa > xb {
        xa, xb := xb, xa;
        ya, yb := yb, ya;
        za, zb := zb, za;
      }
      if xb - xa == 0.0 {
        return;
      }
      WuOrdered(steep, xa, ya, za, xb, yb, zb);
    }

    /**
     * The rest of `wuLine`, once the major axis is x and xa < xb: the two
     * rounded end caps, then every whole x strictly between them.
     */
    method WuOrdered(steep: bool, xa: real, ya: real, za: real, xb: real, yb: real, zb: real)
      requires Sized()
      requires 0.0 <= xa < xb <= MajorExtent(steep, viewport.width, viewport.height) as real
      requires 0.0 <= ya <= MinorExtent(steep, viewport.width, viewport.height) as real
      requires 0.0 <= yb <= MinorExtent(steep, viewport.width, viewport.height) as real
      requires -(xb - xa) <= yb - ya <= xb - xa
      modifies colorBuffer, depthBuffer
      ensures DepthsLowered(old(depthBuffer[..]), depthBuffer[..])
      ensures Tinted(old(colorBuffer[..]), colorBuffer[..], rgb)
    {
      var dx, dy, dz := xb - xa, yb - ya, zb - za;
      var gy, gz := dy / dx, dz / dx;
      GentleSlope(dy, dx);

      ghost var d0, c0 := depthBuffer[..], colorBuffer[..];
      var xend0, yend0, zend0 := WuCap(steep, xa, ya, za, gy, gz, false);
      ghost var d1, c1 := depthBuffer[..], colorBuffer[..];
      var xend1, _, _ := WuCap(steep, xb, yb, zb, gy, gz, true);
      DepthsLoweredTransitive(d0, d1, depthBuffer[..]);
      TintedTransitive(c0, c1, colorBuffer[..], rgb);

      StepAlong(ya, gy, xend0, xa);
      ghost var d2, c2 := depthBuffer[..], colorBuffer[..];
      WuSpan(steep, xa, ya, xb, yb, gy, gz, xend0 + 1, xend1, yend0 + gy, zend0 + gz);
      DepthsLoweredTransitive(d0, d2, depthBuffer[..]);
      TintedTransitive(c0, c2, colorBuffer[..], rgb);
    }

    /**
     * An end cap of `wuLine`: the end point (x, y, z) is rounded to the
     * nearest whole x, y and z follow the gradients there, and the pixel is
     * drawn with the share of the rounded cell the line covers, rfPart of
     * x + 0.5 at the start and fPart of it at the far end.
     */
    method WuCap(steep: bool, x: real, y: real, z: real, gy: real, gz: real, far: bool)
        returns (xend: int, yend: real, zend: real)
      requires Sized()
      requires 0.0 <= x <= MajorExtent(steep, viewport.width, viewport.height) as real
      requires 0.0 <= y <= MinorExtent(steep, viewport.width, viewport.height) as real
      requires -1.0 <= gy <= 1.0
      modifies colorBuffer, depthBuffer
      ensures xend == ToInt(x + 0.5) && x - 0.5 < xend as real <= x + 0.5
      ensures 0 <= xend <= MajorExtent(steep, viewport.width, viewport.height)
      ensures yend == Along(y, gy, xend as real, x) && zend == Along(z, gz, xend as real, x)
      ensures DepthsLowered(old(depthBuffer[..]), depthBuffer[..])
      ensures Tinted(old(colorBuffer[..]), colorBuffer[..], rgb)
    {
      ViewportFits(viewport.width, viewport.height);
      xend := ToInt(x + 0.5);
      yend := Along(y, gy, xend as real, x);
      zend := Along(z, gz, xend as real, x);
      CapPixel(steep, x, y, gy, viewport.width, viewport.height);
      FractionalParts(x + 0.5);
      var xgap := if far then FPart(x + 0.5) else RfPart(x + 0.5);
      WuPixel(steep, xend, yend, zend, xgap);
    }

    /**
     * The loop of `wuLine`: one full-coverage `wupixel` at every whole x from
     * `from` until `until`, stepping the interpolated y and z by gy and gz.
     */
    method WuSpan(steep: bool, xa: real, ya: real, xb: real, yb: real, gy: real, gz: real,
                  from: int, until: int, intery0: real, interz0: real)
      requires Sized()
      requires xa < xb && gy == (yb - ya) / (xb - xa)
      requires 0.0 <= ya <= MinorExtent(steep, viewport.width, viewport.height) as real
      requires 0.0 <= yb <= MinorExtent(steep, viewport.width, viewport.height) as real
      requires 0 <= from && xa <= from as real && until as real <= xb + 1.0
      requires until <= MajorExtent(steep, viewport.width, viewport.height) + 1
      requires intery0 == Along(ya, gy, from as real, xa)
      modifies colorBuffer, depthBuffer
      ensures DepthsLowered(old(depthBuffer[..]), depthBuffer[..])
      ensures Tinted(old(colorBuffer[..]), colorBuffer[..], rgb)
    {
      ViewportFits(viewport.width, viewport.height);
      var intery, interz := intery0, interz0;
      var x := from;
      while x < until
        invariant from <= x && (x <= until || x == from)
        invariant intery == Along(ya, gy, x as real, xa)
        invariant DepthsLowered(old(depthBuffer[..]), depthBuffer[..])
        invariant Tinted(old(colorBuffer[..]), colorBuffer[..], rgb)
      {
        SpanPixel(steep, xa, ya, yb, xb - xa, gy, x, viewport.width, viewport.height);
        ghost var d, c := depthBuffer[..], colorBuffer[..];
        WuPixel(steep, x, intery, interz, 1.0);
        DepthsLoweredTransitive(old(depthBuffer[..]), d, depthBuffer[..]);
        TintedTransitive(old(colorBuffer[..]), c, colorBuffer[..], rgb);
        StepAlong(ya, gy, x, xa);
        intery := intery + gy;
        interz := interz + gz;
        x := x + 1;
      }
    }

    // ---------------------------------------------------------------- clipping and segments

    /** `clip`: the five rounds of outcode clipping, moving the two slots' vertices. */
    method Clip(ia: int, ib: int) returns (accepted: bool)
      requires Sized() && 0 <= ia < 64 && 0 <= ib < 64 && ia != ib
      modifies vertices
      ensures var c := ClipRounds(old(vertices[ia]), old(vertices[ib]), CLIP_ROUNDS);
        accepted == c.accepted && vertices[ia] == c.a && vertices[ib] == c.b
      ensures forall k :: 0 <= k < vertices.Length && k != ia && k != ib ==> vertices[k] == old(vertices[k])
    {
      var i := 0;
      while i < 5
        invariant 0 <= i <= 5
        invariant ClipRounds(vertices[ia], vertices[ib], CLIP_ROUNDS - i)
               == ClipRounds(old(vertices[ia]), old(vertices[ib]), CLIP_ROUNDS)
        invariant forall k :: 0 <= k < vertices.Length && k != ia && k != ib ==> vertices[k] == old(vertices[k])
      {
        var a, b := vertices[ia], vertices[ib];
        var opCodeA, opCodeB := ClipMask(a), ClipMask(b);
        if opCodeA == 0 && opCodeB == 0 {
          return true;
        }
        if opCodeA & opCodeB != 0 {
          return false;
        }
        if opCodeA != 0 {
          FirstStepLandsOnPlane(a, b);
          vertices[ia] := ClipLine(a, b, opCodeA).value;
        }
        if opCodeB != 0 {
          var moved := ClipLine(b, vertices[ia], opCodeB);
          if moved.None? {
            return false;
          }
          vertices[ib] := moved.value;
        }
        i := i + 1;
      }
      return false;
    }

    /**
     * `drawLine`: a segment the clipper accepts is mapped to the viewport and
     * drawn with its w, plus the depth offset, as depth; a rejected one leaves
     * both buffers as they were.
     */
    method DrawLine(ia: int, ib: int)
      requires Sized() && 0 <= ia < 64 && 0 <= ib < 64 && ia != ib
      modifies vertices, colorBuffer, depthBuffer, this`segments
      ensures segments == old(segments) + [Segment(old(vertices[ia]), old(vertices[ib]), rgb, offset)]
      ensures forall k :: 0 <= k < vertices.Length && k != ia && k != ib ==> vertices[k] == old(vertices[k])
      ensures DepthsLowered(old(depthBuffer[..]), depthBuffer[..])
      ensures Tinted(old(colorBuffer[..]), colorBuffer[..], rgb)
      ensures Culled(Segment(old(vertices[ia]), old(vertices[ib]), rgb, offset)) ==>
        colorBuffer[..] == old(colorBuffer[..]) && depthBuffer[..] == old(depthBuffer[..])
    {
      segments := segments + [Segment(vertices[ia], vertices[ib], rgb, offset)];
      var accepted := Clip(ia, ib);
      if accepted && vertices[ia].w != 0.0 && vertices[ib].w != 0.0 {
        ClipAcceptsOnlyInside(old(vertices[ia]), old(vertices[ib]), CLIP_ROUNDS);
        InsideHasNonnegativeW(vertices[ia]);
        InsideHasNonnegativeW(vertices[ib]);
        ScreenInViewport(vertices[ia], viewport);
        ScreenInViewport(vertices[ib], viewport);
        vertices[ia] := Screen(vertices[ia], viewport);
        vertices[ib] := Screen(vertices[ib], viewport);
        WuLine(vertices[ia].x, vertices[ia].y, vertices[ia].w + offset,
               vertices[ib].x, vertices[ib].y, vertices[ib].w + offset);
      }
    }

    // ---------------------------------------------------------------- batches

    /**
     * `drawLines`: the slots are projected a pair at a time and each pair
     * (0, 1), (2, 3), ... is drawn as a segment.
     */
    method DrawLines(matrix: Matrix4)
      requires Sized()
      modifies vertices, colorBuffer, depthBuffer, this`segments
      ensures var ss := LineSegments(Projected(old(vertices[..count]), matrix), rgb, offset);
        && segments == old(segments) + ss
        && Drawn(ss, rgb, old(depthBuffer[..]), depthBuffer[..], old(colorBuffer[..]), colorBuffer[..])
    {
      ghost var d0, c0 := depthBuffer[..], colorBuffer[..];
      ghost var ps := Projected(vertices[..count], matrix);
      ghost var all := LineSegments(ps, rgb, offset);
      DrawnNothing(rgb, d0, c0);
      var i := 0;
      ghost var n := 0;
      if count > 1 {
        while i < count - 1
          invariant 0 <= i <= count && i == 2 * n
          invariant forall k :: i <= k < vertices.Length ==> vertices[k] == old(vertices[k])
          invariant segments == old(segments) + all[..n]
          invariant Drawn(all[..n], rgb, d0, depthBuffer[..], c0, colorBuffer[..])
        {
          assert all[n] == Segment(ps[i], ps[i + 1], rgb, offset);
          ghost var d, c := depthBuffer[..], colorBuffer[..];
          DrawPair(matrix, i);
          DrawnStep(all, n, rgb, d0, d, depthBuffer[..], c0, c, colorBuffer[..]);
          LogGrows(old(segments), all, n);
          i, n := i + 2, n + 1;
        }
        assert count == 2 * n || count == 2 * n + 1;
      }
      assert all[..n] == all;
    }

    /** One step of `drawLines`: slots i and i + 1 are projected and drawn as a segment. */
    method DrawPair(matrix: Matrix4, i: int)
      requires Sized() && 0 <= i && i + 1 < vertices.Length
      modifies vertices, colorBuffer, depthBuffer, this`segments
      ensures var s := Segment(RowTimes(old(vertices[i]), matrix), RowTimes(old(vertices[i + 1]), matrix), rgb, offset);
        && segments == old(segments) + [s]
        && Drawn([s], rgb, old(depthBuffer[..]), depthBuffer[..], old(colorBuffer[..]), colorBuffer[..])
      ensures forall k :: 0 <= k < vertices.Length && k != i && k != i + 1 ==> vertices[k] == old(vertices[k])
    {
      vertices[i] := RowTimes(vertices[i], matrix);
      vertices[i + 1] := RowTimes(vertices[i + 1], matrix);
      DrawLine(i, i + 1);
      assert [segments[|segments| - 1]][0] == segments[|segments| - 1];
    }

    /**
     * `drawPolygon`: every slot is projected; a back face is drawn lighter and
     * further away; then the outline is drawn, the closing edge first.
     */
    method DrawPolygon(matrix: Matrix4)
      requires Sized() && count <= 32
      modifies vertices, colorBuffer, depthBuffer, this`segments, this`rgb, this`offset
      ensures var ps := Projected(old(vertices[..count]), matrix);
        && rgb == EndColor(POLYGON, ps, old(rgb), fill)
        && offset == (if BackFacing(POLYGON, ps) then 0.05 else old(offset))
        && segments == old(segments) + PolygonSegments(ps, rgb, offset)
        && (count > 2 ==> vertices[..count] == ps)
        && Drawn(PolygonSegments(ps, rgb, offset), rgb,
                 old(depthBuffer[..]), depthBuffer[..], old(colorBuffer[..]), colorBuffer[..])
    {
      ghost var ps := Projected(vertices[..count], matrix);
      if count > 2 {
        ProjectAll(matrix);
        if IsBackFacing(vertices[0], vertices[1], vertices[2]) {
          rgb := Blend(rgb, fill, 0.20);
          offset := 0.05;
        }
        DrawOutline();
      } else {
        DrawnNothing(rgb, depthBuffer[..], colorBuffer[..]);
      }
    }

    /** The projection loop of `drawPolygon`: every slot of the batch is projected in place. */
    method ProjectAll(matrix: Matrix4)
      requires Sized()
      modifies vertices
      ensures vertices[..count] == Projected(old(vertices[..count]), matrix)
      ensures forall k :: count <= k < vertices.Length ==> vertices[k] == old(vertices[k])
    {
      for i := 0 to count
        invariant forall k :: 0 <= k < i ==> vertices[k] == RowTimes(old(vertices[k]), matrix)
        invariant forall k :: i <= k < vertices.Length ==> vertices[k] == old(vertices[k])
      {
        vertices[i] := RowTimes(vertices[i], matrix);
      }
    }

    /**
     * The drawing part of `drawPolygon`: the edges of the (projected)
     * batch go through the two slots after twice the count, the closing edge
     * first and then the others walking back to the first vertex.
     */
    method DrawOutline()
      requires Sized() && 2 < count <= 32
      modifies vertices, colorBuffer, depthBuffer, this`segments
      ensures vertices[..count] == old(vertices[..count])
      ensures segments == old(segments) + PolygonSegments(old(vertices[..count]), rgb, offset)
      ensures Drawn(PolygonSegments(old(vertices[..count]), rgb, offset), rgb,
                    old(depthBuffer[..]), depthBuffer[..], old(colorBuffer[..]), colorBuffer[..])
    {
      ghost var d0, c0 := depthBuffer[..], colorBuffer[..];
      ghost var ps := vertices[..count];
      ghost var all := PolygonSegments(ps, rgb, offset);
      var pad := 2 * count - 1;
      PolygonSegmentAt(ps, rgb, offset, 0);
      DrawEdge(pad, pad / 2, 0);
      assert all[..1] == [all[0]];
      var i := pad - 2;
      ghost var j := 1;
      while i > 0
        invariant -1 <= i <= pad - 2 && i == pad - 2 * j
        invariant forall k :: 0 <= k < count ==> vertices[k] == ps[k]
        invariant segments == old(segments) + all[..j]
        invariant Drawn(all[..j], rgb, d0, depthBuffer[..], c0, colorBuffer[..])
      {
        var e := (i + 1) / 2;
        ghost var d, c := depthBuffer[..], colorBuffer[..];
        OutlineEdge(ps, pad, e, j);
        DrawnStep(all, j, rgb, d0, d, depthBuffer[..], c0, c, colorBuffer[..]);
        LogGrows(old(segments), all, j);
        i, j := i - 2, j + 1;
      }
      assert all[..j] == all;
      assert vertices[..count] == ps;
    }

    /** Pass j of `drawPolygon`'s loop: the edge from vertex e to vertex e - 1 is segment j of the outline. */
    method OutlineEdge(ghost ps: seq<Vector4>, pad: int, e: int, ghost j: int)
      requires Sized() && 2 < count <= 32 && |ps| == count && pad == 2 * count - 1 && 0 < j < count && e == count - j
      requires forall k :: 0 <= k < count ==> vertices[k] == ps[k]
      modifies vertices, colorBuffer, depthBuffer, this`segments
      ensures forall k :: 0 <= k < count ==> vertices[k] == ps[k]
      ensures segments == old(segments) + [PolygonSegments(ps, rgb, offset)[j]]
      ensures Drawn([PolygonSegments(ps, rgb, offset)[j]], rgb,
                    old(depthBuffer[..]), depthBuffer[..], old(colorBuffer[..]), colorBuffer[..])
    {
      PolygonSegmentAt(ps, rgb, offset, j);
      DrawEdge(pad, e - 1, e);
    }

    /** One `drawLine(v0.copy(...), v1.copy(...))` of `drawPolygon`: slots a and b are drawn through the pad slots. */
    method DrawEdge(pad: int, a: int, b: int)
      requires Sized() && 0 <= a < pad - 1 && 0 <= b < pad - 1 && pad < vertices.Length
      modifies vertices, colorBuffer, depthBuffer, this`segments
      ensures var s := Segment(old(vertices[a]), old(vertices[b]), rgb, offset);
        && segments == old(segments) + [s]
        && Drawn([s], rgb, old(depthBuffer[..]), depthBuffer[..], old(colorBuffer[..]), colorBuffer[..])
      ensures forall k :: 0 <= k < pad - 1 ==> vertices[k] == old(vertices[k])
    {
      vertices[pad - 1] := vertices[a];
      vertices[pad] := vertices[b];
      DrawLine(pad - 1, pad);
      assert [segments[|segments| - 1]][0] == segments[|segments| - 1];
    }

    /**
     * `end`: the batch is drawn in its mode with the current product of the
     * three matrices and a zero depth offset (a back face raises it), and the
     * drawing colour is restored afterwards.
     */
    method End()
      requires Valid() && (drawMode == POLYGON ==> count <= 32)
      modifies this`primitives, this`drawn, this`offset, this`comb, this`dirty, this`segments, this`rgb
      modifies vertices, colorBuffer, depthBuffer
      ensures Valid() && !dirty && drawMode == old(drawMode) && count == old(count)
      ensures rgb == old(rgb)
      ensures primitives == old(primitives) + [Primitive(drawMode, old(vertices[..count]), rgb)]
      ensures var ps := Projected(old(vertices[..count]), comb);
        && offset == EndOffset(drawMode, ps)
        && segments == old(segments) + EndSegments(drawMode, ps, rgb, fill)
        && drawn == old(drawn) + [EndSegments(drawMode, ps, rgb, fill)]
        && Drawn(EndSegments(drawMode, ps, rgb, fill), EndColor(drawMode, ps, rgb, fill),
                 old(depthBuffer[..]), depthBuffer[..], old(colorBuffer[..]), colorBuffer[..])
        && (drawMode == POLYGON && count > 2 ==> vertices[..count] == ps)
    {
      ghost var batch, s0, d0, c0 := vertices[..count], segments, depthBuffer[..], colorBuffer[..];
      var matrix := UpdateTransform();
      DrawBatch(matrix, batch, s0, d0, c0);
      primitives := primitives + [Primitive(drawMode, batch, rgb)];
      drawn := drawn + [EndSegments(drawMode, Projected(batch, matrix), rgb, fill)];
    }

    /**
     * `end` as the shape builders use it: the batches logged from index k on
     * have been drawn (see DrewSince), and `end` adds its batch to them.
     */
    method Finish(ghost k: int, ghost t: Transforms, ghost tint: Argb, ghost s0: seq<Segment>, ghost d0: seq<Depth>, ghost c0: seq<Argb>)
      requires Ready(t) && (drawMode == POLYGON ==> count <= 32)
      requires DrewSince(k, t, tint, s0, d0, c0) && Among(rgb, tint, fill)
      modifies this`primitives, this`drawn, this`offset, this`comb, this`dirty, this`segments, this`rgb
      modifies vertices, colorBuffer, depthBuffer
      ensures Ready(t) && !dirty && rgb == old(rgb)
      ensures primitives == old(primitives) + [Primitive(drawMode, old(vertices[..count]), rgb)]
      ensures DrewSince(k, t, tint, s0, d0, c0)
    {
      ghost var m := Product(t);
      ghost var p := Primitive(drawMode, vertices[..count], rgb);
      ghost var ps, ds, s1, d1, c1 := primitives, drawn, segments, depthBuffer[..], colorBuffer[..];
      End();
      LoggedSinceEnd(ps, ds, k, m, fill, tint, p, s0, s1, segments, d0, d1, depthBuffer[..], c0, c1, colorBuffer[..]);
    }

    /**
     * The rest of `end`: no depth offset to start from, the `when (drawMode)`, and
     * the drawing colour put back as it was. The ghost parameters name the batch,
     * the segment log and the two buffers as they are on entry.
     */
    method DrawBatch(matrix: Matrix4, ghost batch: seq<Vector4>, ghost s0: seq<Segment>,
                     ghost d0: seq<Depth>, ghost c0: seq<Argb>)
      requires Sized() && (drawMode == POLYGON ==> count <= 32)
      requires batch == vertices[..count] && s0 == segments
      requires d0 == depthBuffer[..] && c0 == colorBuffer[..]
      modifies vertices, colorBuffer, depthBuffer, this`segments, this`rgb, this`offset
      ensures var ps := Projected(batch, matrix);
        && rgb == old(rgb)
        && offset == EndOffset(drawMode, ps)
        && segments == s0 + EndSegments(drawMode, ps, rgb, fill)
        && Drawn(EndSegments(drawMode, ps, rgb, fill), EndColor(drawMode, ps, rgb, fill),
                 d0, depthBuffer[..], c0, colorBuffer[..])
        && (drawMode == POLYGON && count > 2 ==> vertices[..count] == ps)
    {
      offset := 0.0;
      var oldRgb := rgb;
      match drawMode
      case LINE => DrawLines(matrix);
      case POLYGON => DrawPolygon(matrix);
      rgb := oldRgb;
    }

    // ---------------------------------------------------------------- shapes
    //
    // Below the top-level builders, each method also takes, as ghost
    // parameters, a DrewSince fact about the batches logged so far, and keeps
    // it: the batches it adds to `primitives` are drawn as well.

    /** `drawAxis`: a LINE batch from the origin along each axis, in the colours cx, cy and cz. */
    method DrawAxis(scale: real, cx: Argb, cy: Argb, cz: Argb)
      requires Valid()
      modifies this`primitives, this`drawn, this`segments, this`rgb, this`offset, this`comb, this`dirty, this`drawMode, this`count
      modifies vertices, colorBuffer, depthBuffer
      ensures Valid()
      ensures rgb == cz
      ensures primitives == old(primitives) + AxisPrimitives(scale, cx, cy, cz)
      ensures Logged(AxisPrimitives(scale, cx, cy, cz), Times(Times(world, view), proj), fill,
                     old(segments), segments, old(depthBuffer[..]), depthBuffer[..])
    {
      ghost var t := Transforms(world, view, proj);
      ghost var k, s0, d0 := |primitives|, segments, depthBuffer[..];
      ghost var c0 := colorBuffer[..];
      DrewSinceNow(t, cx);
      SetColor(cx);
      AxisLine(scale, 0.0, 0.0, k, t, cx, s0, d0, c0);
      NewTint(k, t, cx, s0, d0, c0, cy);
      c0 := colorBuffer[..];
      SetColor(cy);
      AxisLine(0.0, scale, 0.0, k, t, cy, s0, d0, c0);
      NewTint(k, t, cy, s0, d0, c0, cz);
      c0 := colorBuffer[..];
      SetColor(cz);
      AxisLine(0.0, 0.0, scale, k, t, cz, s0, d0, c0);
      DrewSinceDrew(k, t, cz, s0, d0, c0, old(primitives), AxisPrimitives(scale, cx, cy, cz));
    }

    /** One batch of `drawAxis`: in the drawing colour, a LINE from the origin to (x, y, z). */
    method AxisLine(x: real, y: real, z: real,
                    ghost k: int, ghost t: Transforms, ghost tint: Argb, ghost s0: seq<Segment>, ghost d0: seq<Depth>, ghost c0: seq<Argb>)
      requires Ready(t) && DrewSince(k, t, tint, s0, d0, c0) && Among(rgb, tint, fill)
      modifies this`primitives, this`drawn, this`segments, this`rgb, this`offset, this`comb, this`dirty, this`drawMode, this`count
      modifies vertices, colorBuffer, depthBuffer
      ensures Ready(t) && rgb == old(rgb)
      ensures primitives == old(primitives) + [Primitive(LINE, [Vector4(0.0, 0.0, 0.0, 1.0), Vector4(x, y, z, 1.0)], rgb)]
      ensures DrewSince(k, t, tint, s0, d0, c0)
    {
      Begin(LINE);
      Vertex(0.0, 0.0, 0.0);
      Vertex(x, y, z);
      assert vertices[..count] == [Vector4(0.0, 0.0, 0.0, 1.0), Vector4(x, y, z, 1.0)];
      Finish(k, t, tint, s0, d0, c0);
    }

    /**
     * `drawGrid`: in a colour a quarter of the way from `color` to the fill
     * colour, a cross of lines at every step from -size/2 to size/2 except 0;
     * then, half way to the fill colour, the two lines through the centre.
     */
    method DrawGrid(size: real, step: real, color: Argb)
      requires Valid() && (step > 0.0 || size < 0.0)
      modifies this`primitives, this`drawn, this`segments, this`rgb, this`offset, this`comb, this`dirty, this`drawMode, this`count
      modifies vertices, colorBuffer, depthBuffer
      ensures Valid()
      ensures rgb == Opaque(Blend(color, fill, 0.5))
      ensures primitives == old(primitives) + GridPrimitives(size, step, color, fill)
      ensures Drew(GridPrimitives(size, step, color, fill), Times(Times(world, view), proj), fill, color,
                   old(segments), segments, old(depthBuffer[..]), depthBuffer[..], old(colorBuffer[..]), colorBuffer[..])
    {
      ghost var t := Transforms(world, view, proj);
      var half := size * 0.5;
      var lines, axes := Opaque(Blend(color, fill, 0.25)), Opaque(Blend(color, fill, 0.5));
      assert GridPrimitives(size, step, color, fill) == GridRows(-half, half, step, lines) + [GridCross(half, 0.0, axes)];
      ghost var k, s0, d0, c0 := |primitives|, segments, depthBuffer[..], colorBuffer[..];
      DrewSinceNow(t, color);
      BlendBetween(color, fill, 0.25);
      BlendBetween(color, fill, 0.5);
      SetColor(lines);
      GridLoop(half, step, k, t, color, s0, d0, c0);
      SetColor(axes);
      GridLines(half, 0.0, k, t, color, s0, d0, c0);
      DrewSinceDrew(k, t, color, s0, d0, c0, old(primitives), GridPrimitives(size, step, color, fill));
    }

    /** The loop of `drawGrid`, in the drawing colour: a cross at every step from -half to half except 0. */
    method GridLoop(half: real, step: real,
                    ghost k: int, ghost t: Transforms, ghost tint: Argb, ghost s0: seq<Segment>, ghost d0: seq<Depth>, ghost c0: seq<Argb>)
      requires Ready(t) && (step > 0.0 || -half > half)
      requires DrewSince(k, t, tint, s0, d0, c0) && Among(rgb, tint, fill)
      modifies this`primitives, this`drawn, this`segments, this`rgb, this`offset, this`comb, this`dirty, this`drawMode, this`count
      modifies vertices, colorBuffer, depthBuffer
      ensures Ready(t) && rgb == old(rgb)
      ensures primitives == old(primitives) + GridRows(-half, half, step, rgb)
      ensures DrewSince(k, t, tint, s0, d0, c0)
    {
      var i := -half;
      while i <= half
        invariant Ready(t) && rgb == old(rgb)
        invariant step > 0.0 || i > half
        invariant old(primitives) + GridRows(-half, half, step, rgb) == primitives + GridRows(i, half, step, rgb)
        invariant DrewSince(k, t, tint, s0, d0, c0)
        decreases GridSteps(i, half, step)
      {
        GridStepShrinks(i, half, step);
        GridPass(half, step, i, k, t, tint, s0, d0, c0);
        i := i + step;
      }
      assert GridRows(i, half, step, rgb) == [];
    }

    /** One pass of `drawGrid`'s loop: the cross at i unless i is 0, which leaves GridRows from i + step to come. */
    method GridPass(half: real, step: real, i: real,
                    ghost k: int, ghost t: Transforms, ghost tint: Argb, ghost s0: seq<Segment>, ghost d0: seq<Depth>, ghost c0: seq<Argb>)
      requires Ready(t) && step > 0.0 && i <= half
      requires DrewSince(k, t, tint, s0, d0, c0) && Among(rgb, tint, fill)
      modifies this`primitives, this`drawn, this`segments, this`rgb, this`offset, this`comb, this`dirty, this`drawMode, this`count
      modifies vertices, colorBuffer, depthBuffer
      ensures Ready(t) && rgb == old(rgb)
      ensures old(primitives) + GridRows(i, half, step, rgb) == primitives + GridRows(i + step, half, step, rgb)
      ensures DrewSince(k, t, tint, s0, d0, c0)
    {
      GridRowsStep(i, half, step, rgb);
      if i != 0.0 {
        GridLines(half, i, k, t, tint, s0, d0, c0);
      }
    }

    /** One LINE batch of `drawGrid`: the line at z = i and the line at x = i, across the square of side 2 * half. */
    method GridLines(half: real, i: real,
                     ghost k: int, ghost t: Transforms, ghost tint: Argb, ghost s0: seq<Segment>, ghost d0: seq<Depth>, ghost c0: seq<Argb>)
      requires Ready(t) && DrewSince(k, t, tint, s0, d0, c0) && Among(rgb, tint, fill)
      modifies this`primitives, this`drawn, this`segments, this`rgb, this`offset, this`comb, this`dirty, this`drawMode, this`count
      modifies vertices, colorBuffer, depthBuffer
      ensures Ready(t) && rgb == old(rgb)
      ensures primitives == old(primitives) + [GridCross(half, i, rgb)]
      ensures DrewSince(k, t, tint, s0, d0, c0)
    {
      FourVertices(LINE, Vector4(-half, 0.0, i, 1.0), Vector4(half, 0.0, i, 1.0),
                   Vector4(i, 0.0, -half, 1.0), Vector4(i, 0.0, half, 1.0));
      assert vertices[..count] == GridCross(half, i, rgb).points;
      Finish(k, t, tint, s0, d0, c0);
    }

    /**
     * `drawPlane`: the rectangle of the given width and depth on y = 0, centred
     * at the origin, as one POLYGON batch of its four corners.
     */
    method DrawPlane(width: real, depth: real, color: Argb)
      requires Valid()
      modifies this`primitives, this`drawn, this`segments, this`rgb, this`offset, this`comb, this`dirty, this`drawMode, this`count
      modifies vertices, colorBuffer, depthBuffer
      ensures Valid()
      ensures rgb == color
      ensures primitives == old(primitives) + [PlanePrimitive(width, depth, color)]
      ensures Drew([PlanePrimitive(width, depth, color)], Times(Times(world, view), proj), fill, color,
                   old(segments), segments, old(depthBuffer[..]), depthBuffer[..], old(colorBuffer[..]), colorBuffer[..])
    {
      ghost var t := Transforms(world, view, proj);
      ghost var k, s0, d0, c0 := |primitives|, segments, depthBuffer[..], colorBuffer[..];
      DrewSinceNow(t, color);
      SetColor(color);
      RenderPolygon(Vector4(-width * 0.5, 0.0, depth * 0.5, 1.0), Vector4(width * 0.5, 0.0, depth * 0.5, 1.0),
                    Vector4(width * 0.5, 0.0, -depth * 0.5, 1.0), Vector4(-width * 0.5, 0.0, -depth * 0.5, 1.0),
                    k, t, color, s0, d0, c0);
      DrewSinceDrew(k, t, color, s0, d0, c0, old(primitives), [PlanePrimitive(width, depth, color)]);
    }

    /** `drawCube`: one POLYGON batch per side of the box from min to max, each side's corners looked up in the index table. */
    method DrawCube(min: Vector4, max: Vector4, color: Argb)
      requires Valid()
      modifies this`primitives, this`drawn, this`segments, this`rgb, this`offset, this`comb, this`dirty, this`drawMode, this`count
      modifies vertices, colorBuffer, depthBuffer
      ensures Valid()
      ensures rgb == color
      ensures primitives == old(primitives) + CubePrimitives(min, max, color)
      ensures Drew(CubePrimitives(min, max, color), Times(Times(world, view), proj), fill, color,
                   old(segments), segments, old(depthBuffer[..]), depthBuffer[..], old(colorBuffer[..]), colorBuffer[..])
    {
      ghost var t := Transforms(world, view, proj);
      ghost var k, s0, d0, c0 := |primitives|, segments, depthBuffer[..], colorBuffer[..];
      DrewSinceNow(t, color);
      SetColor(color);
      var corners := CubeCorners(min, max);
      for side := 0 to 6
        invariant Ready(t)
        invariant rgb == color
        invariant primitives == old(primitives) + CubePrimitives(min, max, color)[..side]
        invariant DrewSince(k, t, color, s0, d0, c0)
      {
        ghost var p := primitives;
        CubeSide(corners, side, k, t, color, s0, d0, c0);
        assert CubePrimitives(min, max, color)[..side + 1] == CubePrimitives(min, max, color)[..side] + [primitives[|p|]];
      }
      DrewSinceDrew(k, t, color, s0, d0, c0, old(primitives), CubePrimitives(min, max, color));
    }

    /** One pass of `drawCube`'s loop: the POLYGON batch of the four corners the index table gives for `side`. */
    method CubeSide(corners: seq<Vector4>, side: int,
                    ghost k: int, ghost t: Transforms, ghost tint: Argb, ghost s0: seq<Segment>, ghost d0: seq<Depth>, ghost c0: seq<Argb>)
      requires Ready(t) && |corners| == 8 && 0 <= side < 6
      requires DrewSince(k, t, tint, s0, d0, c0) && Among(rgb, tint, fill)
      modifies this`primitives, this`drawn, this`segments, this`rgb, this`offset, this`comb, this`dirty, this`drawMode, this`count
      modifies vertices, colorBuffer, depthBuffer
      ensures Ready(t) && rgb == old(rgb)
      ensures primitives == old(primitives) + [SidePrimitive(corners, side, rgb)]
      ensures DrewSince(k, t, tint, s0, d0, c0)
    {
      var indices := CUBE_INDICES;
      ghost var points := SidePrimitive(corners, side, rgb).points;
      Begin(POLYGON);
      for index := 0 to 4
        invariant Ready(t) && drawMode == POLYGON && count == index
        invariant rgb == old(rgb)
        invariant primitives == old(primitives) && DrewSince(k, t, tint, s0, d0, c0)
        invariant forall j :: 0 <= j < index ==> vertices[j] == points[j]
      {
        var i := indices[side * 4 + index];
        assert i == Side(side)[index];
        Vertex(corners[i].x, corners[i].y, corners[i].z);
      }
      assert vertices[..count] == points;
      Finish(k, t, tint, s0, d0, c0);
    }

    /**
     * `drawSphere`: the meridian of stacks + 1 points is swept about y into
     * slices + 1 rings, and every cell between neighbouring rings that touches
     * neither pole is drawn as a POLYGON batch.
     */
    method DrawSphere(radius: real, stacks: int, slices: int, color: Argb, sin: real -> real, cos: real -> real)
      requires Valid()
      modifies this`primitives, this`drawn, this`segments, this`rgb, this`offset, this`comb, this`dirty, this`drawMode, this`count
      modifies vertices, colorBuffer, depthBuffer
      ensures Valid()
      ensures rgb == color
      ensures primitives == old(primitives) + SpherePrimitives(radius, stacks, slices, color, sin, cos)
      ensures Drew(SpherePrimitives(radius, stacks, slices, color, sin, cos), Times(Times(world, view), proj), fill, color,
                   old(segments), segments, old(depthBuffer[..]), depthBuffer[..], old(colorBuffer[..]), colorBuffer[..])
    {
      ghost var t := Transforms(world, view, proj);
      ghost var k, s0, d0, c0 := |primitives|, segments, depthBuffer[..], colorBuffer[..];
      DrewSinceNow(t, color);
      SetColor(color);
      var table := MakeSphereVertices(radius, stacks, slices, sin, cos);
      SphereSlices(table, stacks, slices, k, t, color, s0, d0, c0);
      DrewSinceDrew(k, t, color, s0, d0, c0, old(primitives), SpherePrimitives(radius, stacks, slices, color, sin, cos));
    }

    /** `drawSphere`'s render loop: one slice of cells after another, for slices 0 until slices. */
    method SphereSlices(table: seq<Vector4>, stacks: int, slices: int,
                        ghost k: int, ghost t: Transforms, ghost tint: Argb, ghost s0: seq<Segment>, ghost d0: seq<Depth>, ghost c0: seq<Argb>)
      requires Ready(t) && |table| == RangeLength(0, slices) * RangeLength(0, stacks)
      requires DrewSince(k, t, tint, s0, d0, c0) && Among(rgb, tint, fill)
      modifies this`primitives, this`drawn, this`segments, this`rgb, this`offset, this`comb, this`dirty, this`drawMode, this`count
      modifies vertices, colorBuffer, depthBuffer
      ensures Ready(t) && rgb == old(rgb)
      ensures primitives == old(primitives) + QuadPrimitives(table, SphereQuads(stacks, slices), rgb)
      ensures DrewSince(k, t, tint, s0, d0, c0)
    {
      var slice := 0;
      while slice < slices
        invariant 0 <= slice && (slice <= slices || slice == 0)
        invariant Ready(t) && rgb == old(rgb)
        invariant primitives == old(primitives) + QuadPrimitives(table, SphereQuads(stacks, slice), rgb)
        invariant DrewSince(k, t, tint, s0, d0, c0)
      {
        SphereSlice(table, stacks, slices, slice, k, t, tint, s0, d0, c0);
        QuadPrimitivesAppend(table, SphereQuads(stacks, slice), SphereRow(stacks, slice), rgb);
        slice := slice + 1;
      }
    }

    /** One pass of `drawSphere`'s outer loop: the cells of stacks 1 until stacks - 1 between ring `slice` and the next. */
    method SphereSlice(table: seq<Vector4>, stacks: int, slices: int, slice: int,
                       ghost k: int, ghost t: Transforms, ghost tint: Argb, ghost s0: seq<Segment>, ghost d0: seq<Depth>, ghost c0: seq<Argb>)
      requires Ready(t) && 0 <= slice < slices && |table| == (slices + 1) * RangeLength(0, stacks)
      requires DrewSince(k, t, tint, s0, d0, c0) && Among(rgb, tint, fill)
      modifies this`primitives, this`drawn, this`segments, this`rgb, this`offset, this`comb, this`dirty, this`drawMode, this`count
      modifies vertices, colorBuffer, depthBuffer
      ensures Ready(t) && rgb == old(rgb)
      ensures primitives == old(primitives) + QuadPrimitives(table, SphereRow(stacks, slice), rgb)
      ensures DrewSince(k, t, tint, s0, d0, c0)
    {
      var index := slice * (stacks + 1);
      var stack := 1;
      while stack < stacks - 1
        invariant 1 <= stack && (stack <= stacks - 1 || stack == 1)
        invariant Ready(t) && rgb == old(rgb)
        invariant primitives == old(primitives) + QuadPrimitives(table, SphereRow(stacks, slice)[..stack - 1], rgb)
        invariant DrewSince(k, t, tint, s0, d0, c0)
      {
        var ma := stack + index;
        var md := stack + index + 1;
        var mc := stack + index + (stacks + 1) + 1;
        var mb := stack + index + (stacks + 1);
        CellInRange(stacks + 1, slices + 1, slice, stack);
        DrawCell(table, Quad(ma, mb, mc, md), old(primitives), SphereRow(stacks, slice)[..stack - 1], k, t, tint, s0, d0, c0);
        PrefixSnoc(SphereRow(stacks, slice), stack - 1);
        stack := stack + 1;
      }
    }

    /**
     * `drawCapsule`: the profile of stacks + 2 points is swept about y into
     * slices + 1 rings, and all stacks + 1 cells between neighbouring rings are
     * drawn as POLYGON batches, the last one of each slice started at its last corner.
     */
    method DrawCapsule(radius: real, height: real, stacks: int, slices: int, color: Argb,
                       sin: real -> real, cos: real -> real)
      requires Valid() && stacks != 0
      modifies this`primitives, this`drawn, this`segments, this`rgb, this`offset, this`comb, this`dirty, this`drawMode, this`count
      modifies vertices, colorBuffer, depthBuffer
      ensures Valid()
      ensures rgb == color
      ensures primitives == old(primitives) + CapsulePrimitives(radius, height, stacks, slices, color, sin, cos)
      ensures Drew(CapsulePrimitives(radius, height, stacks, slices, color, sin, cos), Times(Times(world, view), proj), fill, color,
                   old(segments), segments, old(depthBuffer[..]), depthBuffer[..], old(colorBuffer[..]), colorBuffer[..])
    {
      ghost var t := Transforms(world, view, proj);
      ghost var k, s0, d0, c0 := |primitives|, segments, depthBuffer[..], colorBuffer[..];
      DrewSinceNow(t, color);
      SetColor(color);
      var table := MakeCapsuleVertices(radius, height, stacks, slices, sin, cos);
      CapsuleSlices(table, stacks, slices, k, t, color, s0, d0, c0);
      DrewSinceDrew(k, t, color, s0, d0, c0, old(primitives), CapsulePrimitives(radius, height, stacks, slices, color, sin, cos));
    }

    /** `drawCapsule`'s render loop: one slice of cells after another, for slices 0 until slices. */
    method CapsuleSlices(table: seq<Vector4>, stacks: int, slices: int,
                         ghost k: int, ghost t: Transforms, ghost tint: Argb, ghost s0: seq<Segment>, ghost d0: seq<Depth>, ghost c0: seq<Argb>)
      requires Ready(t) && (stacks >= 0 ==> |table| == RangeLength(0, slices) * (stacks + 2))
      requires DrewSince(k, t, tint, s0, d0, c0) && Among(rgb, tint, fill)
      modifies this`primitives, this`drawn, this`segments, this`rgb, this`offset, this`comb, this`dirty, this`drawMode, this`count
      modifies vertices, colorBuffer, depthBuffer
      ensures Ready(t) && rgb == old(rgb)
      ensures primitives == old(primitives) + QuadPrimitives(table, CapsuleQuads(stacks, slices), rgb)
      ensures DrewSince(k, t, tint, s0, d0, c0)
    {
      var slice := 0;
      while slice < slices
        invariant 0 <= slice && (slice <= slices || slice == 0)
        invariant Ready(t) && rgb == old(rgb)
        invariant primitives == old(primitives) + QuadPrimitives(table, CapsuleQuads(stacks, slice), rgb)
        invariant DrewSince(k, t, tint, s0, d0, c0)
      {
        CapsuleSlice(table, stacks, slices, slice, k, t, tint, s0, d0, c0);
        QuadPrimitivesAppend(table, CapsuleQuads(stacks, slice), CapsuleRow(stacks, slice), rgb);
        slice := slice + 1;
      }
    }

    /** One pass of `drawCapsule`'s outer loop: the cells of stacks 0..stacks between ring `slice` and the next. */
    method CapsuleSlice(table: seq<Vector4>, stacks: int, slices: int, slice: int,
                        ghost k: int, ghost t: Transforms, ghost tint: Argb, ghost s0: seq<Segment>, ghost d0: seq<Depth>, ghost c0: seq<Argb>)
      requires Ready(t) && 0 <= slice < slices && (stacks >= 0 ==> |table| == (slices + 1) * (stacks + 2))
      requires DrewSince(k, t, tint, s0, d0, c0) && Among(rgb, tint, fill)
      modifies this`primitives, this`drawn, this`segments, this`rgb, this`offset, this`comb, this`dirty, this`drawMode, this`count
      modifies vertices, colorBuffer, depthBuffer
      ensures Ready(t) && rgb == old(rgb)
      ensures primitives == old(primitives) + QuadPrimitives(table, CapsuleRow(stacks, slice), rgb)
      ensures DrewSince(k, t, tint, s0, d0, c0)
    {
      var index := slice * (stacks + 2);
      for stack := 0 to RangeLength(0, stacks)
        invariant Ready(t) && rgb == old(rgb)
        invariant primitives == old(primitives) + QuadPrimitives(table, CapsuleRow(stacks, slice)[..stack], rgb)
        invariant DrewSince(k, t, tint, s0, d0, c0)
      {
        var ma := stack + index;
        var md := stack + index + 1;
        var mc := stack + index + (stacks + 2) + 1;
        var mb := stack + index + (stacks + 2);
        CellInRange(stacks + 2, slices + 1, slice, stack);
        var cell := if stack < stacks then Quad(ma, mb, mc, md) else Quad(md, ma, mb, mc);
        DrawCell(table, cell, old(primitives), CapsuleRow(stacks, slice)[..stack], k, t, tint, s0, d0, c0);
        PrefixSnoc(CapsuleRow(stacks, slice), stack);
      }
    }

    /**
     * One `renderPolygon` call of a render loop: the cell's four entries of the
     * vertex table, which extends the batches drawn from the table by that cell.
     */
    method DrawCell(table: seq<Vector4>, cell: Quad, ghost p0: seq<Primitive>, ghost done: seq<Quad>,
                    ghost k: int, ghost t: Transforms, ghost tint: Argb, ghost s0: seq<Segment>, ghost d0: seq<Depth>, ghost c0: seq<Argb>)
      requires Ready(t) && QuadInRange(cell, |table|) && primitives == p0 + QuadPrimitives(table, done, rgb)
      requires DrewSince(k, t, tint, s0, d0, c0) && Among(rgb, tint, fill)
      modifies this`primitives, this`drawn, this`segments, this`rgb, this`offset, this`comb, this`dirty, this`drawMode, this`count
      modifies vertices, colorBuffer, depthBuffer
      ensures Ready(t) && rgb == old(rgb)
      ensures primitives == p0 + QuadPrimitives(table, done + [cell], rgb)
      ensures DrewSince(k, t, tint, s0, d0, c0)
    {
      RenderPolygon(table[cell.a], table[cell.b], table[cell.c], table[cell.d], k, t, tint, s0, d0, c0);
      QuadPrimitivesSnoc(table, done, cell, rgb);
    }

    /** `renderPolygon`: one POLYGON batch of the four points. */
    method RenderPolygon(v0: Vector4, v1: Vector4, v2: Vector4, v3: Vector4,
                         ghost k: int, ghost t: Transforms, ghost tint: Argb, ghost s0: seq<Segment>, ghost d0: seq<Depth>, ghost c0: seq<Argb>)
      requires Ready(t) && DrewSince(k, t, tint, s0, d0, c0) && Among(rgb, tint, fill)
      modifies this`primitives, this`drawn, this`segments, this`rgb, this`offset, this`comb, this`dirty, this`drawMode, this`count
      modifies vertices, colorBuffer, depthBuffer
      ensures Ready(t) && rgb == old(rgb)
      ensures primitives == old(primitives) + [QuadBatch(v0, v1, v2, v3, rgb)]
      ensures DrewSince(k, t, tint, s0, d0, c0)
    {
      FourVertices(POLYGON, v0, v1, v2, v3);
      assert vertices[..count] == QuadBatch(v0, v1, v2, v3, rgb).points;
      Finish(k, t, tint, s0, d0, c0);
    }

    /** `begin(mode)` and four `vertex` calls, as `renderPolygon` and each pass of `drawGrid` issue them. */
    method FourVertices(mode: Mode, v0: Vector4, v1: Vector4, v2: Vector4, v3: Vector4)
      requires Sized()
      modifies this`drawMode, this`count, vertices
      ensures Sized() && drawMode == mode && count == 4
      ensures vertices[..count] == [Point(v0), Point(v1), Point(v2), Point(v3)]
    {
      Begin(mode);
      Vertex(v0.x, v0.y, v0.z);
      Vertex(v1.x, v1.y, v1.z);
      assert vertices[0] == Point(v0) && vertices[1] == Point(v1);
      Vertex(v2.x, v2.y, v2.z);
      Vertex(v3.x, v3.y, v3.z);
      assert vertices[2] == Point(v2) && vertices[3] == Point(v3);
    }
  }
}
