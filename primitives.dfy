/**
 * What Wireframe3D draws, as values: the primitives `end` receives, the
 * segments it hands to `drawLine` in each mode, and the primitives each shape
 * builder emits. The class in module Wireframes is specified against these.
 */
module Primitives {
  import opened Vectors
  import opened Matrices
  import opened Colors
  import opened Clipping
  import opened Shapes
  import opened Raster

  /** `Wireframe3D.Mode`. */
  datatype Mode = LINE | POLYGON

  /** One `begin` ... `end` batch: the mode, the vertices as `vertex` stored them, the drawing colour. */
  datatype Primitive = Primitive(mode: Mode, points: seq<Vector4>, rgb: Argb)

  /** One `drawLine` call: the clip-space endpoints it starts from, its colour and its depth offset. */
  datatype Segment = Segment(a: Vector4, b: Vector4, rgb: Argb, offset: real)

  // ---------------------------------------------------------------- projection

  /** `Vertex.project(matrix)` applied to every vertex of a batch. */
  function Projected(vs: seq<Vector4>, m: Matrix4): (r: seq<Vector4>)
    ensures |r| == |vs|
  {
    seq(|vs|, i requires 0 <= i < |vs| => RowTimes(vs[i], m))
  }

  /** Projecting by the combined `world * view * proj` is projecting by each in turn. */
  lemma ProjectedInStages(vs: seq<Vector4>, world: Matrix4, view: Matrix4, proj: Matrix4)
    ensures Projected(vs, Times(Times(world, view), proj)) == Projected(Projected(Projected(vs, world), view), proj)
  {
    forall i | 0 <= i < |vs|
      ensures RowTimes(vs[i], Times(Times(world, view), proj))
           == RowTimes(RowTimes(RowTimes(vs[i], world), view), proj)
    {
      RowTimesCompose(vs[i], world, view);
      RowTimesCompose(vs[i], Times(world, view), proj);
    }
  }

  // ---------------------------------------------------------------- segments of a batch

  /** The segments `drawLines` draws: vertices paired as (0, 1), (2, 3), ... */
  function LineSegments(ps: seq<Vector4>, rgb: Argb, offset: real): (r: seq<Segment>)
    ensures |r| == |LinePairs(|ps|)|
  {
    var pairs := LinePairs(|ps|);
    seq(|pairs|, k requires 0 <= k < |pairs| => Segment(ps[pairs[k].0], ps[pairs[k].1], rgb, offset))
  }

  /**
   * A LINE batch of n vertices is n / 2 separate segments, segment k joining
   * vertices 2k and 2k + 1; every vertex but an odd last one ends exactly one.
   */
  lemma LineSegmentsJoinPairs(ps: seq<Vector4>, rgb: Argb, offset: real)
    ensures |LineSegments(ps, rgb, offset)| == if |ps| > 1 then |ps| / 2 else 0
    ensures forall k :: 0 <= k < |LineSegments(ps, rgb, offset)| ==>
      2 * k + 1 < |ps| && LineSegments(ps, rgb, offset)[k] == Segment(ps[2 * k], ps[2 * k + 1], rgb, offset)
    ensures forall v :: 0 <= v < |ps| && (v < |ps| - 1 || |ps| % 2 == 0) ==>
      0 <= v / 2 < |LineSegments(ps, rgb, offset)|
  {
  }

  /** The segments `drawPolygon` draws: the closing edge first, then the others walking back. */
  function PolygonSegments(ps: seq<Vector4>, rgb: Argb, offset: real): (r: seq<Segment>)
    ensures |r| == if |ps| > 2 then |ps| else 0
  {
    var pairs := PolygonPairs(|ps|);
    seq(|pairs|, j requires 0 <= j < |pairs| => Segment(ps[pairs[j].0], ps[pairs[j].1], rgb, offset))
  }

  /** The edge of a polygon from vertex k to the next one, wrapping around. */
  function Edge(ps: seq<Vector4>, k: int, rgb: Argb, offset: real): Segment
    requires 0 <= k < |ps|
  {
    Segment(ps[k], ps[(k + 1) % |ps|], rgb, offset)
  }

  /**
   * A POLYGON batch of more than two vertices is drawn as its closed outline:
   * one segment per edge, the closing edge (last, first) first and then, for
   * j >= 1, the edge between vertices n - 1 - j and n - j.
   */
  lemma PolygonSegmentsAreOutline(ps: seq<Vector4>, rgb: Argb, offset: real)
    requires |ps| > 2
    ensures |PolygonSegments(ps, rgb, offset)| == |ps|
    ensures PolygonSegments(ps, rgb, offset)[0] == Segment(ps[|ps| - 1], ps[0], rgb, offset)
    ensures forall j :: 1 <= j < |ps| ==>
      PolygonSegments(ps, rgb, offset)[j] == Segment(ps[|ps| - 1 - j], ps[|ps| - j], rgb, offset)
    ensures forall k :: 0 <= k < |ps| ==> Edge(ps, k, rgb, offset) in PolygonSegments(ps, rgb, offset)
  {
    var n := |ps|;
    var r := PolygonSegments(ps, rgb, offset);
    var pairs := PolygonPairs(n);
    PolygonPairsCloseBoundary(n);
    forall k | 0 <= k < n
      ensures Edge(ps, k, rgb, offset) in r
    {
      var j :| 0 <= j < n && pairs[j] == BoundaryEdge(n, k);
      assert r[j] == Edge(ps, k, rgb, offset);
    }
  }

  /** Segment j of a polygon's outline, on its own. */
  lemma PolygonSegmentAt(ps: seq<Vector4>, rgb: Argb, offset: real, j: int)
    requires |ps| > 2 && 0 <= j < |ps|
    ensures PolygonSegments(ps, rgb, offset)[j] == Segment(ps[|ps| - 1 - j], ps[if j == 0 then 0 else |ps| - j], rgb, offset)
  {
    PolygonPairsCloseBoundary(|ps|);
  }

  // ---------------------------------------------------------------- end

  /** Whether `drawPolygon` finds the projected batch back-facing. */
  predicate BackFacing(mode: Mode, ps: seq<Vector4>) {
    mode == POLYGON && |ps| > 2 && IsBackFacing(ps[0], ps[1], ps[2])
  }

  /** The colour a batch is drawn in: back faces are blended 20% toward the fill colour. */
  function EndColor(mode: Mode, ps: seq<Vector4>, rgb: Argb, fill: Argb): Argb {
    if BackFacing(mode, ps) then Blend(rgb, fill, 0.20) else rgb
  }

  /** The depth offset a batch is drawn with: back faces are pushed 0.05 away. */
  function EndOffset(mode: Mode, ps: seq<Vector4>): real {
    if BackFacing(mode, ps) then 0.05 else 0.0
  }

  /** The segments `end` draws for a batch given its projected vertices. */
  function EndSegments(mode: Mode, ps: seq<Vector4>, rgb: Argb, fill: Argb): (r: seq<Segment>)
    ensures mode == LINE ==> |r| == if |ps| > 1 then |ps| / 2 else 0
    ensures mode == POLYGON ==> |r| == if |ps| > 2 then |ps| else 0
    ensures forall k :: 0 <= k < |r| ==>
      r[k].rgb == EndColor(mode, ps, rgb, fill) && r[k].offset == EndOffset(mode, ps)
  {
    match mode
    case LINE => LineSegments(ps, rgb, 0.0)
    case POLYGON => PolygonSegments(ps, EndColor(mode, ps, rgb, fill), EndOffset(mode, ps))
  }

  /**
   * A back face is drawn in a colour each of whose channels lies between the
   * drawing colour's and the fill colour's, and with no alpha of its own.
   */
  lemma BackFacesFadeTowardFill(ps: seq<Vector4>, rgb: Argb, fill: Argb)
    requires BackFacing(POLYGON, ps)
    ensures var c := EndColor(POLYGON, ps, rgb, fill);
      && Alpha(c) == 0
      && Between(Red(rgb), Red(c), Red(fill))
      && Between(Green(rgb), Green(c), Green(fill))
      && Between(Blue(rgb), Blue(c), Blue(fill))
  {
    BlendBetween(rgb, fill, 0.20);
  }

  /** Reversing a back face's first triangle, by swapping its second and third vertices, makes it a front face. */
  lemma ReversedOutlineIsFrontFacing(ps: seq<Vector4>)
    requires BackFacing(POLYGON, ps)
    ensures !BackFacing(POLYGON, [ps[0], ps[2], ps[1]] + ps[3..])
  {
    BackFacingSwap(ps[0], ps[1], ps[2]);
  }

  /** A segment `clip` rejects, so `drawLine` draws nothing for it. */
  predicate Culled(s: Segment) {
    !ClipRounds(s.a, s.b, CLIP_ROUNDS).accepted
  }

  /** Every segment of a sequence is culled. */
  predicate AllCulled(ss: seq<Segment>) {
    forall k :: 0 <= k < |ss| ==> Culled(ss[k])
  }

  /**
   * What drawing a run of segments in colour rgb does to the buffers: every
   * depth is kept or comes closer, every pixel is kept or moves toward rgb,
   * and when the whole run is culled neither buffer changes.
   */
  ghost predicate Drawn(ss: seq<Segment>, rgb: Argb, d0: seq<Depth>, d1: seq<Depth>, c0: seq<Argb>, c1: seq<Argb>) {
    && DepthsLowered(d0, d1)
    && Tinted(c0, c1, rgb)
    && (AllCulled(ss) ==> d1 == d0 && c1 == c0)
  }

  /** Drawing nothing changes nothing. */
  lemma DrawnNothing(rgb: Argb, d: seq<Depth>, c: seq<Argb>)
    ensures Drawn([], rgb, d, d, c, c)
  {
  }

  /** Drawing a prefix of a run and then its next segment is drawing the longer prefix. */
  lemma DrawnStep(ss: seq<Segment>, n: int, rgb: Argb,
                  d0: seq<Depth>, d1: seq<Depth>, d2: seq<Depth>, c0: seq<Argb>, c1: seq<Argb>, c2: seq<Argb>)
    requires 0 <= n < |ss|
    requires Drawn(ss[..n], rgb, d0, d1, c0, c1) && Drawn([ss[n]], rgb, d1, d2, c1, c2)
    ensures Drawn(ss[..n + 1], rgb, d0, d2, c0, c2)
  {
    DepthsLoweredTransitive(d0, d1, d2);
    TintedTransitive(c0, c1, c2, rgb);
    CulledPrefix(ss, n);
    assert [ss[n]][0] == ss[n];
  }

  /** Logging the next segment of a run after a prefix of it logs the longer prefix. */
  lemma LogGrows(log: seq<Segment>, ss: seq<Segment>, n: int)
    requires 0 <= n < |ss|
    ensures log + ss[..n] + [ss[n]] == log + ss[..n + 1]
  {
    assert ss[..n + 1] == ss[..n] + [ss[n]];
  }

  /** A culled prefix one longer is a culled prefix and one more culled segment. */
  lemma CulledPrefix(ss: seq<Segment>, n: int)
    requires 0 <= n < |ss|
    ensures AllCulled(ss[..n + 1]) <==> AllCulled(ss[..n]) && Culled(ss[n])
  {
    assert ss[..n + 1][n] == ss[n];
  }

  // ---------------------------------------------------------------- runs of batches

  /** The segments `end` draws for one batch, projected by m. */
  function BatchSegments(p: Primitive, m: Matrix4, fill: Argb): seq<Segment> {
    EndSegments(p.mode, Projected(p.points, m), p.rgb, fill)
  }

  /** The segments of a run of batches, one `end` after another. */
  function RunSegments(prims: seq<Primitive>, m: Matrix4, fill: Argb): seq<Segment> {
    if prims == [] then [] else BatchSegments(prims[0], m, fill) + RunSegments(prims[1..], m, fill)
  }

  /** The segments of two runs drawn one after the other are the two runs' segments. */
  lemma {:induction false} RunSegmentsAppend(a: seq<Primitive>, b: seq<Primitive>, m: Matrix4, fill: Argb)
    ensures RunSegments(a + b, m, fill) == RunSegments(a, m, fill) + RunSegments(b, m, fill)
  {
    if a == [] {
      assert a + b == b;
    } else {
      assert (a + b)[0] == a[0] && (a + b)[1..] == a[1..] + b;
      RunSegmentsAppend(a[1..], b, m, fill);
    }
  }

  /** The log grows by exactly the run's segments, and every depth is kept or comes closer. */
  ghost predicate Logged(prims: seq<Primitive>, m: Matrix4, fill: Argb,
                         s0: seq<Segment>, s1: seq<Segment>, d0: seq<Depth>, d1: seq<Depth>) {
    s1 == s0 + RunSegments(prims, m, fill) && DepthsLowered(d0, d1)
  }

  /**
   * What drawing a run of batches does, as the shape builders see it: it is
   * Logged, and every pixel is kept or made opaque between its old value, c
   * and the fill colour.
   */
  ghost predicate Drew(prims: seq<Primitive>, m: Matrix4, fill: Argb, c: Argb,
                       s0: seq<Segment>, s1: seq<Segment>, d0: seq<Depth>, d1: seq<Depth>, c0: seq<Argb>, c1: seq<Argb>) {
    Logged(prims, m, fill, s0, s1, d0, d1) && Painted(c0, c1, c, fill)
  }

  /** A logged run followed by a logged run is the concatenated logged run. */
  lemma LoggedChain(a: seq<Primitive>, b: seq<Primitive>, m: Matrix4, fill: Argb,
                    s0: seq<Segment>, s1: seq<Segment>, s2: seq<Segment>, d0: seq<Depth>, d1: seq<Depth>, d2: seq<Depth>)
    requires Logged(a, m, fill, s0, s1, d0, d1) && Logged(b, m, fill, s1, s2, d1, d2)
    ensures Logged(a + b, m, fill, s0, s2, d0, d2)
  {
    RunSegmentsAppend(a, b, m, fill);
    GrewTwice(s0, s1, s2, RunSegments(a, m, fill), RunSegments(b, m, fill));
    DepthsLoweredTransitive(d0, d1, d2);
  }

  /** A log grown by ra and then by rb has grown by ra + rb. */
  lemma GrewTwice(s0: seq<Segment>, s1: seq<Segment>, s2: seq<Segment>, ra: seq<Segment>, rb: seq<Segment>)
    requires s1 == s0 + ra && s2 == s1 + rb
    ensures s2 == s0 + (ra + rb)
  {
  }

  /** A run followed by a run, in the same colours, is the concatenated run. */
  lemma DrewChain(a: seq<Primitive>, b: seq<Primitive>, m: Matrix4, fill: Argb, c: Argb,
                  s0: seq<Segment>, s1: seq<Segment>, s2: seq<Segment>, d0: seq<Depth>, d1: seq<Depth>, d2: seq<Depth>,
                  c0: seq<Argb>, c1: seq<Argb>, c2: seq<Argb>)
    requires Drew(a, m, fill, c, s0, s1, d0, d1, c0, c1) && Drew(b, m, fill, c, s1, s2, d1, d2, c1, c2)
    ensures Drew(a + b, m, fill, c, s0, s2, d0, d2, c0, c2)
  {
    LoggedChain(a, b, m, fill, s0, s1, s2, d0, d1, d2);
    PaintedTransitive(c0, c1, c2, c, fill);
  }

  /** The segments of a sequence of batches' logs, one after another. */
  function Joined(runs: seq<seq<Segment>>): seq<Segment> {
    if runs == [] then [] else runs[0] + Joined(runs[1..])
  }

  /** Logging one more batch appends its segments. */
  lemma {:induction false} JoinedSnoc(runs: seq<seq<Segment>>, r: seq<Segment>)
    ensures Joined(runs + [r]) == Joined(runs) + r
  {
    if runs == [] {
      assert [] + [r] == [r];
    } else {
      assert (runs + [r])[0] == runs[0] && (runs + [r])[1..] == runs[1..] + [r];
      JoinedSnoc(runs[1..], r);
    }
  }

  /** Batches each logged as their BatchSegments log, between them, RunSegments. */
  lemma {:induction false} JoinedRun(prims: seq<Primitive>, runs: seq<seq<Segment>>, m: Matrix4, fill: Argb)
    requires |prims| == |runs|
    requires forall i :: 0 <= i < |prims| ==> runs[i] == BatchSegments(prims[i], m, fill)
    ensures Joined(runs) == RunSegments(prims, m, fill)
  {
    if prims != [] {
      JoinedRun(prims[1..], runs[1..], m, fill);
    }
  }

  /** runs logs prims from index k on: each run is the segments of its batch. */
  predicate Logs(prims: seq<Primitive>, runs: seq<seq<Segment>>, k: int, m: Matrix4, fill: Argb) {
    && 0 <= k <= |prims| && |runs| == |prims|
    && forall i {:trigger BatchSegments(prims[i], m, fill)} :: k <= i < |prims| ==>
         runs[i] == BatchSegments(prims[i], m, fill)
  }

  /** Logging one more batch with its segments extends the log and what it joins to. */
  lemma LogsSnoc(prims: seq<Primitive>, runs: seq<seq<Segment>>, k: int, m: Matrix4, fill: Argb, p: Primitive)
    requires Logs(prims, runs, k, m, fill)
    ensures Logs(prims + [p], runs + [BatchSegments(p, m, fill)], k, m, fill)
    ensures Joined((runs + [BatchSegments(p, m, fill)])[k..]) == Joined(runs[k..]) + BatchSegments(p, m, fill)
  {
    var b := BatchSegments(p, m, fill);
    assert (runs + [b])[k..] == runs[k..] + [b];
    JoinedSnoc(runs[k..], b);
    forall i | k <= i < |prims| + 1
      ensures (runs + [b])[i] == BatchSegments((prims + [p])[i], m, fill)
    {
      if i < |prims| {
        assert (runs + [b])[i] == runs[i] && (prims + [p])[i] == prims[i];
      }
    }
  }

  /** What a log joins to from index k on is the RunSegments of the batches it logs. */
  lemma LogsRun(prims: seq<Primitive>, runs: seq<seq<Segment>>, k: int, m: Matrix4, fill: Argb)
    requires Logs(prims, runs, k, m, fill)
    ensures Joined(runs[k..]) == RunSegments(prims[k..], m, fill)
  {
    forall j | 0 <= j < |prims| - k
      ensures runs[k..][j] == BatchSegments(prims[k..][j], m, fill)
    {
      assert runs[k + j] == BatchSegments(prims[k + j], m, fill);
    }
    JoinedRun(prims[k..], runs[k..], m, fill);
  }

  /**
   * runs logs prims from index k on, the log grew from s0 to s1 by what they
   * join to, and the buffers went from d0, c0 to d1, c1 as Drew allows.
   */
  ghost predicate LoggedSince(prims: seq<Primitive>, runs: seq<seq<Segment>>, k: int, m: Matrix4, fill: Argb, c: Argb,
                              s0: seq<Segment>, s1: seq<Segment>, d0: seq<Depth>, d1: seq<Depth>, c0: seq<Argb>, c1: seq<Argb>) {
    && Logs(prims, runs, k, m, fill) && s1 == s0 + Joined(runs[k..])
    && DepthsLowered(d0, d1) && Painted(c0, c1, c, fill)
  }

  /** A LoggedSince log is a Drew run of the batches from k on. */
  lemma LoggedSinceDrew(prims: seq<Primitive>, runs: seq<seq<Segment>>, k: int, m: Matrix4, fill: Argb, c: Argb,
                        s0: seq<Segment>, s1: seq<Segment>, d0: seq<Depth>, d1: seq<Depth>, c0: seq<Argb>, c1: seq<Argb>)
    requires LoggedSince(prims, runs, k, m, fill, c, s0, s1, d0, d1, c0, c1)
    ensures Drew(prims[k..], m, fill, c, s0, s1, d0, d1, c0, c1)
  {
    LogsRun(prims, runs, k, m, fill);
  }

  /**
   * One more `end` of batch p, in a colour between c and the fill, logged as
   * its segments and drawn as Drawn says, keeps LoggedSince.
   */
  lemma LoggedSinceEnd(prims: seq<Primitive>, runs: seq<seq<Segment>>, k: int, m: Matrix4, fill: Argb, c: Argb, p: Primitive,
                       s0: seq<Segment>, s1: seq<Segment>, s2: seq<Segment>, d0: seq<Depth>, d1: seq<Depth>, d2: seq<Depth>,
                       c0: seq<Argb>, c1: seq<Argb>, c2: seq<Argb>)
    requires LoggedSince(prims, runs, k, m, fill, c, s0, s1, d0, d1, c0, c1)
    requires s2 == s1 + BatchSegments(p, m, fill) && Among(p.rgb, c, fill)
    requires Drawn(BatchSegments(p, m, fill), EndColor(p.mode, Projected(p.points, m), p.rgb, fill), d1, d2, c1, c2)
    ensures LoggedSince(prims + [p], runs + [BatchSegments(p, m, fill)], k, m, fill, c, s0, s2, d0, d2, c0, c2)
  {
    LogsSnoc(prims, runs, k, m, fill, p);
    BatchPainted(p, m, fill, c, d1, d2, c1, c2);
    DepthsLoweredTransitive(d0, d1, d2);
    PaintedTransitive(c0, c1, c2, c, fill);
  }

  /**
   * One `end`, back face or not, keeps or lowers every depth and shades every
   * pixel between its old value, any colour its own lies between and the fill.
   */
  lemma BatchPainted(p: Primitive, m: Matrix4, fill: Argb, c: Argb,
                     d0: seq<Depth>, d1: seq<Depth>, c0: seq<Argb>, c1: seq<Argb>)
    requires Drawn(BatchSegments(p, m, fill), EndColor(p.mode, Projected(p.points, m), p.rgb, fill), d0, d1, c0, c1)
    requires Among(p.rgb, c, fill)
    ensures DepthsLowered(d0, d1) && Painted(c0, c1, c, fill)
  {
    var ps := Projected(p.points, m);
    if BackFacing(p.mode, ps) {
      BackFacesFadeTowardFill(ps, p.rgb, fill);
    }
    TintedPaints(c0, c1, EndColor(p.mode, ps, p.rgb, fill), p.rgb, fill);
    PaintedWider(c0, c1, p.rgb, c, fill);
  }

  // ---------------------------------------------------------------- what the builders emit

  /** `vertex(x, y, z)` stores the point (x, y, z, 1). */
  function At(vs: seq<Vector4>, i: int): Vector4 {
    if 0 <= i < |vs| then vs[i] else ZERO
  }

  /** `renderPolygon` of four entries of a vertex table. */
  function QuadPrimitive(vs: seq<Vector4>, q: Quad, rgb: Argb): Primitive {
    Primitive(POLYGON, [Point(At(vs, q.a)), Point(At(vs, q.b)), Point(At(vs, q.c)), Point(At(vs, q.d))], rgb)
  }

  function QuadPrimitives(vs: seq<Vector4>, qs: seq<Quad>, rgb: Argb): (r: seq<Primitive>)
    ensures |r| == |qs|
  {
    seq(|qs|, k requires 0 <= k < |qs| => QuadPrimitive(vs, qs[k], rgb))
  }

  lemma QuadPrimitivesSnoc(vs: seq<Vector4>, qs: seq<Quad>, q: Quad, rgb: Argb)
    ensures QuadPrimitives(vs, qs + [q], rgb) == QuadPrimitives(vs, qs, rgb) + [QuadPrimitive(vs, q, rgb)]
  {
    assert QuadPrimitives(vs, qs + [q], rgb)[|qs|] == QuadPrimitive(vs, q, rgb);
  }

  lemma QuadPrimitivesAppend(vs: seq<Vector4>, qs: seq<Quad>, rs: seq<Quad>, rgb: Argb)
    ensures QuadPrimitives(vs, qs + rs, rgb) == QuadPrimitives(vs, qs, rgb) + QuadPrimitives(vs, rs, rgb)
  {
    assert forall k :: 0 <= k < |rs| ==> QuadPrimitives(vs, qs + rs, rgb)[|qs| + k] == QuadPrimitive(vs, rs[k], rgb);
  }

  /** `drawAxis`: three LINE batches from the origin along x, y and z. */
  function AxisPrimitives(scale: real, cx: Argb, cy: Argb, cz: Argb): seq<Primitive> {
    [Primitive(LINE, [Vector4(0.0, 0.0, 0.0, 1.0), Vector4(scale, 0.0, 0.0, 1.0)], cx),
     Primitive(LINE, [Vector4(0.0, 0.0, 0.0, 1.0), Vector4(0.0, scale, 0.0, 1.0)], cy),
     Primitive(LINE, [Vector4(0.0, 0.0, 0.0, 1.0), Vector4(0.0, 0.0, scale, 1.0)], cz)]
  }

  /** `renderPolygon`'s one batch: the four points as a POLYGON. */
  function QuadBatch(v0: Vector4, v1: Vector4, v2: Vector4, v3: Vector4, rgb: Argb): Primitive {
    Primitive(POLYGON, [Point(v0), Point(v1), Point(v2), Point(v3)], rgb)
  }

  /** One iteration of `drawGrid`'s loop: the line at z = i and the line at x = i. */
  function GridCross(half: real, i: real, rgb: Argb): Primitive {
    Primitive(LINE, [Vector4(-half, 0.0, i, 1.0), Vector4(half, 0.0, i, 1.0),
                     Vector4(i, 0.0, -half, 1.0), Vector4(i, 0.0, half, 1.0)], rgb)
  }

  /** What one pass of `drawGrid`'s loop emits: the cross at i, or nothing at i = 0. */
  function GridPassRows(half: real, i: real, rgb: Argb): seq<Primitive> {
    if i != 0.0 then [GridCross(half, i, rgb)] else []
  }

  /** How many more times `drawGrid`'s loop runs from i: once for every multiple of `step` after i up to half. */
  function GridSteps(i: real, half: real, step: real): int
    requires step > 0.0 || i > half
  {
    if i <= half then ((half - i) / step).Floor + 1 else 0
  }

  /** The loop of `drawGrid` from i on: a cross for every i <= half other than 0, in steps of `step`. */
  function GridRows(i: real, half: real, step: real, rgb: Argb): seq<Primitive>
    requires step > 0.0 || i > half
    decreases GridSteps(i, half, step)
  {
    if i > half then []
    else
      var rest := (GridStepShrinks(i, half, step); GridRows(i + step, half, step, rgb));
      if i != 0.0 then [GridCross(half, i, rgb)] + rest else rest
  }

  /** Each pass of `drawGrid`'s loop brings it closer to its end. */
  lemma GridStepShrinks(i: real, half: real, step: real)
    requires step > 0.0 && i <= half
    ensures 0 <= GridSteps(i + step, half, step) < GridSteps(i, half, step)
  {
    var a, b := (half - (i + step)) / step, (half - i) / step;
    assert b * step == half - i;
    if i + step <= half {
      assert a * step == half - i - step;
      assert (a - b + 1.0) * step == 0.0;
      ZeroProduct(a - b + 1.0, step);
    } else {
      ZeroProduct(b - b, step);
      assert 0.0 <= b;
    }
  }

  /** One pass of `drawGrid`'s loop: the cross at i, unless i is 0, and then the loop from i + step. */
  lemma GridRowsStep(i: real, half: real, step: real, rgb: Argb)
    requires step > 0.0 && i <= half
    ensures GridRows(i, half, step, rgb)
      == (if i != 0.0 then [GridCross(half, i, rgb)] else []) + GridRows(i + step, half, step, rgb)
  {
  }

  lemma ZeroProduct(d: real, s: real)
    requires d * s == 0.0 && s > 0.0
    ensures d == 0.0
  {
  }

  /** `drawGrid`: the crosses of the loop, then the two axes through the centre. */
  function GridPrimitives(size: real, step: real, color: Argb, fill: Argb): seq<Primitive>
    requires step > 0.0 || size < 0.0
  {
    var half := size * 0.5;
    GridRows(-half, half, step, Opaque(Blend(color, fill, 0.25)))
      + [GridCross(half, 0.0, Opaque(Blend(color, fill, 0.5)))]
  }

  /** Every point of the grid's loop lies in the square of side 2 * half on the plane y = 0, and none on an axis line. */
  lemma {:induction false} GridRowsInSquare(i: real, half: real, step: real, rgb: Argb)
    requires step > 0.0 || i > half
    requires -half <= i
    ensures forall p :: p in GridRows(i, half, step, rgb) ==>
      p.mode == LINE && |p.points| == 4 && p.rgb == rgb
      && forall v :: v in p.points ==> v.y == 0.0 && v.w == 1.0 && -half <= v.x <= half && -half <= v.z <= half
    ensures forall p :: p in GridRows(i, half, step, rgb) ==> p.points[0].z != 0.0 && p.points[2].x != 0.0
    decreases GridSteps(i, half, step)
  {
    if i <= half {
      GridStepShrinks(i, half, step);
      GridRowsInSquare(i + step, half, step, rgb);
    }
  }

  /** `drawPlane`: one POLYGON batch, the rectangle of the given width and depth on y = 0 centred at the origin. */
  function PlanePrimitive(width: real, depth: real, rgb: Argb): Primitive {
    Primitive(POLYGON, [Vector4(-width * 0.5, 0.0, depth * 0.5, 1.0), Vector4(width * 0.5, 0.0, depth * 0.5, 1.0),
                        Vector4(width * 0.5, 0.0, -depth * 0.5, 1.0), Vector4(-width * 0.5, 0.0, -depth * 0.5, 1.0)], rgb)
  }

  /** One side of `drawCube`: the POLYGON batch of the four corners the index table lists for it. */
  function SidePrimitive(corners: seq<Vector4>, side: int, rgb: Argb): Primitive
    requires |corners| == 8 && 0 <= side < 6
  {
    Primitive(POLYGON, seq(4, k requires 0 <= k < 4 => Point(corners[Side(side)[k]])), rgb)
  }

  /** `drawCube`: one POLYGON batch per side, the side's four corners in table order. */
  function CubePrimitives(min: Vector4, max: Vector4, rgb: Argb): (r: seq<Primitive>)
    ensures |r| == 6
  {
    seq(6, side requires 0 <= side < 6 =>
      SidePrimitive(CubeCorners(min, max), side, rgb))
  }

  /**
   * The cube is drawn as six quadrilaterals, one on each face of the box:
   * side s keeps its coordinate FACE_AXIS[s] at the box's minimum or maximum,
   * and its four corners are distinct corners of the box.
   */
  lemma CubePrimitivesAreFaces(min: Vector4, max: Vector4, rgb: Argb)
    ensures forall s :: 0 <= s < 6 ==>
      var p := CubePrimitives(min, max, rgb)[s];
      && p.mode == POLYGON && |p.points| == 4 && p.rgb == rgb
      && (forall k :: 0 <= k < 4 ==>
            p.points[k].w == 1.0
            && Coordinate(p.points[k], FACE_AXIS[s]) == Coordinate(if FACE_AT_MAX[s] then max else min, FACE_AXIS[s]))
      && (forall i, j :: 0 <= i < j < 4 ==> Side(s)[i] != Side(s)[j])
  {
    forall s | 0 <= s < 6
      ensures var p := CubePrimitives(min, max, rgb)[s];
        && p.mode == POLYGON && |p.points| == 4 && p.rgb == rgb
        && (forall k :: 0 <= k < 4 ==>
              p.points[k].w == 1.0
              && Coordinate(p.points[k], FACE_AXIS[s]) == Coordinate(if FACE_AT_MAX[s] then max else min, FACE_AXIS[s]))
        && (forall i, j :: 0 <= i < j < 4 ==> Side(s)[i] != Side(s)[j])
    {
      CubeSidesAreFaces(min, max, s);
    }
  }

  /** `drawSphere`: a POLYGON batch for each quad of the sphere's grid. */
  function SpherePrimitives(radius: real, stacks: int, slices: int, rgb: Argb,
                            sin: real -> real, cos: real -> real): seq<Primitive> {
    QuadPrimitives(SphereVertices(radius, stacks, slices, sin, cos), SphereQuads(stacks, slices), rgb)
  }

  /**
   * A sphere of at least two stacks is drawn as slices * (stacks - 2)
   * quadrilaterals, and every corner of every one is an entry of its vertex table.
   */
  lemma SpherePrimitivesFromTable(radius: real, stacks: int, slices: int, rgb: Argb,
                                  sin: real -> real, cos: real -> real)
    requires stacks >= 2 && slices >= 0
    ensures |SpherePrimitives(radius, stacks, slices, rgb, sin, cos)| == slices * (stacks - 2)
    ensures forall q :: q in SphereQuads(stacks, slices) ==>
      QuadInRange(q, |SphereVertices(radius, stacks, slices, sin, cos)|)
  {
    SphereQuadCount(stacks, slices);
    SphereQuadsAreCells(stacks, slices);
    SphereVertexCount(radius, stacks, slices, sin, cos);
  }

  /** `drawCapsule`: a POLYGON batch for each quad of the capsule's grid. */
  function CapsulePrimitives(radius: real, height: real, stacks: int, slices: int, rgb: Argb,
                             sin: real -> real, cos: real -> real): seq<Primitive>
    requires stacks != 0
  {
    QuadPrimitives(CapsuleVertices(radius, height, stacks, slices, sin, cos), CapsuleQuads(stacks, slices), rgb)
  }

  /**
   * A capsule is drawn as slices * (stacks + 1) quadrilaterals, and every
   * corner of every one is an entry of its vertex table.
   */
  lemma CapsulePrimitivesFromTable(radius: real, height: real, stacks: int, slices: int, rgb: Argb,
                                   sin: real -> real, cos: real -> real)
    requires stacks > 0 && slices >= 0
    ensures |CapsulePrimitives(radius, height, stacks, slices, rgb, sin, cos)| == slices * (stacks + 1)
    ensures forall q :: q in CapsuleQuads(stacks, slices) ==>
      QuadInRange(q, |CapsuleVertices(radius, height, stacks, slices, sin, cos)|)
  {
    CapsuleQuadCount(stacks, slices);
    CapsuleQuadsAreCells(stacks, slices);
    CapsuleVertexCount(radius, height, stacks, slices, sin, cos);
  }
}
