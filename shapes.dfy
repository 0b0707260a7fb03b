/**
 * The vertex and index tables behind Wireframe3D's solid shapes: the cube's
 * corner table, and the rings of vertices and the quads of the sphere and
 * the capsule.
 */
module Shapes {
  import opened Vectors
  import opened Matrices
  import opened Numbers

  /** Kotlin's Int division, which truncates toward zero. */
  function KotlinDiv(a: int, b: int): (q: int)
    requires b > 0
    ensures a >= 0 ==> q == a / b
    ensures 0 <= a ==> 0 <= q && q * b <= a < q * b + b
    ensures a < 0 ==> q <= 0 && q * b - b < a <= q * b
  {
    if a >= 0 then
      DivBounds(a, b);
      a / b
    else
      var q := (-a) / b;
      DivBounds(-a, b);
      assert (-q) * b == -(q * b);
      -q
  }

  /** Truncating division is odd in its dividend: `(-a) / b == -(a / b)` in Kotlin. */
  lemma KotlinDivOdd(a: int, b: int)
    requires b > 0
    ensures KotlinDiv(-a, b) == -KotlinDiv(a, b)
  {
    if a > 0 {
      assert KotlinDiv(-a, b) == -((-(-a)) / b);
    } else if a < 0 {
      assert KotlinDiv(a, b) == -((-a) / b);
    }
  }

  /** The number of values in the Kotlin range `a..b`. */
  function RangeLength(a: int, b: int): (n: nat)
    ensures a <= b ==> n == b - a + 1
    ensures a > b ==> n == 0
  {
    if a <= b then b - a + 1 else 0
  }

  /** Two ranges that meet at m, counted apart, count m twice: `a..m` and `m..b` cover `a..b`. */
  lemma RangeLengthSplit(a: int, m: int, b: int)
    requires a <= m <= b
    ensures RangeLength(a, m) + RangeLength(m, b) == RangeLength(a, b) + 1
  {
  }

  /** The range `a..b` is empty exactly when a > b, and one longer than `a..b-1` otherwise. */
  lemma RangeLengthStep(a: int, b: int)
    ensures RangeLength(a, b) == 0 <==> a > b
    ensures a <= b ==> RangeLength(a, b) == RangeLength(a, b - 1) + 1
  {
  }

  /** Four indices into a vertex table, in the order `renderPolygon` receives them. */
  datatype Quad = Quad(a: int, b: int, c: int, d: int)

  predicate QuadInRange(q: Quad, n: int) {
    0 <= q.a < n && 0 <= q.b < n && 0 <= q.c < n && 0 <= q.d < n
  }

  /**
   * The cell of a grid of rings of n vertices each, between ring `slice` and
   * the next one, at positions `stack` and `stack + 1`, in the order
   * (this ring, next ring, next ring's next position, this ring's next position).
   */
  function Cell(n: int, slice: int, stack: int): Quad {
    Quad(stack + slice * n, stack + slice * n + n, stack + slice * n + n + 1, stack + slice * n + 1)
  }

  /** The same cell, started at its last corner. */
  function Rotated(q: Quad): Quad {
    Quad(q.d, q.a, q.b, q.c)
  }

  /** A cell of the sphere's grid, whose meridians have stacks + 1 vertices. */
  function SphereCell(stacks: int, slice: int, stack: int): Quad {
    Cell(stacks + 1, slice, stack)
  }

  /**
   * A cell of the capsule's grid, whose profiles have stacks + 2 vertices;
   * the cell at `stacks` is started at its last corner.
   */
  function CapsuleCell(stacks: int, slice: int, stack: int): Quad {
    if stack < stacks then Cell(stacks + 2, slice, stack) else Rotated(Cell(stacks + 2, slice, stack))
  }

  // ---------------------------------------------------------------- cube

  /** `drawCube`'s corner table: the first four corners have z = min.z. */
  function CubeCorners(min: Vector4, max: Vector4): (r: seq<Vector4>)
    ensures |r| == 8
  {
    [Direction(min.x, max.y, min.z), Direction(max.x, max.y, min.z),
     Direction(max.x, min.y, min.z), Direction(min.x, min.y, min.z),
     Direction(max.x, max.y, max.z), Direction(min.x, max.y, max.z),
     Direction(min.x, min.y, max.z), Direction(max.x, min.y, max.z)]
  }

  /** `drawCube`'s index table: four corners per side, six sides. */
  const CUBE_INDICES: seq<int> := [0, 1, 2, 3, 1, 4, 7, 2, 4, 5, 6, 7, 0, 3, 6, 5, 0, 5, 4, 1, 3, 2, 7, 6]

  /** Which coordinate is constant on each side (0 = x, 1 = y, 2 = z), and whether it is the maximum. */
  const FACE_AXIS: seq<int> := [2, 0, 2, 0, 1, 1]
  const FACE_AT_MAX: seq<bool> := [false, true, true, false, true, false]

  function Coordinate(v: Vector4, axis: int): real {
    if axis == 0 then v.x else if axis == 1 then v.y else v.z
  }

  lemma CubeIndicesInRange()
    ensures |CUBE_INDICES| == 24
    ensures forall i :: 0 <= i < 24 ==> 0 <= CUBE_INDICES[i] < 8
  {
  }

  /** The four corners of one side of `drawCube`. */
  function Side(side: int): (r: seq<int>)
    requires 0 <= side < 6
    ensures |r| == 4 && forall k :: 0 <= k < 4 ==> 0 <= r[k] < 8
  {
    CubeIndicesInRange();
    CUBE_INDICES[side * 4 .. side * 4 + 4]
  }

  lemma SidesTable()
    ensures Side(0) == [0, 1, 2, 3] && Side(1) == [1, 4, 7, 2] && Side(2) == [4, 5, 6, 7]
    ensures Side(3) == [0, 3, 6, 5] && Side(4) == [0, 5, 4, 1] && Side(5) == [3, 2, 7, 6]
  {
    assert CUBE_INDICES[0] == 0;
    assert CUBE_INDICES[1] == 1;
    assert CUBE_INDICES[2] == 2;
    assert CUBE_INDICES[3] == 3;
    assert CUBE_INDICES[4] == 1;
    assert CUBE_INDICES[5] == 4;
    assert CUBE_INDICES[6] == 7;
    assert CUBE_INDICES[7] == 2;
    assert CUBE_INDICES[8] == 4;
    assert CUBE_INDICES[9] == 5;
    assert CUBE_INDICES[10] == 6;
    assert CUBE_INDICES[11] == 7;
    assert CUBE_INDICES[12] == 0;
    assert CUBE_INDICES[13] == 3;
    assert CUBE_INDICES[14] == 6;
    assert CUBE_INDICES[15] == 5;
    assert CUBE_INDICES[16] == 0;
    assert CUBE_INDICES[17] == 5;
    assert CUBE_INDICES[18] == 4;
    assert CUBE_INDICES[19] == 1;
    assert CUBE_INDICES[20] == 3;
    assert CUBE_INDICES[21] == 2;
    assert CUBE_INDICES[22] == 7;
    assert CUBE_INDICES[23] == 6;
    assert Side(0) == [0, 1, 2, 3];
    assert Side(1) == [1, 4, 7, 2];
    assert Side(2) == [4, 5, 6, 7];
    assert Side(3) == [0, 3, 6, 5];
    assert Side(4) == [0, 5, 4, 1];
    assert Side(5) == [3, 2, 7, 6];
  }

  /** The four corners of each side of `drawCube` are distinct and lie in one face of the box. */
  lemma CubeSidesAreFaces(min: Vector4, max: Vector4, side: int)
    requires 0 <= side < 6
    ensures forall i, j :: 0 <= i < j < 4 ==> Side(side)[i] != Side(side)[j]
    ensures forall k :: 0 <= k < 4 ==>
      Coordinate(CubeCorners(min, max)[Side(side)[k]], FACE_AXIS[side])
        == Coordinate(if FACE_AT_MAX[side] then max else min, FACE_AXIS[side])
  {
    SidesTable();
    var c := CubeCorners(min, max);
    if side == 0 {
      assert Side(0) == [0, 1, 2, 3] && FACE_AXIS[0] == 2 && FACE_AT_MAX[0] == false;
      assert c[0].z == min.z && c[1].z == min.z && c[2].z == min.z && c[3].z == min.z;
    } else if side == 1 {
      assert Side(1) == [1, 4, 7, 2] && FACE_AXIS[1] == 0 && FACE_AT_MAX[1] == true;
      assert c[1].x == max.x && c[4].x == max.x && c[7].x == max.x && c[2].x == max.x;
    } else if side == 2 {
      assert Side(2) == [4, 5, 6, 7] && FACE_AXIS[2] == 2 && FACE_AT_MAX[2] == true;
      assert c[4].z == max.z && c[5].z == max.z && c[6].z == max.z && c[7].z == max.z;
    } else if side == 3 {
      assert Side(3) == [0, 3, 6, 5] && FACE_AXIS[3] == 0 && FACE_AT_MAX[3] == false;
      assert c[0].x == min.x && c[3].x == min.x && c[6].x == min.x && c[5].x == min.x;
    } else if side == 4 {
      assert Side(4) == [0, 5, 4, 1] && FACE_AXIS[4] == 1 && FACE_AT_MAX[4] == true;
      assert c[0].y == max.y && c[5].y == max.y && c[4].y == max.y && c[1].y == max.y;
    } else {
      assert Side(5) == [3, 2, 7, 6] && FACE_AXIS[5] == 1 && FACE_AT_MAX[5] == false;
      assert c[3].y == min.y && c[2].y == min.y && c[7].y == min.y && c[6].y == min.y;
    }
  }

  /** The six sides are the six different faces of the box. */
  lemma CubeSidesDistinct()
    ensures forall s, t :: 0 <= s < t < 6 ==> (FACE_AXIS[s], FACE_AT_MAX[s]) != (FACE_AXIS[t], FACE_AT_MAX[t])
  {
  }

  /** How many of the first `sides` sides use `corner`. */
  function SidesUsing(corner: int, sides: nat): nat
    requires sides <= 6
  {
    if sides == 0 then 0
    else SidesUsing(corner, sides - 1)
         + (if corner in Side(sides - 1) then 1 else 0)
  }

  /** The count of sides using a corner, written out side by side. */
  lemma SidesUsingUnrolled(corner: int)
    ensures SidesUsing(corner, 6) ==
      (if corner in [0, 1, 2, 3] then 1 else 0) + (if corner in [1, 4, 7, 2] then 1 else 0)
      + (if corner in [4, 5, 6, 7] then 1 else 0) + (if corner in [0, 3, 6, 5] then 1 else 0)
      + (if corner in [0, 5, 4, 1] then 1 else 0) + (if corner in [3, 2, 7, 6] then 1 else 0)
  {
    SidesTable();
    assert SidesUsing(corner, 2) == SidesUsing(corner, 0) + (if corner in Side(0) then 1 else 0) + (if corner in Side(1) then 1 else 0);
    assert SidesUsing(corner, 4) == SidesUsing(corner, 2) + (if corner in Side(2) then 1 else 0) + (if corner in Side(3) then 1 else 0);
    assert SidesUsing(corner, 6) == SidesUsing(corner, 4) + (if corner in Side(4) then 1 else 0) + (if corner in Side(5) then 1 else 0);
  }

  /** Every corner of the cube belongs to exactly three of its sides. */
  lemma CubeCornersInThreeSides(corner: int)
    requires 0 <= corner < 8
    ensures SidesUsing(corner, 6) == 3
  {
    SidesUsingUnrolled(corner);
  }


  // ---------------------------------------------------------------- rings of vertices

  /**
   * `slices` rings, ring s being the curve swept to angle `angle * s` by `place`
   * (the nested loops that fill the `vertices` list of `drawSphere` and `drawCapsule`).
   */
  function Ring(curve: seq<Vector4>, slice: int, angle: real, place: (real, Vector4) -> Vector4): (r: seq<Vector4>)
    ensures |r| == |curve|
  {
    seq(|curve|, k requires 0 <= k < |curve| => place(angle * slice as real, curve[k]))
  }

  function Rings(curve: seq<Vector4>, rings: int, angle: real, place: (real, Vector4) -> Vector4): seq<Vector4>
    decreases rings
  {
    if rings <= 0 then [] else Rings(curve, rings - 1, angle, place) + Ring(curve, rings - 1, angle, place)
  }

  lemma MulStep(a: int, n: int)
    ensures (a + 1) * n == a * n + n
  {
  }

  lemma {:induction false} RingsLength(curve: seq<Vector4>, rings: int, angle: real, place: (real, Vector4) -> Vector4)
    requires rings >= 0
    ensures |Rings(curve, rings, angle, place)| == rings * |curve|
    decreases rings
  {
    if rings > 0 {
      RingsLength(curve, rings - 1, angle, place);
      MulStep(rings - 1, |curve|);
    }
  }

  lemma MulBelow(s: int, n: int, r: int)
    requires 0 <= s < r && 0 <= n
    ensures s * n + n <= r * n
  {
    MulNonneg(r - (s + 1), n);
    assert (r - (s + 1)) * n == r * n - (s * n + n);
  }

  /** The last ring of the table is the curve swept to the last angle. */
  lemma RingsLast(curve: seq<Vector4>, rings: int, angle: real, place: (real, Vector4) -> Vector4, s: int, k: int)
    requires 0 < rings && s == rings - 1 && 0 <= k < |curve|
    ensures |Rings(curve, rings - 1, angle, place)| == s * |curve|
    ensures Rings(curve, rings, angle, place)[s * |curve| + k] == place(angle * s as real, curve[k])
  {
    RingsLength(curve, rings - 1, angle, place);
    var prefix := Rings(curve, rings - 1, angle, place);
    var last := Ring(curve, s, angle, place);
    assert Rings(curve, rings, angle, place) == prefix + last;
    assert (prefix + last)[|prefix| + k] == last[k];
  }

  /** Position k of ring s of the table is the curve's point k swept to angle `angle * s`. */
  lemma {:induction false} RingsIndex(curve: seq<Vector4>, rings: int, angle: real,
                                      place: (real, Vector4) -> Vector4, s: int, k: int)
    requires 0 <= s < rings && 0 <= k < |curve|
    ensures 0 <= s * |curve| + k < |Rings(curve, rings, angle, place)|
    ensures Rings(curve, rings, angle, place)[s * |curve| + k] == place(angle * s as real, curve[k])
    decreases rings
  {
    RingsLength(curve, rings, angle, place);
    MulBelow(s, |curve|, rings);
    if s < rings - 1 {
      RingsIndex(curve, rings - 1, angle, place, s, k);
      RingsLength(curve, rings - 1, angle, place);
      var prefix := Rings(curve, rings - 1, angle, place);
      assert Rings(curve, rings, angle, place) == prefix + Ring(curve, rings - 1, angle, place);
    } else {
      RingsLast(curve, rings, angle, place, s, k);
    }
  }

  // ---------------------------------------------------------------- sphere

  /**
   * `Math.PI / n`. For n == 0 the source's angle is infinite; `drawSphere`
   * then renders no polygon, and the model uses 0.
   */
  function AngleStep(whole: real, n: int): real {
    if n == 0 then 0.0 else whole / n as real
  }

  /** `Matrix4.rotationZ(angle * k) * p`: the point p turned about z by k steps of `angle`. */
  function RotatedZ(angle: real, k: int, p: Vector4, sin: real -> real, cos: real -> real): Vector4 {
    TimesVector(RotationZ(angle * k as real, sin, cos), p)
  }

  /** `drawSphere`'s meridian: UNIT_Y rotated about z in `stacks` equal steps from 0 to pi. */
  function SphereCurve(stacks: int, sin: real -> real, cos: real -> real): (r: seq<Vector4>)
    ensures |r| == RangeLength(0, stacks)
  {
    seq(RangeLength(0, stacks), k requires 0 <= k < RangeLength(0, stacks) =>
      RotatedZ(AngleStep(PI, stacks), k, UNIT_Y, sin, cos))
  }

  /** `aboutY * point * radius`. */
  function SpherePlace(radius: real, sin: real -> real, cos: real -> real): (real, Vector4) -> Vector4 {
    (angle: real, point: Vector4) => Scale(TimesVector(RotationY(angle, sin, cos), point), radius)
  }

  /** `drawSphere`'s vertex list: slices + 1 copies of the meridian, swept about y. */
  function SphereVertices(radius: real, stacks: int, slices: int, sin: real -> real, cos: real -> real): seq<Vector4> {
    Rings(SphereCurve(stacks, sin, cos), RangeLength(0, slices), AngleStep(PI * 2.0, slices), SpherePlace(radius, sin, cos))
  }

  /** The quads of one slice of `drawSphere`: stacks 1 until stacks - 1. */
  function SphereRow(stacks: int, slice: int): (r: seq<Quad>)
    ensures |r| == RangeLength(1, stacks - 2)
  {
    seq(RangeLength(1, stacks - 2), j requires 0 <= j < RangeLength(1, stacks - 2) => SphereCell(stacks, slice, j + 1))
  }

  /** The quads of the first `slices` slices of `drawSphere`, in drawing order. */
  function SphereQuads(stacks: int, slices: int): seq<Quad>
    decreases slices
  {
    if slices <= 0 then [] else SphereQuads(stacks, slices - 1) + SphereRow(stacks, slices - 1)
  }

  /** A sphere with at least two stacks is drawn as slices * (stacks - 2) quads. */
  lemma {:induction false} SphereQuadCount(stacks: int, slices: int)
    requires stacks >= 2 && slices >= 0
    ensures |SphereQuads(stacks, slices)| == slices * (stacks - 2)
    decreases slices
  {
    if slices > 0 {
      SphereQuadCount(stacks, slices - 1);
      MulStep(slices - 1, stacks - 2);
    }
  }

  /** The sphere's vertex list has (slices + 1) * (stacks + 1) entries. */
  lemma SphereVertexCount(radius: real, stacks: int, slices: int, sin: real -> real, cos: real -> real)
    requires stacks >= 0 && slices >= 0
    ensures |SphereVertices(radius, stacks, slices, sin, cos)| == (slices + 1) * (stacks + 1)
  {
    RingsLength(SphereCurve(stacks, sin, cos), slices + 1, AngleStep(PI * 2.0, slices), SpherePlace(radius, sin, cos));
  }

  lemma CellInRange(n: int, rings: int, slice: int, stack: int)
    requires 0 <= slice && slice + 1 < rings && 0 <= stack && stack + 1 < n
    ensures QuadInRange(Cell(n, slice, stack), rings * n)
  {
    MulBelow(slice + 1, n, rings);
    MulStep(slice, n);
  }

  /**
   * Every quad of the sphere is a cell between two neighbouring meridians
   * that touches neither pole, and every index it uses is in the vertex list.
   */
  lemma {:induction false} SphereQuadsAreCells(stacks: int, slices: int)
    requires slices >= 0
    ensures forall q :: q in SphereQuads(stacks, slices) ==>
      exists slice, stack :: 0 <= slice < slices && 1 <= stack <= stacks - 2 && q == SphereCell(stacks, slice, stack)
    ensures forall q :: q in SphereQuads(stacks, slices) ==> QuadInRange(q, (slices + 1) * (stacks + 1))
    decreases slices
  {
    if slices > 0 {
      SphereQuadsAreCells(stacks, slices - 1);
      forall q | q in SphereQuads(stacks, slices)
        ensures exists slice, stack :: 0 <= slice < slices && 1 <= stack <= stacks - 2 && q == SphereCell(stacks, slice, stack)
        ensures QuadInRange(q, (slices + 1) * (stacks + 1))
      {
        if q in SphereQuads(stacks, slices - 1) {
          var slice, stack :| 0 <= slice < slices - 1 && 1 <= stack <= stacks - 2 && q == SphereCell(stacks, slice, stack);
          CellInRange(stacks + 1, slices + 1, slice, stack);
        } else {
          var j :| 0 <= j < |SphereRow(stacks, slices - 1)| && q == SphereRow(stacks, slices - 1)[j];
          CellInRange(stacks + 1, slices + 1, slices - 1, j + 1);
        }
      }
    }
  }

  // ---------------------------------------------------------------- capsule

  /**
   * n points of `drawCapsule`'s profile: the point (0, radius, 0) rotated about z
   * by `angle * (from + k)` and lifted by `lift`, for k from 0 below n.
   */
  function CapsuleArc(radius: real, lift: real, angle: real, from: int, n: nat,
                      sin: real -> real, cos: real -> real): (r: seq<Vector4>)
    ensures |r| == n
  {
    seq(n, k requires 0 <= k < n =>
      Plus(RotatedZ(angle, from + k, Direction(0.0, radius, 0.0), sin, cos), Direction(0.0, lift, 0.0)))
  }

  /** `drawCapsule`'s profile: a half circle lifted by height / 2, then one lowered by it. */
  function CapsuleCurve(radius: real, height: real, stacks: int, sin: real -> real, cos: real -> real): (r: seq<Vector4>)
    requires stacks != 0
    ensures stacks >= 0 ==> |r| == stacks + 2
  {
    var half := KotlinDiv(stacks, 2);
    var angle := PI / stacks as real;
    CapsuleArc(radius, height * 0.5, angle, 0, RangeLength(0, half), sin, cos)
      + CapsuleArc(radius, -height * 0.5, angle, half, RangeLength(half, stacks), sin, cos)
  }

  /** `Vector4(vertex.x, vertex.y, vertex.z)` of `aboutY * curve[index]`. */
  function CapsulePlace(sin: real -> real, cos: real -> real): (real, Vector4) -> Vector4 {
    (angle: real, point: Vector4) =>
      var v := TimesVector(RotationY(angle, sin, cos), point); Direction(v.x, v.y, v.z)
  }

  function CapsuleVertices(radius: real, height: real, stacks: int, slices: int,
                           sin: real -> real, cos: real -> real): seq<Vector4>
    requires stacks != 0
  {
    Rings(CapsuleCurve(radius, height, stacks, sin, cos), RangeLength(0, slices), AngleStep(PI * 2.0, slices),
          CapsulePlace(sin, cos))
  }

  /** The quads of one slice of `drawCapsule`: stacks 0..stacks, the last one started at its last corner. */
  function CapsuleRow(stacks: int, slice: int): (r: seq<Quad>)
    ensures |r| == RangeLength(0, stacks)
  {
    seq(RangeLength(0, stacks), j requires 0 <= j < RangeLength(0, stacks) =>
      CapsuleCell(stacks, slice, j))
  }

  function CapsuleQuads(stacks: int, slices: int): seq<Quad>
    decreases slices
  {
    if slices <= 0 then [] else CapsuleQuads(stacks, slices - 1) + CapsuleRow(stacks, slices - 1)
  }

  lemma {:induction false} CapsuleQuadCount(stacks: int, slices: int)
    requires stacks >= 0 && slices >= 0
    ensures |CapsuleQuads(stacks, slices)| == slices * (stacks + 1)
    decreases slices
  {
    if slices > 0 {
      CapsuleQuadCount(stacks, slices - 1);
      MulStep(slices - 1, stacks + 1);
    }
  }

  lemma CapsuleVertexCount(radius: real, height: real, stacks: int, slices: int, sin: real -> real, cos: real -> real)
    requires stacks > 0 && slices >= 0
    ensures |CapsuleVertices(radius, height, stacks, slices, sin, cos)| == (slices + 1) * (stacks + 2)
  {
    RingsLength(CapsuleCurve(radius, height, stacks, sin, cos), slices + 1, AngleStep(PI * 2.0, slices),
                CapsulePlace(sin, cos));
  }

  /**
   * Every quad of the capsule is a cell between neighbouring meridians, the
   * cells of one slice covering all stacks + 1 bands of the profile; only the
   * band at stacks is started at its last corner. Every index is in the vertex list.
   */
  lemma {:induction false} CapsuleQuadsAreCells(stacks: int, slices: int)
    requires slices >= 0
    ensures forall q :: q in CapsuleQuads(stacks, slices) ==>
      exists slice, stack :: 0 <= slice < slices && 0 <= stack <= stacks && q == CapsuleCell(stacks, slice, stack)
    ensures forall q :: q in CapsuleQuads(stacks, slices) ==> QuadInRange(q, (slices + 1) * (stacks + 2))
    decreases slices
  {
    if slices > 0 {
      CapsuleQuadsAreCells(stacks, slices - 1);
      forall q | q in CapsuleQuads(stacks, slices)
        ensures exists slice, stack :: 0 <= slice < slices && 0 <= stack <= stacks && q == CapsuleCell(stacks, slice, stack)
        ensures QuadInRange(q, (slices + 1) * (stacks + 2))
      {
        if q in CapsuleQuads(stacks, slices - 1) {
          var slice, stack :| 0 <= slice < slices - 1 && 0 <= stack <= stacks && q == CapsuleCell(stacks, slice, stack);
          CellInRange(stacks + 2, slices + 1, slice, stack);
        } else {
          var j :| 0 <= j < |CapsuleRow(stacks, slices - 1)| && q == CapsuleRow(stacks, slices - 1)[j];
          CellInRange(stacks + 2, slices + 1, slices - 1, j);
        }
      }
    }
  }

  // ---------------------------------------------------------------- building the tables

  /** A prefix one longer is the prefix and the next element. */
  lemma PrefixSnoc<T>(s: seq<T>, n: int)
    requires 0 <= n < |s|
    ensures s[..n + 1] == s[..n] + [s[n]]
  {
  }

  /** The first loop of `drawSphere`: the meridian, one point per stack from 0 to stacks. */
  method MakeSphereCurve(stacks: int, sin: real -> real, cos: real -> real) returns (curve: seq<Vector4>)
    ensures curve == SphereCurve(stacks, sin, cos)
  {
    var stackAngle := AngleStep(PI, stacks);
    curve := [];
    for stack := 0 to RangeLength(0, stacks)
      invariant curve == SphereCurve(stacks, sin, cos)[..stack]
    {
      PrefixSnoc(SphereCurve(stacks, sin, cos), stack);
      curve := curve + [RotatedZ(stackAngle, stack, UNIT_Y, sin, cos)];
    }
  }

  /** The two loops of `drawCapsule` that build its profile: stacks 0..stacks/2 lifted, stacks/2..stacks lowered. */
  method MakeCapsuleCurve(radius: real, height: real, stacks: int, sin: real -> real, cos: real -> real)
    returns (curve: seq<Vector4>)
    requires stacks != 0
    ensures curve == CapsuleCurve(radius, height, stacks, sin, cos)
  {
    var half := KotlinDiv(stacks, 2);
    var stackAngle := PI / stacks as real;
    ghost var upper := CapsuleArc(radius, height * 0.5, stackAngle, 0, RangeLength(0, half), sin, cos);
    ghost var lower := CapsuleArc(radius, -height * 0.5, stackAngle, half, RangeLength(half, stacks), sin, cos);
    curve := [];
    for stack := 0 to RangeLength(0, half)
      invariant curve == upper[..stack]
    {
      PrefixSnoc(upper, stack);
      curve := curve + [Plus(RotatedZ(stackAngle, stack, Direction(0.0, radius, 0.0), sin, cos), Direction(0.0, height * 0.5, 0.0))];
    }
    for stack := half to half + RangeLength(half, stacks)
      invariant curve == upper + lower[..stack - half]
    {
      PrefixSnoc(lower, stack - half);
      curve := curve + [Plus(RotatedZ(stackAngle, stack, Direction(0.0, radius, 0.0), sin, cos), Direction(0.0, -height * 0.5, 0.0))];
    }
  }

  /**
   * The loops of `drawSphere` and `drawCapsule` that fill their `vertices`
   * list: for each of `rings` slices, every point of the curve placed at the
   * slice's angle.
   */
  method Sweep(curve: seq<Vector4>, rings: nat, angle: real, place: (real, Vector4) -> Vector4)
    returns (vertices: seq<Vector4>)
    ensures vertices == Rings(curve, rings, angle, place)
  {
    vertices := [];
    for slice := 0 to rings
      invariant vertices == Rings(curve, slice, angle, place)
    {
      ghost var ring := Ring(curve, slice, angle, place);
      for index := 0 to |curve|
        invariant vertices == Rings(curve, slice, angle, place) + ring[..index]
      {
        vertices := vertices + [place(angle * slice as real, curve[index])];
      }
    }
  }

  /** `drawSphere`'s first two loops: the meridian, then its sweep into slices + 1 rings. */
  method MakeSphereVertices(radius: real, stacks: int, slices: int, sin: real -> real, cos: real -> real)
    returns (vertices: seq<Vector4>)
    ensures vertices == SphereVertices(radius, stacks, slices, sin, cos)
    ensures |vertices| == RangeLength(0, slices) * RangeLength(0, stacks)
  {
    var curve := MakeSphereCurve(stacks, sin, cos);
    vertices := Sweep(curve, RangeLength(0, slices), AngleStep(PI * 2.0, slices), SpherePlace(radius, sin, cos));
    RingsLength(curve, RangeLength(0, slices), AngleStep(PI * 2.0, slices), SpherePlace(radius, sin, cos));
  }

  /** `drawCapsule`'s first three loops: the profile, then its sweep into slices + 1 rings. */
  method MakeCapsuleVertices(radius: real, height: real, stacks: int, slices: int, sin: real -> real, cos: real -> real)
    returns (vertices: seq<Vector4>)
    requires stacks != 0
    ensures vertices == CapsuleVertices(radius, height, stacks, slices, sin, cos)
    ensures stacks >= 0 ==> |vertices| == RangeLength(0, slices) * (stacks + 2)
  {
    var curve := MakeCapsuleCurve(radius, height, stacks, sin, cos);
    vertices := Sweep(curve, RangeLength(0, slices), AngleStep(PI * 2.0, slices), CapsulePlace(sin, cos));
    RingsLength(curve, RangeLength(0, slices), AngleStep(PI * 2.0, slices), CapsulePlace(sin, cos));
  }
}
