/**
 * Camera.kt: a perspective camera whose near and far planes are put in order
 * once, and whose view and projection matrices are recomputed from the current
 * position and target on every read.
 */
module Cameras {
  import opened Vectors
  import opened Matrices
  import opened Numbers

  /** `min(near, far)` and `max(near, far)`: the two planes, sorted. */
  function Ordered(near: real, far: real): (r: (real, real))
    ensures r.0 <= r.1
    ensures (r.0 == near && r.1 == far) || (r.0 == far && r.1 == near)
  {
    (if near <= far then near else far, if near <= far then far else near)
  }

  /** Sorting twice is sorting once, and the order of the arguments does not matter. */
  lemma OrderedIsASort(near: real, far: real)
    ensures Ordered(near, far) == Ordered(far, near)
    ensures Ordered(Ordered(near, far).0, Ordered(near, far).1) == Ordered(near, far)
    ensures near <= far ==> Ordered(near, far) == (near, far)
  {
  }

  class Camera {
    const fov: real
    const aspect: real
    const nearPlane: real
    const farPlane: real
    /** The two fields the controller moves. */
    var position: Vector4
    var target: Vector4

    /** The source's default arguments: a 60 degree field of view, square aspect, planes 0.1 and 1000. */
    constructor (fov: real := PI / 3.0, aspect: real := 1.0, near: real := 0.1, far: real := 1000.0)
      ensures this.fov == fov && this.aspect == aspect
      ensures (nearPlane, farPlane) == Ordered(near, far)
      ensures Valid()
      ensures position == UNIT_Z && target == ZERO
    {
      this.fov := fov;
      this.aspect := aspect;
      var planes := Ordered(near, far);
      nearPlane := planes.0;
      farPlane := planes.1;
      position := UNIT_Z;
      target := ZERO;
    }

    /** The stored planes are in order. */
    predicate Valid()
      reads this
    {
      nearPlane <= farPlane
    }

    /**
     * `view`: the look-at matrix of the current position and target with y up;
     * whatever the normalisation gives, it takes the camera position to the origin.
     */
    function View(invSqrt: real -> real): (m: Matrix4)
      reads this
      ensures RowTimes(Point(position), m) == Vector4(0.0, 0.0, 0.0, 1.0)
    {
      LookAtMapsEyeToOrigin(position, target, UNIT_Y, invSqrt);
      LookAt(position, target, UNIT_Y, invSqrt)
    }

    /**
     * `projection`: the perspective matrix of the stored planes. When neither plane
     * is at zero, a point on the axis at the near plane goes to depth -1 and one at the
     * far plane to depth +1.
     */
    function Projection(tan: real -> real): (m: Matrix4)
      requires nearPlane != farPlane
      requires tan(fov / 2.0) != 0.0 && aspect != 0.0
      ensures nearPlane != 0.0 && farPlane != 0.0 ==>
        var p := RowTimes(Vector4(0.0, 0.0, -nearPlane, 1.0), m);
        var q := RowTimes(Vector4(0.0, 0.0, -farPlane, 1.0), m);
        p.w == nearPlane && p.z / p.w == -1.0 && q.w == farPlane && q.z / q.w == 1.0
    {
      var m := Perspective(fov, aspect, nearPlane, farPlane, tan);
      if nearPlane != 0.0 && farPlane != 0.0 then
        PerspectiveMapsNearAndFar(fov, aspect, nearPlane, farPlane, tan); m
      else m
    }
  }
}
