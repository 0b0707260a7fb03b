/**
 * FirstPersonControl.kt: a keyboard and mouse controller that keeps a bitmask
 * of the movement keys held down and a drag state, and moves a camera.
 * AWT's key events and mouse events are reduced to their key code and their
 * x and y; the square root, arc tangent, arc sine, sine and cosine are parameters.
 */
module Controls {
  import opened Vectors
  import opened Matrices
  import opened Cameras

  const MOVEMENT_FORWARD: bv8 := 1
  const MOVEMENT_BACK: bv8 := 2
  const MOVEMENT_LEFT: bv8 := 4
  const MOVEMENT_RIGHT: bv8 := 8

  /** AWT's `KeyEvent.VK_W`, `VK_S`, `VK_A` and `VK_D`. */
  const VK_W: int := 87
  const VK_S: int := 83
  const VK_A: int := 65
  const VK_D: int := 68

  /** The movement bit a key code stands for: W, S, A, D; any other key has none. */
  function KeyBit(code: int): (b: bv8)
    ensures b == 0 <==> code !in {VK_W, VK_S, VK_A, VK_D}
    ensures b in {0, MOVEMENT_FORWARD, MOVEMENT_BACK, MOVEMENT_LEFT, MOVEMENT_RIGHT}
  {
    if code == VK_W then MOVEMENT_FORWARD
    else if code == VK_S then MOVEMENT_BACK
    else if code == VK_A then MOVEMENT_LEFT
    else if code == VK_D then MOVEMENT_RIGHT
    else 0
  }

  /** The mask after `keyDown(code)`: the key's bit set. */
  function Pressed(mask: bv8, code: int): (r: bv8)
    ensures r & KeyBit(code) == KeyBit(code)
    ensures r & !KeyBit(code) == mask & !KeyBit(code)
  {
    mask | KeyBit(code)
  }

  /** The mask after `keyUp(code)`: the key's bit flipped. */
  function Released(mask: bv8, code: int): (r: bv8)
    ensures r & KeyBit(code) == (mask & KeyBit(code)) ^ KeyBit(code)
    ensures r & !KeyBit(code) == mask & !KeyBit(code)
  {
    mask ^ KeyBit(code)
  }

  /** A movement mask holds only the four movement bits. */
  predicate IsMovementMask(mask: bv8) {
    mask < 16
  }

  /** Both key handlers keep the mask to the four movement bits. */
  lemma KeysKeepMask(mask: bv8, code: int)
    requires IsMovementMask(mask)
    ensures IsMovementMask(Pressed(mask, code)) && IsMovementMask(Released(mask, code))
  {
    if code == VK_W {
    } else if code == VK_S {
    } else if code == VK_A {
    } else if code == VK_D {
    }
  }

  /** Pressing twice is pressing once; a key that is not a movement key changes nothing. */
  lemma PressIdempotent(mask: bv8, code: int)
    ensures Pressed(Pressed(mask, code), code) == Pressed(mask, code)
    ensures KeyBit(code) == 0 ==> Pressed(mask, code) == mask && Released(mask, code) == mask
  {
    if code == VK_W {
    } else if code == VK_S {
    } else if code == VK_A {
    } else if code == VK_D {
    }
  }

  /**
   * A press followed by a release clears the key's bit, whatever it was;
   * a release with no press before it sets a clear bit.
   */
  lemma PressThenRelease(mask: bv8, code: int)
    ensures Released(Pressed(mask, code), code) == mask & !KeyBit(code)
    ensures mask & KeyBit(code) == 0 ==> Released(mask, code) == mask | KeyBit(code)
  {
  }

  /** `held and bit == bit`. */
  predicate Holds(mask: bv8, bit: bv8) {
    mask & bit == bit
  }

  /** The pitch limit the drag handler imposes, in radians. */
  const PITCH_LIMIT: real := 1.57

  /** The pitch clamp of `mouseMove`. */
  function ClampPitch(p: real): (r: real)
    ensures -PITCH_LIMIT <= r <= PITCH_LIMIT
    ensures -PITCH_LIMIT <= p <= PITCH_LIMIT ==> r == p
    ensures p < -PITCH_LIMIT ==> r == -PITCH_LIMIT
    ensures p > PITCH_LIMIT ==> r == PITCH_LIMIT
  {
    if p < -PITCH_LIMIT then -PITCH_LIMIT else if p > PITCH_LIMIT then PITCH_LIMIT else p
  }

  /** The direction of view for a yaw and a pitch: (0, 0, -1) rotated about x, then about y. */
  function LookDirection(yaw: real, pitch: real, sin: real -> real, cos: real -> real): Vector4 {
    TimesVector(Times(AxisAngle(UNIT_Y, yaw, sin, cos), AxisAngle(UNIT_X, pitch, sin, cos)),
                Direction(0.0, 0.0, -1.0))
  }

  /** The forward/back step of `update`: forward wins when both keys are held. */
  function Advance(xyz: Vector4, lookAt: Vector4, mask: bv8, scaled: real): Vector4 {
    if Holds(mask, MOVEMENT_FORWARD) then Plus(xyz, Scale(lookAt, scaled))
    else if Holds(mask, MOVEMENT_BACK) then Minus(xyz, Scale(lookAt, scaled))
    else xyz
  }

  /**
   * The sideways step of `update`: left wins when both keys are held. The step
   * is `scaled / sqrt(z^2 + x^2)` of the horizontal perpendicular of `lookAt`;
   * `invSqrt(q)` stands for `1.0 / sqrt(q)`.
   */
  function Strafe(xyz: Vector4, lookAt: Vector4, mask: bv8, scaled: real, invSqrt: real -> real): Vector4 {
    var scalar := scaled * invSqrt(lookAt.z * lookAt.z + lookAt.x * lookAt.x);
    var side := Direction(-lookAt.z * scalar, 0.0, lookAt.x * scalar);
    if Holds(mask, MOVEMENT_LEFT) then Minus(xyz, side)
    else if Holds(mask, MOVEMENT_RIGHT) then Plus(xyz, side)
    else xyz
  }

  /** The camera position after `update`. */
  function Moved(position: Vector4, lookAt: Vector4, mask: bv8, scaled: real, invSqrt: real -> real): Vector4 {
    Strafe(Advance(position, lookAt, mask, scaled), lookAt, mask, scaled, invSqrt)
  }

  /** With no movement key held, `update` leaves the camera where it is. */
  lemma NoKeysNoMove(position: Vector4, lookAt: Vector4, scaled: real, invSqrt: real -> real)
    ensures Moved(position, lookAt, 0, scaled, invSqrt) == position
  {
  }

  /** Forward beats back and left beats right: the losing key makes no difference. */
  lemma ForwardAndLeftWin(position: Vector4, lookAt: Vector4, mask: bv8, scaled: real, invSqrt: real -> real)
    ensures Holds(mask, MOVEMENT_FORWARD) ==>
      Moved(position, lookAt, mask, scaled, invSqrt) == Moved(position, lookAt, mask & !MOVEMENT_BACK, scaled, invSqrt)
    ensures Holds(mask, MOVEMENT_LEFT) ==>
      Moved(position, lookAt, mask, scaled, invSqrt) == Moved(position, lookAt, mask & !MOVEMENT_RIGHT, scaled, invSqrt)
  {
    var noBack, noRight := mask & !MOVEMENT_BACK, mask & !MOVEMENT_RIGHT;
    assert Holds(mask, MOVEMENT_FORWARD) ==> Holds(noBack, MOVEMENT_FORWARD);
    assert Holds(mask, MOVEMENT_LEFT) == Holds(noBack, MOVEMENT_LEFT);
    assert Holds(mask, MOVEMENT_RIGHT) == Holds(noBack, MOVEMENT_RIGHT);
    assert Holds(mask, MOVEMENT_LEFT) ==> Holds(noRight, MOVEMENT_LEFT);
    assert Holds(mask, MOVEMENT_FORWARD) == Holds(noRight, MOVEMENT_FORWARD);
    assert Holds(mask, MOVEMENT_BACK) == Holds(noRight, MOVEMENT_BACK);
  }

  class FirstPersonControl {
    const camera: Camera
    var lookAt: Vector4
    var yaw: real
    var pitch: real
    var movementMask: bv8
    var lastX: int
    var lastY: int
    var dragging: bool

    predicate Valid()
      reads this
    {
      IsMovementMask(movementMask)
    }

    /**
     * Looks from the camera's position toward its target. The source divides by a
     * zero length when the two coincide; the model asks that they do not.
     */
    constructor (camera: Camera, sqrt: real -> real, atan2: (real, real) -> real, asin: real -> real)
      requires Length(Minus(camera.target, camera.position), sqrt) != 0.0
      ensures this.camera == camera
      ensures lookAt == Normalize(Minus(camera.target, camera.position), sqrt)
      ensures yaw == -atan2(-lookAt.x, -lookAt.z) && pitch == -asin(lookAt.y)
      ensures movementMask == 0 && lastX == 0 && lastY == 0 && !dragging
      ensures Valid()
    {
      this.camera := camera;
      var look := Normalize(Minus(camera.target, camera.position), sqrt);
      lookAt := look;
      yaw := -atan2(-look.x, -look.z);
      pitch := -asin(look.y);
      movementMask := 0;
      lastX := 0;
      lastY := 0;
      dragging := false;
    }

    /** `keyUp`: flips the movement bit of the key, if it has one. */
    method KeyUp(code: int)
      requires Valid()
      modifies this`movementMask
      ensures Valid()
      ensures movementMask == Released(old(movementMask), code)
    {
      KeysKeepMask(movementMask, code);
      if code == VK_W {
        movementMask := movementMask ^ MOVEMENT_FORWARD;
      } else if code == VK_S {
        movementMask := movementMask ^ MOVEMENT_BACK;
      } else if code == VK_A {
        movementMask := movementMask ^ MOVEMENT_LEFT;
      } else if code == VK_D {
        movementMask := movementMask ^ MOVEMENT_RIGHT;
      }
    }

    /** `keyDown`: sets the movement bit of the key, if it has one. */
    method KeyDown(code: int)
      requires Valid()
      modifies this`movementMask
      ensures Valid()
      ensures movementMask == Pressed(old(movementMask), code)
    {
      KeysKeepMask(movementMask, code);
      if code == VK_W {
        movementMask := movementMask | MOVEMENT_FORWARD;
      } else if code == VK_S {
        movementMask := movementMask | MOVEMENT_BACK;
      } else if code == VK_A {
        movementMask := movementMask | MOVEMENT_LEFT;
      } else if code == VK_D {
        movementMask := movementMask | MOVEMENT_RIGHT;
      }
    }

    /** `mouseDown`: starts a drag at the mouse position. */
    method MouseDown(x: int, y: int)
      modifies this`dragging, this`lastX, this`lastY
      ensures dragging && lastX == x && lastY == y
    {
      dragging := true;
      lastX := x;
      lastY := y;
    }

    /**
     * `mouseMove`: while dragging, turns by 0.005 radians per pixel moved, clamps
     * the pitch and recomputes the direction of view; always records the mouse position.
     */
    method MouseMove(x: int, y: int, sin: real -> real, cos: real -> real)
      modifies this`yaw, this`pitch, this`lookAt, this`lastX, this`lastY
      ensures lastX == x && lastY == y
      ensures !dragging ==> yaw == old(yaw) && pitch == old(pitch) && lookAt == old(lookAt)
      ensures dragging ==>
        && yaw == old(yaw) + 0.005 * (x - old(lastX)) as real
        && pitch == ClampPitch(old(pitch) + 0.005 * (y - old(lastY)) as real)
        && -PITCH_LIMIT <= pitch <= PITCH_LIMIT
        && lookAt == LookDirection(yaw, pitch, sin, cos)
    {
      if dragging {
        yaw := yaw + 0.005 * (x - lastX) as real;
        pitch := pitch + 0.005 * (y - lastY) as real;
        pitch := if pitch < -PITCH_LIMIT then -PITCH_LIMIT else if pitch > PITCH_LIMIT then PITCH_LIMIT else pitch;
        lookAt := TimesVector(Times(AxisAngle(UNIT_Y, yaw, sin, cos), AxisAngle(UNIT_X, pitch, sin, cos)),
                              Direction(0.0, 0.0, -1.0));
      }
      lastX := x;
      lastY := y;
    }

    /** `mouseUp`: ends the drag at the mouse position. */
    method MouseUp(x: int, y: int)
      modifies this`dragging, this`lastX, this`lastY
      ensures !dragging && lastX == x && lastY == y
    {
      dragging := false;
      lastX := x;
      lastY := y;
    }

    /**
     * `update`: moves the camera `seconds * speed` along the direction of view and
     * sideways, as the held keys say, and aims it along the direction of view.
     */
    method Update(seconds: real, speed: real, invSqrt: real -> real)
      modifies camera
      ensures camera.position == Moved(old(camera.position), lookAt, movementMask, seconds * speed, invSqrt)
      ensures camera.target == Plus(camera.position, lookAt)
    {
      var xyz := camera.position;
      var scaledSpeed := seconds * speed;
      if movementMask & MOVEMENT_FORWARD == MOVEMENT_FORWARD {
        xyz := Plus(xyz, Scale(lookAt, scaledSpeed));
      } else if movementMask & MOVEMENT_BACK == MOVEMENT_BACK {
        xyz := Minus(xyz, Scale(lookAt, scaledSpeed));
      }
      assert xyz == Advance(old(camera.position), lookAt, movementMask, scaledSpeed);
      if movementMask & MOVEMENT_LEFT == MOVEMENT_LEFT {
        var scalar := scaledSpeed * invSqrt(lookAt.z * lookAt.z + lookAt.x * lookAt.x);
        xyz := Minus(xyz, Direction(-lookAt.z * scalar, 0.0, lookAt.x * scalar));
      } else if movementMask & MOVEMENT_RIGHT == MOVEMENT_RIGHT {
        var scalar := scaledSpeed * invSqrt(lookAt.z * lookAt.z + lookAt.x * lookAt.x);
        xyz := Plus(xyz, Direction(-lookAt.z * scalar, 0.0, lookAt.x * scalar));
      }
      assert xyz == Moved(old(camera.position), lookAt, movementMask, scaledSpeed, invSqrt);
      camera.position := xyz;
      camera.target := Plus(xyz, lookAt);
    }
  }
}
