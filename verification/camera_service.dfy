/**
  `rendering/camera.service.ts`: the camera controller.  Modifier keys and the
  mouse button select between panning along world axes and orbiting in
  spherical coordinates; the wheel dollies along the view direction; a reset
  animation brings the camera back to its default position one frame at a time.

  The three.js camera is reduced to its position.  Its orientation (`lookAt`)
  is not modelled; its world direction and the spherical conversions of
  `coordinate-helpers.ts` are supplied by the caller as values and functions.
*/
module CameraControl {
  import opened Geometry
  import opened Interaction

  const DefaultCameraPosition: Vec3 := Vec3(10.0, 10.0, 20.0)
  const DefaultMouseSensitivity: real := 0.02
  /** `Math.PI`, written out to the precision of a double. */
  const Pi: real := 3.141592653589793
  /** The largest polar angle an orbit may reach, just above the ground. */
  const FloorLimit: real := Pi / 2.0 - 0.04
  /** The smallest polar angle an orbit may reach, just off the pole. */
  const HeightLimit: real := 0.001
  /** The literal lies strictly between 3.14 and 3.15, and the floor limit below a right angle. */
  lemma PiBounds()
    ensures 3.14 < Pi < 3.15
    ensures HeightLimit < FloorLimit < Pi / 2.0
  {
  }

  /** `MouseButton.Left`, the value of `MouseEvent.button` for the primary button. */
  const LeftButton: int := 0

  /** `SphericalCoordinate`: `theta` from the polar (up) axis, `phi` around it. */
  datatype Spherical = Spherical(radius: real, theta: real, phi: real)

  /** The polar-angle clamp of an orbit step: first the floor limit, then the height limit. */
  function ClampTheta(theta: real): (r: real)
    ensures HeightLimit <= r <= FloorLimit
    ensures HeightLimit <= theta <= FloorLimit ==> r == theta
    ensures theta > FloorLimit ==> r == FloorLimit
    ensures theta < HeightLimit ==> r == HeightLimit
  {
    var limited := if theta > FloorLimit then FloorLimit else theta;
    if limited < HeightLimit then HeightLimit else limited
  }

  /**
    The spherical coordinate an orbit drag moves the camera to: the azimuth turns
    by the horizontal movement, the polar angle by the vertical movement, clamped.
  */
  function OrbitTarget(s: Spherical, movementX: real, movementY: real): (r: Spherical)
    ensures r.radius == s.radius
    ensures r.phi == s.phi + movementX * DefaultMouseSensitivity
    ensures HeightLimit <= r.theta <= FloorLimit
    ensures HeightLimit <= s.theta + movementY * DefaultMouseSensitivity <= FloorLimit ==>
      r.theta == s.theta + movementY * DefaultMouseSensitivity
  {
    Spherical(s.radius,
              ClampTheta(s.theta + movementY * DefaultMouseSensitivity),
              s.phi + movementX * DefaultMouseSensitivity)
  }

  /** A pan step: Shift moves along -x by the horizontal movement, Control along +z by the vertical one. */
  function Pan(p: Vec3, shift: bool, control: bool, movementX: real, movementY: real): Vec3 {
    Vec3(if shift then p.x - movementX * DefaultMouseSensitivity else p.x,
         p.y,
         if control then p.z + movementY * DefaultMouseSensitivity else p.z)
  }

  /** Panning back by the opposite movement returns the camera to where it was. */
  lemma PanUndo(p: Vec3, shift: bool, control: bool, movementX: real, movementY: real)
    ensures Pan(Pan(p, shift, control, movementX, movementY), shift, control, -movementX, -movementY) == p
  {
  }

  /**
    A wheel step: the camera moves by its view direction, or by its opposite when
    `deltaY` is positive, unless that would take it from z >= 0 to z < 0.
  */
  function WheelStep(p: Vec3, direction: Vec3, deltaY: real): (r: Vec3)
    ensures p.z >= 0.0 ==> r.z >= 0.0
    ensures r == p || r == Add(p, if deltaY > 0.0 then Neg(direction) else direction)
    ensures var d := if deltaY > 0.0 then Neg(direction) else direction;
            p.z >= 0.0 && p.z + d.z < 0.0 ==> r == p
    ensures var d := if deltaY > 0.0 then Neg(direction) else direction;
            !(p.z >= 0.0 && p.z + d.z < 0.0) ==> r == Add(p, d)
  {
    var d := if deltaY > 0.0 then Neg(direction) else direction;
    if p.z + d.z < 0.0 && p.z >= 0.0 then p else Add(p, d)
  }

  /** Zooming in by one tick and out by one tick, with no ground stop, is a round trip. */
  lemma WheelRoundTrip(p: Vec3, direction: Vec3)
    requires p.z >= 0.0 && p.z + direction.z >= 0.0
    ensures WheelStep(WheelStep(p, direction, -1.0), direction, 1.0) == p
  {
  }

  /** The state of the reset animation: camera position, `resetActive`, frame counter. */
  datatype ResetState = ResetState(position: Vec3, active: bool, frame: nat)

  /** `desiredResetFrames`: five frames per unit of distance, rounded down. */
  function DesiredResetFrames(distance: real): (r: int)
    ensures distance >= 0.0 ==> r >= 0
    ensures r as real <= distance * 5.0 < r as real + 1.0
  {
    (distance * 5.0).Floor
  }

  /**
    One tick of `updatePositionIfMoving`, given the distance from the camera to
    the default position.  Once the counter reaches the desired frame count the
    camera snaps to the default position and the animation ends; before that,
    the offset from the default shrinks by the fraction counter / desired (at
    counter 0 the source divides by zero and moves nothing) and the counter grows.
  */
  function ResetTick(s: ResetState, distance: real): (r: ResetState)
    ensures !s.active ==> r == s
    ensures s.active && s.frame >= DesiredResetFrames(distance) ==>
      r == ResetState(DefaultCameraPosition, false, 0)
    ensures s.active && s.frame < DesiredResetFrames(distance) ==>
      && r.active && r.frame == s.frame + 1
      && Sub(r.position, DefaultCameraPosition) ==
         Scale(Sub(s.position, DefaultCameraPosition), 1.0 - s.frame as real / DesiredResetFrames(distance) as real)
  {
    if !s.active then s
    else
      var desired := DesiredResetFrames(distance);
      if s.frame >= desired then ResetState(DefaultCameraPosition, false, 0)
      else if s.frame == 0 then ResetState(s.position, true, 1)
      else
        var diff := Sub(s.position, DefaultCameraPosition);
        var reduction := desired as real / s.frame as real;
        assert diff.x / reduction == diff.x * (s.frame as real / desired as real);
        assert diff.y / reduction == diff.y * (s.frame as real / desired as real);
        assert diff.z / reduction == diff.z * (s.frame as real / desired as real);
        ResetState(Sub(s.position, Vec3(diff.x / reduction, diff.y / reduction, diff.z / reduction)), true, s.frame + 1)
  }

  /** `n` animation frames, each measuring the distance afresh. */
  function Run(s: ResetState, dist: (Vec3, Vec3) -> real, n: nat): ResetState
    decreases n
  {
    if n == 0 then s else Run(ResetTick(s, dist(s.position, DefaultCameraPosition)), dist, n - 1)
  }

  lemma {:induction false} RunIdle(s: ResetState, dist: (Vec3, Vec3) -> real, n: nat)
    requires !s.active
    ensures Run(s, dist, n) == s
    decreases n
  {
    if n > 0 {
      RunIdle(s, dist, n - 1);
    }
  }

  /**
    The animation ends exactly at the default position: from any active state
    whose counter does not exceed a bound on the desired frame count, enough
    frames to carry the counter past that bound finish it.  The desired count
    never grows while the camera approaches, so the bound holds throughout.
  */
  lemma {:induction false} ResetConverges(s: ResetState, dist: (Vec3, Vec3) -> real, bound: nat, n: nat)
    requires IsDistance(dist)
    requires s.active
    requires DesiredResetFrames(dist(s.position, DefaultCameraPosition)) <= bound
    requires s.frame <= bound < s.frame + n
    ensures Run(s, dist, n) == ResetState(DefaultCameraPosition, false, 0)
    decreases n
  {
    var distance := dist(s.position, DefaultCameraPosition);
    var desired := DesiredResetFrames(distance);
    var next := ResetTick(s, distance);
    if s.frame >= desired {
      RunIdle(next, dist, n - 1);
    } else {
      var k := 1.0 - s.frame as real / desired as real;
      assert 0.0 <= k <= 1.0;
      assert next.position == Add(DefaultCameraPosition, Scale(Sub(s.position, DefaultCameraPosition), k));
      DistanceShrinks(dist, s.position, DefaultCameraPosition, k);
      ResetConverges(next, dist, bound, n - 1);
    }
  }

  /**
    After `reset()`, the first desired frame count plus one frames are enough to
    bring the camera home; an animation that ends sooner idles for the rest.
  */
  lemma ResetArrives(position: Vec3, dist: (Vec3, Vec3) -> real)
    requires IsDistance(dist)
    ensures var frames := DesiredResetFrames(dist(position, DefaultCameraPosition));
            frames >= 0 &&
            Run(ResetState(position, true, 0), dist, frames + 1) == ResetState(DefaultCameraPosition, false, 0)
  {
    var frames := DesiredResetFrames(dist(position, DefaultCameraPosition));
    ResetConverges(ResetState(position, true, 0), dist, frames, frames + 1);
  }

  /** A distance function is pinned to any non-negative root of the squared distance. */
  lemma DistanceIs(dist: (Vec3, Vec3) -> real, a: Vec3, b: Vec3, v: real)
    requires IsDistance(dist)
    requires v >= 0.0 && v * v == DistSq(a, b)
    ensures dist(a, b) == v
  {
    SquareMonotone(dist(a, b), v);
    SquareMonotone(v, dist(a, b));
  }

  /**
    The desired frame count is measured afresh every frame, so a reset can end
    before the first count plus one frames: from (10.7, 10, 20) the first count
    is 3, yet the camera is home after 3 frames.
  */
  lemma ResetEndsEarly(dist: (Vec3, Vec3) -> real)
    requires IsDistance(dist)
    ensures DesiredResetFrames(dist(Vec3(10.7, 10.0, 20.0), DefaultCameraPosition)) == 3
    ensures Run(ResetState(Vec3(10.7, 10.0, 20.0), true, 0), dist, 3) == ResetState(DefaultCameraPosition, false, 0)
  {
    var p0 := Vec3(10.7, 10.0, 20.0);
    DistanceIs(dist, p0, DefaultCameraPosition, 0.7);
    assert DesiredResetFrames(0.7) == 3;
    var s1 := ResetTick(ResetState(p0, true, 0), 0.7);
    assert s1 == ResetState(p0, true, 1);
    var s2 := ResetTick(s1, 0.7);
    var p2 := Vec3(10.0 + 7.0 / 15.0, 10.0, 20.0);
    assert s2 == ResetState(p2, true, 2);
    DistanceIs(dist, p2, DefaultCameraPosition, 7.0 / 15.0);
    assert DesiredResetFrames(7.0 / 15.0) == 2;
    var s3 := ResetTick(s2, 7.0 / 15.0);
    assert s3 == ResetState(DefaultCameraPosition, false, 0);
    assert Run(s3, dist, 0) == s3;
    assert Run(s2, dist, 1) == s3;
    assert Run(s1, dist, 2) == s3;
  }

  /** `CameraService`: the camera position and the controller's input state. */
  class CameraService {
    var position: Vec3
    var mouseDown: bool
    var shiftPressed: bool
    var controlPressed: bool
    var mouseButton: int
    var resetActive: bool
    var resetMovementFrameCount: nat

    /** The frame counter is at rest whenever no reset is running. */
    ghost predicate Valid()
      reads this
    {
      !resetActive ==> resetMovementFrameCount == 0
    }

    ghost function ResetView(): ResetState
      reads this
    {
      ResetState(position, resetActive, resetMovementFrameCount)
    }

    constructor ()
      ensures Valid()
      ensures position == DefaultCameraPosition
      ensures !mouseDown && !shiftPressed && !controlPressed && mouseButton == LeftButton
      ensures !resetActive
    {
      position := DefaultCameraPosition;
      mouseDown, shiftPressed, controlPressed := false, false, false;
      mouseButton := LeftButton;
      resetActive := false;
      resetMovementFrameCount := 0;
    }

    /** Shift sets `shiftPressed`, Control sets `controlPressed`. */
    method OnKeyDown(event: KeyboardEvent)
      requires Valid()
      modifies this`shiftPressed, this`controlPressed
      ensures Valid()
      ensures shiftPressed == (event.key == "Shift" || old(shiftPressed))
      ensures controlPressed == (event.key == "Control" || old(controlPressed))
    {
      if event.key == "Shift" {
        shiftPressed := true;
      } else if event.key == "Control" {
        controlPressed := true;
      }
    }

    /** Shift clears `shiftPressed`; releasing Control sets `controlPressed`, as the source does. */
    method OnKeyUp(event: KeyboardEvent)
      requires Valid()
      modifies this`shiftPressed, this`controlPressed
      ensures Valid()
      ensures shiftPressed == (event.key != "Shift" && old(shiftPressed))
      ensures controlPressed == (event.key == "Control" || old(controlPressed))
    {
      if event.key == "Shift" {
        shiftPressed := false;
      } else if event.key == "Control" {
        controlPressed := true;
      }
    }

    method OnMouseDown(event: MouseEvent)
      requires Valid()
      modifies this`mouseDown, this`mouseButton
      ensures Valid()
      ensures mouseDown && mouseButton == event.button
    {
      mouseDown := true;
      mouseButton := event.button;
    }

    /** The only place that clears `controlPressed`. */
    method OnMouseUp(event: MouseEvent)
      requires Valid()
      modifies this`mouseDown, this`shiftPressed, this`controlPressed
      ensures Valid()
      ensures !mouseDown && !shiftPressed && !controlPressed
    {
      mouseDown := false;
      shiftPressed := false;
      controlPressed := false;
    }

    /**
      A drag with the left button pans while Shift or Control is held and orbits
      otherwise; nothing moves without a pressed button, during a reset, or with
      another button.
    */
    method OnMouseMove(event: MouseEvent, toSpherical: Vec3 -> Spherical, toCartesian: Spherical -> Vec3)
      requires Valid()
      modifies this`position
      ensures Valid()
      ensures !old(mouseDown) || resetActive || mouseButton != LeftButton ==> position == old(position)
      ensures old(mouseDown) && !resetActive && mouseButton == LeftButton && (shiftPressed || controlPressed) ==>
        position == Pan(old(position), shiftPressed, controlPressed, event.movementX, event.movementY)
      ensures old(mouseDown) && !resetActive && mouseButton == LeftButton && !shiftPressed && !controlPressed ==>
        position == toCartesian(OrbitTarget(toSpherical(old(position)), event.movementX, event.movementY))
    {
      if !mouseDown || resetActive {
        return;
      }

      if mouseButton == LeftButton {
        if shiftPressed || controlPressed {
          if shiftPressed {
            position := position.(x := position.x - event.movementX * DefaultMouseSensitivity);
          }
          if controlPressed {
            position := position.(z := position.z + event.movementY * DefaultMouseSensitivity);
          }
          return;
        }

        var spherical := toSpherical(position);
        var xMovement := event.movementX * DefaultMouseSensitivity;
        var yMovement := event.movementY * DefaultMouseSensitivity;
        spherical := spherical.(phi := spherical.phi + xMovement, theta := spherical.theta + yMovement);
        if spherical.theta > FloorLimit {
          spherical := spherical.(theta := FloorLimit);
        }
        if spherical.theta < HeightLimit {
          spherical := spherical.(theta := HeightLimit);
        }
        position := toCartesian(spherical);
      }
    }

    /** `direction` is the camera's world direction at the time of the event. */
    method OnWheel(event: WheelEvent, direction: Vec3)
      requires Valid()
      modifies this`position
      ensures Valid()
      ensures position == if resetActive then old(position) else WheelStep(old(position), direction, event.deltaY)
    {
      if resetActive {
        return;
      }

      var cameraDirection := direction;
      if event.deltaY > 0.0 {
        cameraDirection := Neg(cameraDirection);
      }

      if position.z + cameraDirection.z < 0.0 && position.z >= 0.0 {
        return;
      }

      position := Add(position, cameraDirection);
    }

    method Reset()
      requires Valid()
      modifies this`resetActive
      ensures Valid() && resetActive
    {
      resetActive := true;
    }

    /** One frame of the reset animation; `dist` is the Euclidean distance. */
    method UpdatePositionIfMoving(dist: (Vec3, Vec3) -> real)
      requires IsDistance(dist) && Valid()
      modifies this`position, this`resetActive, this`resetMovementFrameCount
      ensures Valid()
      ensures ResetView() == ResetTick(old(ResetView()), dist(old(position), DefaultCameraPosition))
    {
      if !resetActive {
        return;
      }

      var positionDiff := Sub(position, DefaultCameraPosition);
      var distanceFactor := dist(position, DefaultCameraPosition);
      var desiredResetFrames := (distanceFactor * 5.0).Floor;
      if resetMovementFrameCount >= desiredResetFrames {
        position := DefaultCameraPosition;
        resetMovementFrameCount := 0;
        resetActive := false;
        return;
      }

      // At frame 0 the source's reduction factor is desired / 0, an infinity,
      // and dividing the offset by it moves the camera by nothing.
      if resetMovementFrameCount != 0 {
        var reductionFactor := desiredResetFrames as real / resetMovementFrameCount as real;
        position := Sub(position, Vec3(positionDiff.x / reductionFactor,
                                       positionDiff.y / reductionFactor,
                                       positionDiff.z / reductionFactor));
      }

      resetMovementFrameCount := resetMovementFrameCount + 1;
    }
  }
}
