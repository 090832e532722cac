/**
  The camera controller's handlers called in the order a user's input produces
  them.  No code of the editor calls `updatePositionIfMoving`, and the render
  loop of `three.service.ts` advances only the tracked scene objects, so once
  `reset()` has run nothing ends the reset animation.
*/
module CameraScenarios {
  import opened Geometry
  import opened Interaction
  import opened CameraControl

  /**
    After `reset()`, a press, a drag and a wheel step leave the camera where it
    was: every movement handler is a no-op while the reset is pending, and only
    `UpdatePositionIfMoving` would clear it.
  */
  method ResetLocksCamera(camera: CameraService, press: MouseEvent, drag: MouseEvent, wheel: WheelEvent,
                          direction: Vec3, toSpherical: Vec3 -> Spherical, toCartesian: Spherical -> Vec3)
    requires camera.Valid()
    modifies camera
    ensures camera.Valid() && camera.resetActive
    ensures camera.position == old(camera.position)
  {
    camera.Reset();
    camera.OnMouseDown(press);
    camera.OnMouseMove(drag, toSpherical, toCartesian);
    camera.OnWheel(wheel, direction);
  }
}
