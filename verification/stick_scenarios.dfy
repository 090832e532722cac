/**
  Drags on a stick as the editor performs them: the handlers of `Sticks.Stick`
  called in the order the browser events arrive.
*/
module StickScenarios {
  import opened Options
  import opened Geometry
  import opened Sticks

  /** A new stick from `startPosition` to `endPosition` whose move handle was just pressed at its centre. */
  method GrabMoveHandle(dist: (Vec3, Vec3) -> real, startPosition: Vec3, endPosition: Vec3) returns (stick: Stick)
    requires IsDistance(dist)
    ensures fresh(stick) && stick.Valid() && stick.moveButtonSelected
    ensures stick.planeIntersect == Midpoint(startPosition, endPosition)
    ensures stick.startPosition == startPosition && stick.endPosition == endPosition
  {
    stick := new Stick("group", 1.0, startPosition, endPosition,
                       "body", "top", "bottom", "move", "rotate-start", "rotate-end", dist);
    var centre := Midpoint(startPosition, endPosition);
    stick.OnMouseDown(Some(Intersection(centre, "move", Zero)), Vec3(0.0, 0.0, -1.0), Some(centre));
  }

  /**
    Grabbing the move handle at the stick's centre and dragging the pointer to
    `target` on the drag plane carries the stick along: its centre ends at the
    target, and its ends keep their offset from each other.
  */
  method DragByMoveHandle(dist: (Vec3, Vec3) -> real, startPosition: Vec3, endPosition: Vec3, target: Vec3)
    returns (newStart: Vec3, newEnd: Vec3)
    requires IsDistance(dist)
    ensures Midpoint(newStart, newEnd) == target
    ensures Sub(newEnd, newStart) == Sub(endPosition, startPosition)
    ensures newStart == Add(startPosition, Sub(target, Midpoint(startPosition, endPosition)))
  {
    var stick := GrabMoveHandle(dist, startPosition, endPosition);
    stick.OnMouseMove(Some(target), dist);
    newStart, newEnd := stick.startPosition, stick.endPosition;
  }
}
