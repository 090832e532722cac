/**
  `objects/stick.ts`: the manipulable stick.  A stick is a capsule between a
  start and an end position, with a move handle at its centre and one rotate
  handle at each end.  A mouse-down on a handle anchors a drag on the plane
  through the hit point facing the camera; mouse moves then translate the
  stick or rotate it about its centre or its far end.

  The three.js meshes are reduced to their uuids and scales, the group to its
  position (its orientation quaternion is not modelled).  The ray-plane hit of
  the shared raycaster and the camera's world direction are inputs of the
  handlers; the Euclidean distance is a function value `dist` pinned down by
  `IsDistance`.
*/
module Sticks {
  import opened Options
  import opened Geometry

  type MeshId = string

  /** Which point a rotate-handle drag turns the stick about. */
  datatype RotationSetting = AroundCenter | AroundFarRotationPoint

  /** A ray hit: the point, and the uuid and (local) position of the mesh hit. */
  datatype Intersection = Intersection(point: Vec3, objectUuid: MeshId, objectPosition: Vec3)

  /** A three.js mesh starts with unit scale; the handles keep that scale until shown. */
  const InitialControlButtonScale: Vec3 := Vec3(1.0, 1.0, 1.0)
  /** How much the handles grow while the mouse controls are shown. */
  const ControlButtonScaleFactor: real := 11.0

  /** The handle scale for the shown or hidden state: never anything compounded. */
  function ButtonScale(shown: bool): Vec3 {
    if shown then Scale(InitialControlButtonScale, ControlButtonScaleFactor) else InitialControlButtonScale
  }

  /** `i` is the first index of `x` in `s`, or -1 when `x` does not occur in `s`. */
  predicate IsFirstIndex(s: seq<MeshId>, x: MeshId, i: int) {
    (i == -1 && x !in s) || (0 <= i < |s| && s[i] == x && x !in s[..i])
  }

  /**
    The factor both centre-rotation endpoints are scaled by: the stick length
    over twice the signed distance from the centre to the projected end.
  */
  function CentreFraction(stickLength: real, sign: real, projectedDistance: real): real
    requires projectedDistance != 0.0 && (sign == 1.0 || sign == -1.0)
  {
    stickLength / (2.0 * (sign * projectedDistance))
  }

  /** The factor of the far-point rotation: the stick length over the signed distance. */
  function FarFraction(stickLength: real, sign: real, projectedDistance: real): real
    requires projectedDistance != 0.0 && (sign == 1.0 || sign == -1.0)
  {
    stickLength / (sign * projectedDistance)
  }

  /**
    `handleRotationAboutCentre`: the new start and end positions, as written:
    centre - projected end and centre + projected end, both scaled by
    `CentreFraction`, where the projected end is the end moved by the drag.
  */
  function RotateAboutCentre(centre: Vec3, endPosition: Vec3, vectorMoved: Vec3, sign: real,
                             stickLength: real, projectedDistance: real): (Vec3, Vec3)
    requires sign == 1.0 || sign == -1.0
    requires projectedDistance != 0.0
  {
    var projectedEndPosition := Add(endPosition, vectorMoved);
    var lengthFraction := CentreFraction(stickLength, sign, projectedDistance);
    (Scale(Sub(centre, projectedEndPosition), lengthFraction),
     Scale(Add(centre, projectedEndPosition), lengthFraction))
  }

  /**
    The new endpoints of a centre rotation are centred on the scaled centre, not
    on the centre, and lie along the projected end, twice the fraction apart.
  */
  lemma CentreRotationShape(centre: Vec3, endPosition: Vec3, vectorMoved: Vec3, sign: real,
                            stickLength: real, projectedDistance: real)
    requires sign == 1.0 || sign == -1.0
    requires projectedDistance != 0.0
    ensures var r := RotateAboutCentre(centre, endPosition, vectorMoved, sign, stickLength, projectedDistance);
            var f := CentreFraction(stickLength, sign, projectedDistance);
            && Midpoint(r.0, r.1) == Scale(centre, f)
            && Sub(r.1, r.0) == Scale(Add(endPosition, vectorMoved), 2.0 * f)
  {
    var p := Add(endPosition, vectorMoved);
    var f := CentreFraction(stickLength, sign, projectedDistance);
    ScaledSumAndDifference(centre.x, p.x, f);
    ScaledSumAndDifference(centre.y, p.y, f);
    ScaledSumAndDifference(centre.z, p.z, f);
  }

  /** (c - p) f and (c + p) f average to c f and differ by 2 p f. */
  lemma ScaledSumAndDifference(c: real, p: real, f: real)
    ensures ((c - p) * f + (c + p) * f) / 2.0 == c * f
    ensures (c + p) * f - (c - p) * f == p * (2.0 * f)
  {
  }

  /**
    `handleRotationAboutOppositeRotationPoint`: the new end position, as written:
    start + projected end, scaled by `FarFraction`.
  */
  function RotateAboutFarPoint(startPosition: Vec3, endPosition: Vec3, vectorMoved: Vec3, sign: real,
                               stickLength: real, projectedDistance: real): Vec3
    requires sign == 1.0 || sign == -1.0
    requires projectedDistance != 0.0
  {
    var projectedEndPosition := Add(endPosition, vectorMoved);
    Scale(Add(startPosition, projectedEndPosition), FarFraction(stickLength, sign, projectedDistance))
  }

  /** A factor g with g * (sign * d) == L turns a squared distance d * d into L * L. */
  lemma FractionSquare(stickLength: real, sign: real, projectedDistance: real, g: real)
    requires sign == 1.0 || sign == -1.0
    requires g * (sign * projectedDistance) == stickLength
    ensures g * g * (projectedDistance * projectedDistance) == stickLength * stickLength
  {
    var sd := sign * projectedDistance;
    assert sd * sd == projectedDistance * projectedDistance;
    calc {
      stickLength * stickLength;
      (g * sd) * (g * sd);
      g * g * (sd * sd);
    }
  }

  /**
    With g * sd == len for a non-zero sd: a squared length g * g * a equals
    len * len exactly when len is zero or a equals b, where len * len == g * g * b.
  */
  lemma ScaledSquareMatches(len: real, g: real, sd: real, a: real, b: real)
    requires sd != 0.0
    requires g * sd == len
    requires len * len == g * g * b
    ensures g * g * a == len * len <==> (len == 0.0 || a == b)
  {
    if len == 0.0 {
      assert g == 0.0;
    } else {
      assert g * g != 0.0;
      if g * g * a == g * g * b {
        assert g * g * (a - b) == 0.0;
      }
    }
  }

  /**
    The centre rotation keeps the stick's length exactly when the projected end
    is as far from the world origin as from the centre (or the length is zero):
    the formula scales the projected end itself, not its offset from the centre.
    A centre at the origin is the simplest case where the length is kept.
  */
  lemma CentreRotationLength(centre: Vec3, endPosition: Vec3, vectorMoved: Vec3, sign: real,
                             stickLength: real, projectedDistance: real)
    requires sign == 1.0 || sign == -1.0
    requires projectedDistance > 0.0
    requires projectedDistance * projectedDistance == DistSq(centre, Add(endPosition, vectorMoved))
    ensures var r := RotateAboutCentre(centre, endPosition, vectorMoved, sign, stickLength, projectedDistance);
            var p := Add(endPosition, vectorMoved);
            DistSq(r.0, r.1) == stickLength * stickLength <==>
            (stickLength == 0.0 || DistSq(Zero, p) == DistSq(centre, p))
  {
    var r := RotateAboutCentre(centre, endPosition, vectorMoved, sign, stickLength, projectedDistance);
    var p := Add(endPosition, vectorMoved);
    CentreRotationShape(centre, endPosition, vectorMoved, sign, stickLength, projectedDistance);
    var f := CentreFraction(stickLength, sign, projectedDistance);
    var g := 2.0 * f;
    assert g * (sign * projectedDistance) == stickLength by {
      assert f * (2.0 * (sign * projectedDistance)) == stickLength;
    }
    DistSqOfOffset(r.0, r.1, p, g);
    FractionSquare(stickLength, sign, projectedDistance, g);
    ScaledSquareMatches(stickLength, g, sign * projectedDistance, DistSq(Zero, p), DistSq(centre, p));
  }

  /**
    With the start at the world origin the far-point rotation keeps the stick's
    length; elsewhere it need not (see `FarPointRotationZeroDrag`).
  */
  lemma FarPointRotationLengthAtOrigin(endPosition: Vec3, vectorMoved: Vec3, sign: real,
                                       stickLength: real, projectedDistance: real)
    requires sign == 1.0 || sign == -1.0
    requires projectedDistance > 0.0
    requires projectedDistance * projectedDistance == DistSq(Zero, Add(endPosition, vectorMoved))
    ensures DistSq(Zero, RotateAboutFarPoint(Zero, endPosition, vectorMoved, sign, stickLength, projectedDistance))
            == stickLength * stickLength
  {
    var e := RotateAboutFarPoint(Zero, endPosition, vectorMoved, sign, stickLength, projectedDistance);
    var g := FarFraction(stickLength, sign, projectedDistance);
    assert g * (sign * projectedDistance) == stickLength;
    assert Add(Zero, Add(endPosition, vectorMoved)) == Add(endPosition, vectorMoved);
    DistSqOfOffset(Zero, e, Add(endPosition, vectorMoved), g);
    FractionSquare(stickLength, sign, projectedDistance, g);
  }

  lemma UnitFraction()
    ensures FarFraction(1.0, 1.0, 1.0) == 1.0
  {
  }

  /**
    Away from the origin the far-point rotation can move the stick and change
    its length even when the pointer does not move: a unit stick from (1,0,0)
    to (2,0,0), dragged by nothing, gets its end at (3,0,0) and length 2.
  */
  lemma FarPointRotationZeroDrag()
    ensures RotateAboutFarPoint(Vec3(1.0, 0.0, 0.0), Vec3(2.0, 0.0, 0.0), Zero, 1.0, 1.0,
                                1.0) == Vec3(3.0, 0.0, 0.0)
  {
    UnitFraction();
  }

  /**
    The local ends the constructor lays along the group's y axis, half the
    start-end distance either side of the origin, are as far apart as the world
    start and end: the group only has to be placed and turned.
  */
  lemma LocalEndsSpanLength(dist: (Vec3, Vec3) -> real, startPosition: Vec3, endPosition: Vec3)
    requires IsDistance(dist)
    ensures var length := dist(startPosition, endPosition);
            DistSq(Vec3(0.0, -length / 2.0, 0.0), Vec3(0.0, length / 2.0, 0.0)) == DistSq(startPosition, endPosition)
  {
    var length := dist(startPosition, endPosition);
    assert DistSq(Vec3(0.0, -length / 2.0, 0.0), Vec3(0.0, length / 2.0, 0.0)) == length * length;
  }

  class Stick {
    /** The group's uuid, which is the stick's id. */
    const id: string
    const stickRadius: real
    /** The distance from start to end at construction; never reassigned. */
    const stickLength: real
    /** The ends of the stick in the group's own frame, along its y axis. */
    const localStartPosition: Vec3
    const localEndPosition: Vec3
    const moveButton: MeshId
    /** Rotate button 0 sits on the start, rotate button 1 on the end. */
    const rotateButtons: seq<MeshId>
    /** The uuids of body, top cap, bottom cap, move button and the rotate buttons. */
    const meshIds: seq<MeshId>

    var startPosition: Vec3
    var endPosition: Vec3
    var groupPosition: Vec3

    var mouseControlsShown: bool
    var moveButtonScale: Vec3
    var rotateButtonScales: seq<Vec3>

    var moveButtonSelected: bool
    var rotateButtonSelectedIndex: int
    var rotationSetting: RotationSetting

    /** The drag plane, by its normal and a point on it. */
    var planeNormal: Vec3
    var planePoint: Vec3
    /** The last point where the ray met the drag plane. */
    var planeIntersect: Vec3
    var pIntersect: Vec3
    /** From the hit point to the hit mesh's position. */
    var shift: Vec3
    var initialClickToCentre: Vec3
    var initialClickPosition: Vec3
    var cameraDirection: Vec3

    /**
      The stick's invariant: two rotate buttons; at most one handle selected, the
      rotate index within [-1, number of rotate buttons); every handle at the scale
      of the shown or hidden state; and during a move drag the group stays anchored
      to the pointer's point on the drag plane.
    */
    ghost predicate Valid()
      reads this
    {
      && |rotateButtons| == 2
      && -1 <= rotateButtonSelectedIndex < |rotateButtons|
      && (moveButtonSelected ==> rotateButtonSelectedIndex == -1)
      && |rotateButtonScales| == |rotateButtons|
      && moveButtonScale == ButtonScale(mouseControlsShown)
      && (forall k :: 0 <= k < |rotateButtonScales| ==> rotateButtonScales[k] == ButtonScale(mouseControlsShown))
      && (moveButtonSelected ==> Add(groupPosition, initialClickToCentre) == Add(planeIntersect, shift))
    }

    /** The world position of the end that rotate button `i` sits on. */
    ghost function EndpointOf(i: int): Vec3
      reads this
    {
      if i == 0 then startPosition else endPosition
    }

    constructor (groupUuid: string, stickRadius: real, startPosition: Vec3, endPosition: Vec3,
                 bodyUuid: MeshId, topCapUuid: MeshId, bottomCapUuid: MeshId,
                 moveButtonUuid: MeshId, startButtonUuid: MeshId, endButtonUuid: MeshId,
                 dist: (Vec3, Vec3) -> real)
      requires IsDistance(dist)
      ensures Valid()
      ensures id == groupUuid && this.stickRadius == stickRadius
      ensures stickLength == dist(startPosition, endPosition)
      ensures localStartPosition == Vec3(0.0, -stickLength / 2.0, 0.0)
      ensures localEndPosition == Vec3(0.0, stickLength / 2.0, 0.0)
      ensures this.startPosition == startPosition && this.endPosition == endPosition
      ensures groupPosition == Midpoint(startPosition, endPosition)
      ensures moveButton == moveButtonUuid && rotateButtons == [startButtonUuid, endButtonUuid]
      ensures meshIds == [bodyUuid, topCapUuid, bottomCapUuid, moveButtonUuid, startButtonUuid, endButtonUuid]
      ensures !mouseControlsShown && !moveButtonSelected && rotateButtonSelectedIndex == -1
      ensures rotationSetting == AroundFarRotationPoint
    {
      id := groupUuid;
      this.stickRadius := stickRadius;
      var length := dist(startPosition, endPosition);
      stickLength := length;
      localStartPosition := Vec3(0.0, -length / 2.0, 0.0);
      localEndPosition := Vec3(0.0, length / 2.0, 0.0);
      moveButton := moveButtonUuid;
      rotateButtons := [startButtonUuid, endButtonUuid];
      meshIds := [bodyUuid, topCapUuid, bottomCapUuid, moveButtonUuid] + [startButtonUuid, endButtonUuid];
      this.startPosition := startPosition;
      this.endPosition := endPosition;
      groupPosition := Midpoint(startPosition, endPosition);
      mouseControlsShown := false;
      moveButtonScale := InitialControlButtonScale;
      rotateButtonScales := [InitialControlButtonScale, InitialControlButtonScale];
      moveButtonSelected := false;
      rotateButtonSelectedIndex := -1;
      rotationSetting := AroundFarRotationPoint;
      planeNormal, planePoint, planeIntersect, pIntersect := Zero, Zero, Zero, Zero;
      shift, initialClickToCentre, initialClickPosition, cameraDirection := Zero, Zero, Zero, Zero;
    }

    method SetRotationSetting(setting: RotationSetting)
      requires Valid()
      modifies this`rotationSetting
      ensures Valid() && rotationSetting == setting
    {
      rotationSetting := setting;
    }

    /**
      The point the stick currently turns about: the group position while moving
      or in centre mode; in far-point mode with a rotate button held, the end
      opposite that button; otherwise the origin.
    */
    function GetCurrentCenterPosition(): (r: Vec3)
      requires Valid()
      reads this
      ensures moveButtonSelected || rotationSetting == AroundCenter ==> r == groupPosition
      ensures !moveButtonSelected && rotationSetting == AroundFarRotationPoint && rotateButtonSelectedIndex >= 0 ==>
        r == EndpointOf(1 - rotateButtonSelectedIndex)
      ensures !moveButtonSelected && rotationSetting == AroundFarRotationPoint && rotateButtonSelectedIndex == -1 ==>
        r == Zero
    {
      if moveButtonSelected || rotationSetting == AroundCenter then groupPosition
      else if rotationSetting == AroundFarRotationPoint && rotateButtonSelectedIndex > -1 then
        if rotateButtonSelectedIndex == 0 then endPosition else startPosition
      else Zero
    }

    /** The search over the rotate buttons for the mesh that was hit. */
    method SelectRotateButton(uuid: MeshId) returns (index: int)
      ensures IsFirstIndex(rotateButtons, uuid, index)
    {
      index := -1;
      for i := 0 to |rotateButtons|
        invariant uuid !in rotateButtons[..i]
      {
        if rotateButtons[i] == uuid {
          assert rotateButtons[..i + 1][..i] == rotateButtons[..i];
          index := i;
          return;
        }
        assert rotateButtons[..i + 1] == rotateButtons[..i] + [rotateButtons[i]];
      }
      assert rotateButtons[..|rotateButtons|] == rotateButtons;
    }

    /**
      The handle a hit selects: the move button, else the first rotate button with
      the hit mesh's uuid, else none.
    */
    method SelectHandle(uuid: MeshId)
      requires |rotateButtons| == 2
      modifies this`moveButtonSelected, this`rotateButtonSelectedIndex
      ensures -1 <= rotateButtonSelectedIndex < |rotateButtons|
      ensures moveButtonSelected == (uuid == moveButton)
      ensures moveButtonSelected ==> rotateButtonSelectedIndex == -1
      ensures !moveButtonSelected ==> IsFirstIndex(rotateButtons, uuid, rotateButtonSelectedIndex)
    {
      if uuid == moveButton {
        moveButtonSelected := true;
        rotateButtonSelectedIndex := -1;
      } else {
        rotateButtonSelectedIndex := SelectRotateButton(uuid);
        moveButtonSelected := false;
      }
    }

    /**
      `calculateIntersectingPosition`: where the ray meets the drag plane (the last
      such point when it misses), plus the shift to the grabbed mesh.
    */
    method CalculateIntersectingPosition(planeHit: Option<Vec3>) returns (position: Vec3)
      modifies this`planeIntersect
      ensures planeIntersect == if planeHit.Some? then planeHit.value else old(planeIntersect)
      ensures position == Add(planeIntersect, shift)
    {
      if planeHit.Some? {
        planeIntersect := planeHit.value;
      }
      position := Add(planeIntersect, shift);
    }

    /**
      Without an intersection nothing happens.  Otherwise the drag plane is set
      through the hit point facing the camera, the handle is selected (the move
      button, else the first rotate button with the hit uuid, else none), and
      the click is anchored relative to the group position.
    */
    method OnMouseDown(intersection: Option<Intersection>, cameraWorldDirection: Vec3, planeHit: Option<Vec3>)
      requires Valid()
      modifies this`cameraDirection, this`pIntersect, this`planeNormal, this`planePoint, this`shift
      modifies this`moveButtonSelected, this`rotateButtonSelectedIndex
      modifies this`planeIntersect, this`initialClickPosition, this`initialClickToCentre
      ensures Valid()
      ensures intersection.None? ==> unchanged(this)
      ensures intersection.Some? ==>
        var hit := intersection.value;
        && cameraDirection == cameraWorldDirection
        && pIntersect == hit.point && planeNormal == cameraWorldDirection && planePoint == hit.point
        && shift == Sub(hit.objectPosition, hit.point)
        && moveButtonSelected == (hit.objectUuid == moveButton)
        && (!moveButtonSelected ==> IsFirstIndex(rotateButtons, hit.objectUuid, rotateButtonSelectedIndex))
        && planeIntersect == (if planeHit.Some? then planeHit.value else old(planeIntersect))
        && initialClickPosition == Add(planeIntersect, shift)
        && initialClickToCentre == Sub(initialClickPosition, groupPosition)
    {
      if intersection.None? {
        return;
      }
      var hit := intersection.value;

      cameraDirection := cameraWorldDirection;
      pIntersect := hit.point;
      planeNormal, planePoint := cameraDirection, pIntersect;
      shift := Sub(hit.objectPosition, hit.point);

      SelectHandle(hit.objectUuid);

      initialClickPosition := CalculateIntersectingPosition(planeHit);
      initialClickToCentre := Sub(initialClickPosition, groupPosition);
      assert Add(groupPosition, initialClickToCentre) == initialClickPosition;
    }

    method OnMouseUp()
      requires Valid()
      modifies this`moveButtonSelected, this`rotateButtonSelectedIndex
      ensures Valid()
      ensures !moveButtonSelected && rotateButtonSelectedIndex == -1
    {
      moveButtonSelected := false;
      rotateButtonSelectedIndex := -1;
    }

    /** The drag vector a mouse move with this plane hit produces. */
    ghost function DragVector(planeHit: Option<Vec3>): Vec3
      reads this
    {
      var hit := if planeHit.Some? then planeHit.value else planeIntersect;
      Sub(Sub(Add(hit, shift), initialClickToCentre), groupPosition)
    }

    /** A rotate drag divides by the distance from its pivot to the projected end. */
    ghost predicate RotationDefined(planeHit: Option<Vec3>)
      reads this
    {
      !moveButtonSelected && rotateButtonSelectedIndex > -1 ==>
        var projectedEnd := Add(endPosition, DragVector(planeHit));
        (rotationSetting == AroundCenter ==> DistSq(groupPosition, projectedEnd) != 0.0) &&
        (rotationSetting == AroundFarRotationPoint ==> DistSq(startPosition, projectedEnd) != 0.0)
    }

    /**
      A move drag translates start, end and group by one vector, the pointer's
      displacement on the drag plane since the last event, so the stick keeps its
      direction and length vector and its group stays at its centre.  A rotate drag
      about the centre replaces both ends and keeps the group; about the far point
      it keeps the start, replaces the end and re-centres the group.  With no
      handle selected nothing moves.
    */
    method OnMouseMove(planeHit: Option<Vec3>, dist: (Vec3, Vec3) -> real)
      requires Valid() && IsDistance(dist) && RotationDefined(planeHit)
      modifies this`planeIntersect, this`startPosition, this`endPosition, this`groupPosition
      ensures Valid()
      ensures planeIntersect == if planeHit.Some? then planeHit.value else old(planeIntersect)
      ensures moveButtonSelected ==>
        var moved := Sub(planeIntersect, old(planeIntersect));
        && startPosition == Add(old(startPosition), moved)
        && endPosition == Add(old(endPosition), moved)
        && groupPosition == Add(old(groupPosition), moved)
        && Sub(endPosition, startPosition) == Sub(old(endPosition), old(startPosition))
        && (old(groupPosition) == Midpoint(old(startPosition), old(endPosition)) ==>
              groupPosition == Midpoint(startPosition, endPosition))
      ensures !moveButtonSelected && rotateButtonSelectedIndex > -1 && rotationSetting == AroundCenter ==>
        var sign := if rotateButtonSelectedIndex == 0 then -1.0 else 1.0;
        var projectedEnd := Add(old(endPosition), old(DragVector(planeHit)));
        && (startPosition, endPosition) ==
           RotateAboutCentre(old(groupPosition), old(endPosition), old(DragVector(planeHit)), sign,
                             stickLength, dist(old(groupPosition), projectedEnd))
        && groupPosition == old(groupPosition)
      ensures !moveButtonSelected && rotateButtonSelectedIndex > -1 && rotationSetting == AroundFarRotationPoint ==>
        var sign := if rotateButtonSelectedIndex == 0 then -1.0 else 1.0;
        var projectedEnd := Add(old(endPosition), old(DragVector(planeHit)));
        && startPosition == old(startPosition)
        && endPosition ==
           RotateAboutFarPoint(old(startPosition), old(endPosition), old(DragVector(planeHit)), sign,
                               stickLength, dist(old(startPosition), projectedEnd))
        && groupPosition == Midpoint(startPosition, endPosition)
      ensures !moveButtonSelected && rotateButtonSelectedIndex == -1 ==>
        startPosition == old(startPosition) && endPosition == old(endPosition) && groupPosition == old(groupPosition)
    {
      ghost var vector := DragVector(planeHit);
      var newPosition := CalculateIntersectingPosition(planeHit);
      var offsetPosition := Sub(newPosition, initialClickToCentre);
      var vectorMoved := Sub(offsetPosition, groupPosition);
      assert vectorMoved == vector;
      if moveButtonSelected {
        startPosition := Add(startPosition, vectorMoved);
        endPosition := Add(endPosition, vectorMoved);
        groupPosition := offsetPosition;
      } else if rotateButtonSelectedIndex > -1 {
        var sign := if rotateButtonSelectedIndex == 0 then -1.0 else 1.0;
        if rotationSetting == AroundCenter {
          HandleRotationAboutCentre(vectorMoved, sign, dist);
        } else if rotationSetting == AroundFarRotationPoint {
          HandleRotationAboutOppositeRotationPoint(vectorMoved, sign, dist);
        }
      }
    }

    method HandleRotationAboutCentre(vectorMoved: Vec3, sign: real, dist: (Vec3, Vec3) -> real)
      requires IsDistance(dist) && (sign == 1.0 || sign == -1.0)
      requires DistSq(groupPosition, Add(endPosition, vectorMoved)) != 0.0
      modifies this`startPosition, this`endPosition
      ensures (startPosition, endPosition) ==
        RotateAboutCentre(groupPosition, old(endPosition), vectorMoved, sign, stickLength,
                          dist(groupPosition, Add(old(endPosition), vectorMoved)))
    {
      var projectedEndPosition := Add(endPosition, vectorMoved);
      var distance := dist(groupPosition, projectedEndPosition);
      assert distance * distance != 0.0;
      var lengthFraction := CentreFraction(stickLength, sign, distance);
      endPosition := Scale(Add(groupPosition, projectedEndPosition), lengthFraction);
      startPosition := Scale(Sub(groupPosition, projectedEndPosition), lengthFraction);
    }

    method HandleRotationAboutOppositeRotationPoint(vectorMoved: Vec3, sign: real, dist: (Vec3, Vec3) -> real)
      requires IsDistance(dist) && (sign == 1.0 || sign == -1.0)
      requires DistSq(startPosition, Add(endPosition, vectorMoved)) != 0.0
      modifies this`endPosition, this`groupPosition
      ensures endPosition ==
        RotateAboutFarPoint(startPosition, old(endPosition), vectorMoved, sign, stickLength,
                            dist(startPosition, Add(old(endPosition), vectorMoved)))
      ensures groupPosition == Midpoint(startPosition, endPosition)
    {
      var projectedEndPosition := Add(endPosition, vectorMoved);
      var distance := dist(startPosition, projectedEndPosition);
      assert distance * distance != 0.0;
      var lengthFraction := FarFraction(stickLength, sign, distance);
      endPosition := Scale(Add(startPosition, projectedEndPosition), lengthFraction);
      groupPosition := Midpoint(startPosition, endPosition);
    }

    /** Sets the scale of the move button and of every rotate button. */
    method UpdateButtonScale(scale: Vec3)
      requires |rotateButtonScales| == |rotateButtons|
      modifies this`moveButtonScale, this`rotateButtonScales
      ensures moveButtonScale == scale
      ensures |rotateButtonScales| == |rotateButtons|
      ensures forall k :: 0 <= k < |rotateButtonScales| ==> rotateButtonScales[k] == scale
    {
      moveButtonScale := scale;
      for i := 0 to |rotateButtons|
        invariant moveButtonScale == scale
        invariant |rotateButtonScales| == |rotateButtons|
        invariant forall k :: 0 <= k < i ==> rotateButtonScales[k] == scale
      {
        rotateButtonScales := rotateButtonScales[i := scale];
      }
    }

    /** Grows the handles to eleven times their initial scale; a second call changes nothing. */
    method ShowMouseControls()
      requires Valid()
      modifies this`mouseControlsShown, this`moveButtonScale, this`rotateButtonScales
      ensures Valid() && mouseControlsShown
      ensures moveButtonScale == Scale(InitialControlButtonScale, ControlButtonScaleFactor)
      ensures old(mouseControlsShown) ==> unchanged(this)
    {
      if mouseControlsShown {
        return;
      }
      var updatedScale := Scale(InitialControlButtonScale, ControlButtonScaleFactor);
      UpdateButtonScale(updatedScale);
      mouseControlsShown := true;
    }

    /** Brings the handles back to their initial scale; a second call changes nothing. */
    method HideMouseControls()
      requires Valid()
      modifies this`mouseControlsShown, this`moveButtonScale, this`rotateButtonScales
      ensures Valid() && !mouseControlsShown
      ensures moveButtonScale == InitialControlButtonScale
      ensures !old(mouseControlsShown) ==> unchanged(this)
    {
      if !mouseControlsShown {
        return;
      }
      UpdateButtonScale(InitialControlButtonScale);
      mouseControlsShown := false;
    }
  }
}
