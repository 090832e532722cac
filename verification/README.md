# stickman-3D interaction core in Dafny

This project models the state behind the stickman-3D editor. Four parts are covered:

- **Scene object registry.** `ObjectTrackerService` keeps the list of tracked scene objects. `ThreeService` adds objects to the scene, guarded by their `existsInScene` flag, and de-duplicates them by their three.js group id.
- **Camera controller.** `CameraService` tracks modifier keys and the mouse button. A left-button drag pans or orbits the camera, the wheel dollies it. `reset()` starts an animation that moves the camera back to its default position by one frame per call of `updatePositionIfMoving`.
- **Stick.** A manipulable segment with one move handle and two rotate handles. A mouse-down on a handle anchors a drag on a plane facing the camera. Mouse moves then translate the stick, or rotate it about its centre or its far end.
- **Interaction dispatcher.** `InteractionService` keeps the lists of registered mouse and keyboard interactables and an enable gate. It broadcasts every browser input event to the matching list, and it normalises screen positions to device coordinates.

The model follows the code as written, including its quirks. Each quirk is stated and proved, and where the source's own names or comments suggest something else, that is named:

- **Control key-up.** Releasing Control sets `controlPressed`, as `onKeyUp` does at src/app/services/rendering/camera.service.ts:63-69. Only a mouse-up clears it.
- **Pointer y.** The comment at src/app/services/interaction/interaction.service.ts:56-57 promises normalized device coordinates from -1 to +1 for both components. The y formula on line 60 adds 1 instead of negating, so y runs from +1 at the top of the scene to +3 at the bottom (`Interaction.PointerRange`).
- **Rotations.** Both rotation handlers compute a `lengthFraction` from `stickLength` (src/app/objects/stick.ts:266 and 295), evidently to keep the stick at its length. They scale the projected end itself rather than its offset from the pivot, with these results:
  - A centre rotation keeps the length exactly when the projected end is as far from the world origin as from the centre (`Sticks.CentreRotationLength`).
  - A far-point rotation keeps it when the start is the origin (`Sticks.FarPointRotationLengthAtOrigin`), but not in general: with no pointer movement it can still move a stick and change its length (`Sticks.FarPointRotationZeroDrag`).
- **Registry duplicates.** The registry's `addObject` does no duplicate check. Only `ThreeService` de-duplicates, by group id (`objectIsTracked`).
- **Reset animation.** The reset moves nothing on its first tick, because the counter is 0 there. `desiredResetFrames` (src/app/services/rendering/camera.service.ts:196) is recomputed from the shrinking distance on every tick, so the animation can end sooner than its first value suggests (`CameraControl.ResetEndsEarly`). From `reset()` it takes at most the first desired frame count plus one ticks to reach the default position (`CameraControl.ResetArrives`).
- **Reset locks the camera.** No code calls `updatePositionIfMoving`: its only occurrence is its definition at src/app/services/rendering/camera.service.ts:181. The frame loop at src/app/services/rendering/three.service.ts:48-55 calls only `updateObjects`, and the camera service is not a tracked scene object. So once `reset()` has run (src/app/components/topbar/topbar.component.ts:105), `resetActive` stays true, and `onMouseMove` and `onWheel` stay no-ops. `CameraScenarios.ResetLocksCamera` proves that a press, a drag and a wheel step after `reset()` leave the camera where it was.
- **Broadcast.** The dispatcher hands every event to every registered interactable of the matching list. There is no routing to a grabbed or hovered object.

Numbers are modelled as follows:

- Vectors are triples of reals, and integers are unbounded.
- A Euclidean distance is a function `dist` that the caller supplies. `Geometry.IsDistance` pins it down as the non-negative square root of the squared distance.
- The spherical conversions of `coordinate-helpers.ts` are function parameters.
- The camera's world direction and the point where the pointer ray meets the drag plane are inputs.
- A call into code the model cannot see is recorded as a returned trace instead of being made: an interactable's `on*` handler, or a scene object's `update`.

Files and modules:

| file | module | source |
|---|---|---|
| geometry.dfy | `Options`, `Geometry` | three.js `Vector3` arithmetic, `computeMidpoint` |
| object_tracker.dfy | `Tracking` | src/app/services/rendering/object-tracker.service.ts |
| three_service.dfy | `Rendering` | src/app/services/rendering/three.service.ts |
| interaction_service.dfy | `Interaction` | src/app/services/interaction/interaction.service.ts |
| camera_service.dfy | `CameraControl` | src/app/services/rendering/camera.service.ts |
| stick.dfy | `Sticks` | src/app/objects/stick.ts |
| stick_scenarios.dfy | `StickScenarios` | src/app/objects/stick.ts, handlers called in event order |
| camera_scenarios.dfy | `CameraScenarios` | src/app/services/rendering/camera.service.ts, handlers called in event order |

## Model

| member | source | states |
|---|---|---|
| Tracking.SceneObject.constructor | src/app/objects/scene-object.ts:4-9 | a new scene object carries its id and group id and is not yet in the scene |
| Tracking.ObjectTrackerService.constructor | src/app/services/rendering/object-tracker.service.ts:8 | the registry starts empty |
| Tracking.ObjectTrackerService.AddObject | src/app/services/rendering/object-tracker.service.ts:10-12 | the object is appended at the end and every existing entry keeps its place |
| Tracking.AddTwiceCountsTwice | src/app/services/rendering/object-tracker.service.ts:10-12 | appending the same object twice adds two entries with its id: there is no duplicate check |
| Tracking.ObjectTrackerService.DeleteObject | src/app/services/rendering/object-tracker.service.ts:14-21 | the backward splice loop leaves exactly `Without(old list, id)`: every entry with the id is gone and the rest keep their order |
| Tracking.WithoutRemovesAll | src/app/services/rendering/object-tracker.service.ts:14-21 | after deletion no entry carries the id, and the length drops by exactly the number of matching entries |
| Tracking.WithoutKeepsOthers | src/app/services/rendering/object-tracker.service.ts:15-20 | every entry with another id survives deletion, and deletion brings in no new entry |
| Tracking.WithoutAbsent | src/app/services/rendering/object-tracker.service.ts:15-20 | deleting an id that no entry carries leaves the list unchanged |
| Tracking.WithoutKeepsOrder | src/app/services/rendering/object-tracker.service.ts:15-20 | deletion only drops entries: the survivors form a subsequence of the old list, in their old relative order |
| Tracking.ObjectTrackerService.GetObjects | src/app/services/rendering/object-tracker.service.ts:23-25 | returns the tracked list itself, in insertion order |
| Rendering.ThreeService.constructor | src/app/services/rendering/three.service.ts:26-32 | the service holds the registry it is given |
| Rendering.ThreeService.AddObjectToScene | src/app/services/rendering/three.service.ts:76-87 | an object already in the scene changes nothing; otherwise its flag becomes true and the registry gains it only when no tracked object has its group id |
| Rendering.TrackKeepsDistinct | src/app/services/rendering/three.service.ts:84-86 | adding one object keeps group ids distinct, tracks the object's group id and keeps every group id already tracked |
| Rendering.ThreeService.AddObjectsToScene | src/app/services/rendering/three.service.ts:89-93 | the registry ends as `AddAllTracked`, which adds the objects one by one in list order, and every listed object ends up in the scene |
| Rendering.AddAllKeepsDistinct | src/app/services/rendering/three.service.ts:89-93 | however many repeats the list holds, group ids stay distinct, and every object not already in the scene has its group id tracked |
| Rendering.ThreeService.ObjectIsTracked | src/app/services/rendering/three.service.ts:95-103 | true exactly when some tracked object has the same group id |
| Rendering.ThreeService.UpdateObjects | src/app/services/rendering/three.service.ts:105-109 | `update` is called once on every tracked object, in registry order, and the registry is left as it was |
| Interaction.InteractionService.constructor | src/app/services/interaction/interaction.service.ts:11-16 | both lists start empty, the scene size starts at (0, 0), and interactions are enabled |
| Interaction.InteractionService.SetSceneSize | src/app/services/interaction/interaction.service.ts:29-34 | records the element's offset width and height and changes nothing else |
| Interaction.InteractionService.AddMouseInteractable | src/app/services/interaction/interaction.service.ts:36-38 | appends to the mouse list and leaves the keyboard list, size and gate as they were |
| Interaction.InteractionService.AddKeyboardInteractable | src/app/services/interaction/interaction.service.ts:40-42 | appends to the keyboard list and leaves the mouse list, size and gate as they were |
| Interaction.InteractionService.AddInteractable | src/app/services/interaction/interaction.service.ts:44-49 | appends the same interactable to both lists |
| Interaction.InteractionService.ToggleInteractions | src/app/services/interaction/interaction.service.ts:51-53 | sets the gate and leaves both lists and the size as they were |
| Interaction.MousePositionToThreeSpace | src/app/services/interaction/interaction.service.ts:55-63 | has no value exactly when the scene width or height is zero |
| Interaction.InteractionService.PointerToThreeSpace | src/app/services/interaction/interaction.service.ts:55-63 | the normalisation for the recorded scene size has a value exactly when that size is non-zero |
| Interaction.PointerRange | src/app/services/interaction/interaction.service.ts:59-60 | x runs from -1 at the left edge to +1 at the right edge; y runs from +1 at the top to +3 at the bottom, so every point below the top edge is outside [-1, 1] |
| Interaction.PointerMonotone | src/app/services/interaction/interaction.service.ts:59-60 | both normalised coordinates grow with the screen coordinates: y is not inverted |
| Interaction.InteractionService.Dispatch | src/app/services/interaction/interaction.service.ts:77-79 | the handler loop makes exactly the calls `Broadcast` describes: one per registered entry, in list order |
| Interaction.BroadcastInOrder | src/app/services/interaction/interaction.service.ts:77-79 | the k-th handler call goes to the k-th registered interactable, with the event unchanged |
| Interaction.BroadcastCountsRegistrations | src/app/services/interaction/interaction.service.ts:36-49 | an interactable registered n times receives the event n times |
| Interaction.InteractionService.OnMouseDown | src/app/services/interaction/interaction.service.ts:72-80 | no handler calls while disabled; otherwise the mouse-down goes to the whole mouse list, in order |
| Interaction.InteractionService.OnMouseUp | src/app/services/interaction/interaction.service.ts:82-90 | no handler calls while disabled; otherwise the mouse-up goes to the whole mouse list, in order |
| Interaction.InteractionService.OnMouseMove | src/app/services/interaction/interaction.service.ts:92-100 | no handler calls while disabled; otherwise the mouse-move goes to the whole mouse list, in order |
| Interaction.InteractionService.OnKeyDown | src/app/services/interaction/interaction.service.ts:102-110 | no handler calls while disabled; otherwise the key-down goes to the whole keyboard list, in order |
| Interaction.InteractionService.OnKeyUp | src/app/services/interaction/interaction.service.ts:112-120 | no handler calls while disabled; otherwise the key-up goes to the whole keyboard list, in order |
| Interaction.InteractionService.OnWheel | src/app/services/interaction/interaction.service.ts:122-130 | no handler calls while disabled; otherwise the wheel event goes to the whole mouse list, in order |
| Interaction.DispatchRouting | src/app/services/interaction/interaction.service.ts:72-130 | for the `Handle` function that all six handlers' contracts are tied to: nothing while disabled; otherwise key events reach exactly the keyboard list and all other events exactly the mouse list, each entry once per registration, in order |
| CameraControl.PiBounds | src/app/services/rendering/camera.service.ts:110-115 | the value used for π lies in (3.14, 3.15), and the height limit lies below the floor limit, which lies below a right angle |
| CameraControl.CameraService.constructor | src/app/services/rendering/camera.service.ts:29-53 | the camera starts at (10, 10, 20) with no button or modifier down, the left button recorded, and no reset running |
| CameraControl.CameraService.OnKeyDown | src/app/services/rendering/camera.service.ts:55-61 | Shift sets `shiftPressed`, Control sets `controlPressed`, and any other key changes neither; the frame counter stays at rest while no reset runs |
| CameraControl.CameraService.OnKeyUp | src/app/services/rendering/camera.service.ts:63-69 | Shift clears `shiftPressed`; Control sets `controlPressed` rather than clearing it; the frame counter stays at rest while no reset runs |
| CameraControl.CameraService.OnMouseDown | src/app/services/rendering/camera.service.ts:71-74 | sets `mouseDown` and records the button; the frame counter stays at rest while no reset runs |
| CameraControl.CameraService.OnMouseUp | src/app/services/rendering/camera.service.ts:76-80 | clears `mouseDown`, `shiftPressed` and `controlPressed`; this is the only handler that clears `controlPressed`; the frame counter stays at rest while no reset runs |
| CameraControl.CameraService.OnMouseMove | src/app/services/rendering/camera.service.ts:82-126 | nothing moves unless the mouse is down, no reset is running and the button is Left; with Shift or Control held the camera pans; otherwise it orbits to the clamped spherical target; the frame counter stays at rest while no reset runs |
| CameraControl.PanUndo | src/app/services/rendering/camera.service.ts:88-99 | a pan by the opposite movement, with the same modifiers, returns the camera to where it was |
| CameraControl.ClampTheta | src/app/services/rendering/camera.service.ts:109-118 | the polar angle ends in [1e-3, π/2 - 0.04]; it is kept when already inside and set to the violated bound otherwise |
| CameraControl.OrbitTarget | src/app/services/rendering/camera.service.ts:101-118 | an orbit keeps the radius, turns phi by movementX · 0.02, and moves theta by movementY · 0.02 within the clamp |
| CameraControl.CameraService.OnWheel | src/app/services/rendering/camera.service.ts:128-148 | a no-op during a reset; otherwise the camera makes one `WheelStep` along its view direction; the frame counter stays at rest while no reset runs |
| CameraControl.WheelStep | src/app/services/rendering/camera.service.ts:136-147 | when the step would take the camera from z >= 0 to z < 0 it stays put; in every other case it moves by the direction, negated for a positive deltaY; so z >= 0 is never left |
| CameraControl.WheelRoundTrip | src/app/services/rendering/camera.service.ts:136-147 | one step in and one step out, with no ground stop, return the camera to where it was |
| CameraControl.CameraService.Reset | src/app/services/rendering/camera.service.ts:177-179 | starts the reset animation |
| CameraControl.DesiredResetFrames | src/app/services/rendering/camera.service.ts:196 | the desired frame count is five times the distance, rounded down |
| CameraControl.ResetTick | src/app/services/rendering/camera.service.ts:181-222 | idle when no reset runs; once the counter reaches the desired count, the camera snaps to the default and the animation ends; before that the offset from the default shrinks by counter / desired, and the counter grows by one |
| CameraControl.CameraService.UpdatePositionIfMoving | src/app/services/rendering/camera.service.ts:181-223 | one frame is exactly `ResetTick` on the camera's position, reset flag and counter, and the counter stays 0 while no reset runs |
| CameraControl.RunIdle | src/app/services/rendering/camera.service.ts:182-184 | with no reset running, any number of frames changes nothing |
| CameraControl.ResetConverges | src/app/services/rendering/camera.service.ts:181-222 | a running reset whose counter has not passed a bound on the desired count reaches exactly the default position, with the animation ended, once enough frames carry the counter past that bound |
| CameraControl.ResetArrives | src/app/services/rendering/camera.service.ts:177-222 | after `reset()`, at most the first desired frame count plus one frames bring the camera exactly to the default position and end the animation |
| CameraControl.ResetEndsEarly | src/app/services/rendering/camera.service.ts:186-197 | because the desired count is measured afresh each frame, a reset from (10.7, 10, 20) with a first desired count of 3 is home after 3 frames, sooner than that bound |
| Sticks.LocalEndsSpanLength | src/app/objects/stick.ts:44-47 | the local ends at y = ±length/2 are as far apart as the world start and end |
| Sticks.Stick.constructor | src/app/objects/stick.ts:32-113 | the length is the start-end distance; the local ends sit at ±length/2 on y; the group sits at the midpoint; the mesh ids and handles are recorded in order; nothing is selected, the controls are hidden, and far-point rotation is the mode |
| Sticks.Stick.SetRotationSetting | src/app/objects/stick.ts:115-117 | sets the rotation mode |
| Sticks.Stick.GetCurrentCenterPosition | src/app/objects/stick.ts:119-139 | the group position while moving or in centre mode; in far-point mode, the end for rotate button 0 and the start for any other button; otherwise the origin |
| Sticks.Stick.SelectRotateButton | src/app/objects/stick.ts:166-172 | the index of the first rotate button whose uuid was hit, or -1 when none was |
| Sticks.Stick.SelectHandle | src/app/objects/stick.ts:162-175 | the move button wins and clears the rotate index; otherwise the first matching rotate button or -1 is selected; the index stays in [-1, 2) |
| Sticks.Stick.CalculateIntersectingPosition | src/app/objects/stick.ts:313-325 | the plane hit replaces the last one, which is kept on a miss, and the result is that point plus the shift |
| Sticks.Stick.OnMouseDown | src/app/objects/stick.ts:141-181 | no intersection changes nothing; otherwise the drag plane, shift and handle are set and the click is anchored so that group + anchor = plane point + shift, with the invariant kept |
| Sticks.Stick.OnMouseUp | src/app/objects/stick.ts:183-189 | clears both selections, after which a mouse move moves nothing |
| Sticks.Stick.OnMouseMove | src/app/objects/stick.ts:191-222 | a move drag translates start, end and group by the pointer's displacement on the plane, keeping end - start and a centred group; a centre rotation replaces both ends and keeps the group; a far-point rotation keeps the start and re-centres the group; with nothing selected nothing moves |
| Sticks.Stick.HandleRotationAboutCentre | src/app/objects/stick.ts:258-285 | the new ends are `RotateAboutCentre` of the group position, the end, the drag and the distance to the projected end |
| Sticks.CentreRotationShape | src/app/objects/stick.ts:262-276 | the new ends are centred on the scaled centre, not on the centre, and lie along the projected end, twice the fraction apart |
| Sticks.CentreRotationLength | src/app/objects/stick.ts:262-276 | a centre rotation keeps the stick's length exactly when the length is zero or the projected end is as far from the world origin as from the centre, for example when the centre is the origin |
| Sticks.Stick.HandleRotationAboutOppositeRotationPoint | src/app/objects/stick.ts:287-311 | the start stays fixed, the new end is `RotateAboutFarPoint`, and the group moves to the new midpoint |
| Sticks.FarPointRotationLengthAtOrigin | src/app/objects/stick.ts:291-300 | a far-point rotation keeps the stick's length when the start is the world origin |
| Sticks.FarPointRotationZeroDrag | src/app/objects/stick.ts:291-300 | a counterexample to length keeping away from the origin: a unit stick from (1,0,0) to (2,0,0), dragged by nothing, gets its end moved to (3,0,0), doubling its length |
| Sticks.Stick.UpdateButtonScale | src/app/objects/stick.ts:327-333 | the move button and every rotate button take the given scale |
| Sticks.Stick.ShowMouseControls | src/app/objects/stick.ts:233-247 | the handles grow to 11 times their initial scale; a second call changes nothing, so the scale never compounds |
| Sticks.Stick.HideMouseControls | src/app/objects/stick.ts:249-256 | the handles return to their initial scale; a second call changes nothing |
| StickScenarios.GrabMoveHandle | src/app/objects/stick.ts:141-181 | a new stick whose move handle is pressed at its centre is valid, moving, and anchored at the centre |
| StickScenarios.DragByMoveHandle | src/app/objects/stick.ts:191-206 | dragging the move handle from the centre to a target puts the stick's centre on the target and keeps end - start |
| CameraScenarios.ResetLocksCamera | src/app/services/rendering/camera.service.ts:82-131 | after `reset()`, a mouse press, a drag and a wheel step leave the camera's position unchanged, and the reset stays pending |

## Left out

- Rendering plumbing: renderer creation, the animation loop and the resize handler of `createThreeJsBox`; mesh, geometry and material construction; `scene.add`; `group.remove()` in `deleteObject`. These are three.js calls with no state the model tracks.
- Camera orientation: `lookAt`, `getWorldDirection`, `rescale` and the group quaternion of a stick. The camera direction is an input of `CameraService.OnWheel` and `Stick.OnMouseDown`, and no orientation is kept.
- Square roots and trigonometry: the distance is the parameter `dist`, constrained by `IsDistance`, and the spherical conversions are function parameters with no properties assumed.
- Ray casting: `raycaster`, `getSceneIntersections` and `Ray.intersectPlane`. The plane hit is an `Option` input; on a miss the last hit is kept, as three.js leaves its target untouched.
- Picking is not wired up: the dispatcher calls the handlers with the event only. The intersection that the `Stick` handlers take is therefore an input of `Stick.OnMouseDown`, not something the dispatcher supplies.
- The camera direction and the ray–plane hit of the `Stick` handlers. Stick calls `interactionService.getCameraWorldDirection()` (src/app/objects/stick.ts:149) and uses `interactionService.raycaster` (src/app/objects/stick.ts:314). `InteractionService` has `raycaster` only as a private field, and `getCameraWorldDirection` exists only on `CameraService`. Both results are inputs here.
- Browser event wiring (`window.addEventListener`) and the Angular UI components.
- `Stick.onWheel`, which only throws "not implemented", and `Stick.update`, which does nothing.
- The superseded copies of the scene and registry services, the render-only scene objects, and the arc-fit helpers used only by the bendable stick.
- Interaction handler calls: a call into an interactable's `on*` handler, or into a scene object's `update`, is recorded as a returned trace. What those handlers do is not part of this model.
- Sticks.Stick.OnMouseMove, Sticks.Stick.HandleRotationAboutCentre and Sticks.Stick.HandleRotationAboutOppositeRotationPoint: each requires a non-zero distance from the pivot to the projected end. At zero the source divides by zero and writes non-finite coordinates, which reals cannot represent.
- Interaction.MousePositionToThreeSpace: a zero scene size gives non-finite numbers in the source; here it gives `None`.
- CameraControl.ResetTick: at counter 0 the source divides by an infinite reduction factor and moves by zero; the model moves by zero without the division.
- Aliasing of vectors: the source's `startPosition` and `endPosition` are the vector objects passed to the constructor and are updated in place with `add`. Here they are values, so a caller holding those vectors does not see them change.
- Floating point: all arithmetic is exact over the reals, and `Math.PI` is its decimal literal.
- Tracking.ObjectTrackerService.DeleteObject: compares ids as strings, standing for `Guid.equals`. The registry imports an `ISceneObject` (src/app/interfaces/scene-object.ts) that declares no `id`; the model uses the `id` of the identically named interface in src/app/objects/scene-object.ts. The three.js `group` of a scene object is reduced to its numeric id. The source's `.id.equals(...)` would throw on the string ids (`group.uuid`) that Stick, Floor, Light and Grid carry; no code calls `deleteObject`.
