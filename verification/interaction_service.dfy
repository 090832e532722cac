/**
  `interaction/interaction.service.ts`: the registration lists of mouse and
  keyboard interactables, the global enable gate, and the broadcast of every
  browser input event to the registered interactables.  What an interactable
  does with an event is its own code; here a handler call is recorded as a
  `Delivery`, and each dispatch method returns the deliveries it makes.
*/
module Interaction {
  import opened Options

  /** An interactable is known to the dispatcher by its `id`. */
  type InteractableId = string

  datatype MouseEvent = MouseEvent(button: int, clientX: real, clientY: real, movementX: real, movementY: real)
  datatype WheelEvent = WheelEvent(deltaY: real)
  datatype KeyboardEvent = KeyboardEvent(key: string)

  datatype InputEvent =
    | MouseDown(mouse: MouseEvent)
    | MouseUp(mouse: MouseEvent)
    | MouseMove(mouse: MouseEvent)
    | Wheel(wheel: WheelEvent)
    | KeyDown(keyboard: KeyboardEvent)
    | KeyUp(keyboard: KeyboardEvent)

  /** One handler call: `target` receives `event`. */
  datatype Delivery = Delivery(target: InteractableId, event: InputEvent)

  /** The handler calls of one event handed to every target of the list, in list order. */
  function Broadcast(targets: seq<InteractableId>, event: InputEvent): seq<Delivery>
    decreases |targets|
  {
    if targets == [] then []
    else Broadcast(targets[..|targets| - 1], event) + [Delivery(targets[|targets| - 1], event)]
  }

  /** How often `t` occurs in `targets`. */
  function Occurrences(targets: seq<InteractableId>, t: InteractableId): nat
    decreases |targets|
  {
    if targets == [] then 0
    else Occurrences(targets[..|targets| - 1], t) + (if targets[|targets| - 1] == t then 1 else 0)
  }

  /** How many of the deliveries go to `t`. */
  function DeliveriesTo(deliveries: seq<Delivery>, t: InteractableId): nat
    decreases |deliveries|
  {
    if deliveries == [] then 0
    else DeliveriesTo(deliveries[..|deliveries| - 1], t) + (if deliveries[|deliveries| - 1].target == t then 1 else 0)
  }

  /** The k-th delivery goes to the k-th target, with the very event broadcast. */
  lemma {:induction false} BroadcastInOrder(targets: seq<InteractableId>, event: InputEvent)
    ensures |Broadcast(targets, event)| == |targets|
    ensures forall k :: 0 <= k < |targets| ==> Broadcast(targets, event)[k] == Delivery(targets[k], event)
    decreases |targets|
  {
    if targets != [] {
      BroadcastInOrder(targets[..|targets| - 1], event);
    }
  }

  /** A target registered n times receives the event n times: registration never de-duplicates. */
  lemma {:induction false} BroadcastCountsRegistrations(targets: seq<InteractableId>, event: InputEvent, t: InteractableId)
    ensures DeliveriesTo(Broadcast(targets, event), t) == Occurrences(targets, t)
    decreases |targets|
  {
    if targets != [] {
      var earlier := targets[..|targets| - 1];
      BroadcastCountsRegistrations(earlier, event, t);
      var b := Broadcast(targets, event);
      assert b[..|b| - 1] == Broadcast(earlier, event);
    }
  }

  /**
    `mousePositionToThreeSpace` on a scene of the given size.  x is mapped by
    2 * posX / width - 1 and y by 2 * posY / height + 1; a zero width or height
    gives a non-finite number in the source, `None` here.
  */
  function MousePositionToThreeSpace(posX: real, posY: real, width: real, height: real): (r: Option<(real, real)>)
    ensures r.None? <==> width == 0.0 || height == 0.0
  {
    if width == 0.0 || height == 0.0 then None
    else Some(((posX / width) * 2.0 - 1.0, (posY / height) * 2.0 + 1.0))
  }

  /**
    As written: x runs from -1 at the left edge to +1 at the right edge, but y is
    not inverted and runs from +1 at the top edge to +3 at the bottom edge, so
    every point below the top edge falls outside the device range [-1, 1].
  */
  lemma PointerRange(width: real, height: real, posY: real)
    requires width > 0.0 && height > 0.0
    requires 0.0 < posY <= height
    ensures MousePositionToThreeSpace(0.0, 0.0, width, height) == Some((-1.0, 1.0))
    ensures MousePositionToThreeSpace(width, height, width, height) == Some((1.0, 3.0))
    ensures MousePositionToThreeSpace(0.0, posY, width, height).value.1 > 1.0
  {
    assert width / width == 1.0 && height / height == 1.0;
    assert posY / height > 0.0;
  }

  /** Both coordinates grow with the screen position: further down means larger y. */
  lemma PointerMonotone(x1: real, y1: real, x2: real, y2: real, width: real, height: real)
    requires width > 0.0 && height > 0.0
    requires x1 < x2 && y1 < y2
    ensures MousePositionToThreeSpace(x1, y1, width, height).value.0 < MousePositionToThreeSpace(x2, y2, width, height).value.0
    ensures MousePositionToThreeSpace(x1, y1, width, height).value.1 < MousePositionToThreeSpace(x2, y2, width, height).value.1
  {
    assert x2 / width - x1 / width == (x2 - x1) / width;
    assert y2 / height - y1 / height == (y2 - y1) / height;
  }

  /** The list an event is handed to: key events go to the keyboard list, all others to the mouse list. */
  function Route(mouse: seq<InteractableId>, keyboard: seq<InteractableId>, event: InputEvent): seq<InteractableId> {
    if event.KeyDown? || event.KeyUp? then keyboard else mouse
  }

  /** The handler calls one event causes: none while disabled, otherwise a broadcast along its route. */
  function Handle(enabled: bool, mouse: seq<InteractableId>, keyboard: seq<InteractableId>, event: InputEvent): seq<Delivery> {
    if enabled then Broadcast(Route(mouse, keyboard, event), event) else []
  }

  class InteractionService {
    var mouseInteractables: seq<InteractableId>
    var keyboardInteractables: seq<InteractableId>
    var sceneWidth: real
    var sceneHeight: real
    var interactionEnabled: bool

    /** Empty lists, a zero scene size until `SetSceneSize` runs, interactions on. */
    constructor ()
      ensures mouseInteractables == [] && keyboardInteractables == []
      ensures sceneWidth == 0.0 && sceneHeight == 0.0
      ensures interactionEnabled
    {
      mouseInteractables := [];
      keyboardInteractables := [];
      sceneWidth, sceneHeight := 0.0, 0.0;
      interactionEnabled := true;
    }

    /** Records the scene element's offset width and height. */
    method SetSceneSize(offsetWidth: nat, offsetHeight: nat)
      modifies this
      ensures sceneWidth == offsetWidth as real && sceneHeight == offsetHeight as real
      ensures mouseInteractables == old(mouseInteractables)
      ensures keyboardInteractables == old(keyboardInteractables)
      ensures interactionEnabled == old(interactionEnabled)
    {
      sceneWidth, sceneHeight := offsetWidth as real, offsetHeight as real;
    }

    method AddMouseInteractable(interactable: InteractableId)
      modifies this
      ensures mouseInteractables == old(mouseInteractables) + [interactable]
      ensures keyboardInteractables == old(keyboardInteractables)
      ensures sceneWidth == old(sceneWidth) && sceneHeight == old(sceneHeight)
      ensures interactionEnabled == old(interactionEnabled)
    {
      mouseInteractables := mouseInteractables + [interactable];
    }

    method AddKeyboardInteractable(interactable: InteractableId)
      modifies this
      ensures keyboardInteractables == old(keyboardInteractables) + [interactable]
      ensures mouseInteractables == old(mouseInteractables)
      ensures sceneWidth == old(sceneWidth) && sceneHeight == old(sceneHeight)
      ensures interactionEnabled == old(interactionEnabled)
    {
      keyboardInteractables := keyboardInteractables + [interactable];
    }

    /** Registers one object in both lists. */
    method AddInteractable(interactable: InteractableId)
      modifies this
      ensures mouseInteractables == old(mouseInteractables) + [interactable]
      ensures keyboardInteractables == old(keyboardInteractables) + [interactable]
      ensures sceneWidth == old(sceneWidth) && sceneHeight == old(sceneHeight)
      ensures interactionEnabled == old(interactionEnabled)
    {
      mouseInteractables := mouseInteractables + [interactable];
      keyboardInteractables := keyboardInteractables + [interactable];
    }

    /** Sets the gate and nothing else. */
    method ToggleInteractions(enabled: bool)
      modifies this
      ensures interactionEnabled == enabled
      ensures mouseInteractables == old(mouseInteractables)
      ensures keyboardInteractables == old(keyboardInteractables)
      ensures sceneWidth == old(sceneWidth) && sceneHeight == old(sceneHeight)
    {
      interactionEnabled := enabled;
    }

    /** The normalised pointer position for the current scene size. */
    function PointerToThreeSpace(posX: real, posY: real): (r: Option<(real, real)>)
      reads this
      ensures r.Some? <==> sceneWidth != 0.0 && sceneHeight != 0.0
    {
      MousePositionToThreeSpace(posX, posY, sceneWidth, sceneHeight)
    }

    /** The loop shared by the six handlers: one handler call per target, in order. */
    method Dispatch(targets: seq<InteractableId>, event: InputEvent) returns (deliveries: seq<Delivery>)
      ensures deliveries == Broadcast(targets, event)
    {
      deliveries := [];
      for i := 0 to |targets|
        invariant deliveries == Broadcast(targets[..i], event)
      {
        assert targets[..i + 1][..i] == targets[..i];
        deliveries := deliveries + [Delivery(targets[i], event)];
      }
      assert targets[..|targets|] == targets;
    }

    method OnMouseDown(event: MouseEvent) returns (deliveries: seq<Delivery>)
      ensures deliveries == if interactionEnabled then Broadcast(mouseInteractables, MouseDown(event)) else []
      ensures deliveries == Handle(interactionEnabled, mouseInteractables, keyboardInteractables, MouseDown(event))
    {
      if !interactionEnabled {
        return [];
      }
      deliveries := Dispatch(mouseInteractables, MouseDown(event));
    }

    method OnMouseUp(event: MouseEvent) returns (deliveries: seq<Delivery>)
      ensures deliveries == if interactionEnabled then Broadcast(mouseInteractables, MouseUp(event)) else []
      ensures deliveries == Handle(interactionEnabled, mouseInteractables, keyboardInteractables, MouseUp(event))
    {
      if !interactionEnabled {
        return [];
      }
      deliveries := Dispatch(mouseInteractables, MouseUp(event));
    }

    method OnMouseMove(event: MouseEvent) returns (deliveries: seq<Delivery>)
      ensures deliveries == if interactionEnabled then Broadcast(mouseInteractables, MouseMove(event)) else []
      ensures deliveries == Handle(interactionEnabled, mouseInteractables, keyboardInteractables, MouseMove(event))
    {
      if !interactionEnabled {
        return [];
      }
      deliveries := Dispatch(mouseInteractables, MouseMove(event));
    }

    method OnKeyDown(event: KeyboardEvent) returns (deliveries: seq<Delivery>)
      ensures deliveries == if interactionEnabled then Broadcast(keyboardInteractables, KeyDown(event)) else []
      ensures deliveries == Handle(interactionEnabled, mouseInteractables, keyboardInteractables, KeyDown(event))
    {
      if !interactionEnabled {
        return [];
      }
      deliveries := Dispatch(keyboardInteractables, KeyDown(event));
    }

    method OnKeyUp(event: KeyboardEvent) returns (deliveries: seq<Delivery>)
      ensures deliveries == if interactionEnabled then Broadcast(keyboardInteractables, KeyUp(event)) else []
      ensures deliveries == Handle(interactionEnabled, mouseInteractables, keyboardInteractables, KeyUp(event))
    {
      if !interactionEnabled {
        return [];
      }
      deliveries := Dispatch(keyboardInteractables, KeyUp(event));
    }

    method OnWheel(event: WheelEvent) returns (deliveries: seq<Delivery>)
      ensures deliveries == if interactionEnabled then Broadcast(mouseInteractables, Wheel(event)) else []
      ensures deliveries == Handle(interactionEnabled, mouseInteractables, keyboardInteractables, Wheel(event))
    {
      if !interactionEnabled {
        return [];
      }
      deliveries := Dispatch(mouseInteractables, Wheel(event));
    }
  }

  /**
    What every handler of the dispatcher promises, through `Handle`: nothing while
    disabled; otherwise key events reach exactly the keyboard list and every
    other event exactly the mouse list, each registered entry once per
    registration, in registration order, with the event unchanged.
  */
  lemma DispatchRouting(enabled: bool, mouse: seq<InteractableId>, keyboard: seq<InteractableId>,
                        event: InputEvent, t: InteractableId)
    ensures !enabled ==> Handle(enabled, mouse, keyboard, event) == []
    ensures enabled && (event.KeyDown? || event.KeyUp?) ==>
            && |Handle(enabled, mouse, keyboard, event)| == |keyboard|
            && (forall k :: 0 <= k < |keyboard| ==> Handle(enabled, mouse, keyboard, event)[k] == Delivery(keyboard[k], event))
            && DeliveriesTo(Handle(enabled, mouse, keyboard, event), t) == Occurrences(keyboard, t)
    ensures enabled && !(event.KeyDown? || event.KeyUp?) ==>
            && |Handle(enabled, mouse, keyboard, event)| == |mouse|
            && (forall k :: 0 <= k < |mouse| ==> Handle(enabled, mouse, keyboard, event)[k] == Delivery(mouse[k], event))
            && DeliveriesTo(Handle(enabled, mouse, keyboard, event), t) == Occurrences(mouse, t)
  {
    var targets := Route(mouse, keyboard, event);
    BroadcastInOrder(targets, event);
    BroadcastCountsRegistrations(targets, event, t);
  }
}
