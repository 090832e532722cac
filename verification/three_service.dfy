/**
  The scene-adding side of `rendering/three.service.ts`: the `existsInScene`
  guard, the de-duplication by group id in front of the registry, and the
  per-frame `update` broadcast over the tracked objects.
*/
module Rendering {
  import opened Tracking

  /** Some entry of `tracked` has the group id `groupId`. */
  predicate IsTracked(tracked: seq<SceneObject>, groupId: nat) {
    exists k :: 0 <= k < |tracked| && tracked[k].groupId == groupId
  }

  /** No two entries of `tracked` share a group id. */
  predicate DistinctGroupIds(tracked: seq<SceneObject>) {
    forall i, j :: 0 <= i < j < |tracked| ==> tracked[i].groupId != tracked[j].groupId
  }

  /** The registry after one object that was not yet in the scene is added to it. */
  function Track(tracked: seq<SceneObject>, o: SceneObject): seq<SceneObject> {
    if IsTracked(tracked, o.groupId) then tracked else tracked + [o]
  }

  /**
    The registry after adding `objs` one by one, in list order, when `inScene` are
    the objects of `objs` whose `existsInScene` was already set at the start: an
    object is skipped when it was in the scene from the start or appeared earlier
    in the list (its first occurrence set the flag).
  */
  function AddAllTracked(tracked: seq<SceneObject>, inScene: set<SceneObject>, objs: seq<SceneObject>): seq<SceneObject>
    decreases |objs|
  {
    if objs == [] then tracked
    else
      var earlier := objs[..|objs| - 1];
      var o := objs[|objs| - 1];
      var before := AddAllTracked(tracked, inScene, earlier);
      if o in inScene || o in earlier then before else Track(before, o)
  }

  /** Adding one object never introduces a second entry with the same group id. */
  lemma TrackKeepsDistinct(tracked: seq<SceneObject>, o: SceneObject)
    requires DistinctGroupIds(tracked)
    ensures DistinctGroupIds(Track(tracked, o))
    ensures IsTracked(Track(tracked, o), o.groupId)
    ensures forall g :: IsTracked(tracked, g) ==> IsTracked(Track(tracked, o), g)
  {
    if !IsTracked(tracked, o.groupId) {
      var t := tracked + [o];
      assert t[|tracked|] == o;
      forall g | IsTracked(tracked, g)
        ensures IsTracked(t, g)
      {
        var k :| 0 <= k < |tracked| && tracked[k].groupId == g;
        assert t[k] == tracked[k];
      }
    }
  }

  /**
    However many repeats `objs` holds, adding it keeps group ids distinct, and every
    object that was not already in the scene ends up with its group id tracked.
  */
  lemma {:induction false} AddAllKeepsDistinct(tracked: seq<SceneObject>, inScene: set<SceneObject>, objs: seq<SceneObject>)
    requires DistinctGroupIds(tracked)
    ensures DistinctGroupIds(AddAllTracked(tracked, inScene, objs))
    ensures forall o :: o in objs && o !in inScene ==> IsTracked(AddAllTracked(tracked, inScene, objs), o.groupId)
    decreases |objs|
  {
    if objs != [] {
      var earlier := objs[..|objs| - 1];
      var o := objs[|objs| - 1];
      AddAllKeepsDistinct(tracked, inScene, earlier);
      var before := AddAllTracked(tracked, inScene, earlier);
      TrackKeepsDistinct(before, o);
      var after := AddAllTracked(tracked, inScene, objs);
      forall p | p in objs && p !in inScene
        ensures IsTracked(after, p.groupId)
      {
        if p in earlier {
          assert IsTracked(before, p.groupId);
        } else {
          assert p == o;
        }
      }
    }
  }

  /** `ThreeService`, reduced to the part that feeds and reads the object registry. */
  class ThreeService {
    const objectTrackerService: ObjectTrackerService

    constructor (objectTrackerService: ObjectTrackerService)
      ensures this.objectTrackerService == objectTrackerService
    {
      this.objectTrackerService := objectTrackerService;
    }

    /**
      Adds an object to the scene unless its flag says it is already there; the
      registry gains it only when no tracked object has the same group id.
    */
    method AddObjectToScene(sceneObject: SceneObject)
      modifies sceneObject, objectTrackerService
      ensures old(sceneObject.existsInScene) ==>
        objectTrackerService.sceneObjects == old(objectTrackerService.sceneObjects)
      ensures !old(sceneObject.existsInScene) ==>
        objectTrackerService.sceneObjects == Track(old(objectTrackerService.sceneObjects), sceneObject)
      ensures sceneObject.existsInScene
    {
      if sceneObject.existsInScene {
        return;
      }

      sceneObject.existsInScene := true;

      var tracked := ObjectIsTracked(sceneObject);
      if !tracked {
        objectTrackerService.AddObject(sceneObject);
      }
    }

    /** Adds each object in list order, exactly as repeated `AddObjectToScene` calls. */
    method AddObjectsToScene(sceneObjects: seq<SceneObject>)
      modifies objectTrackerService, set o | o in sceneObjects
      ensures objectTrackerService.sceneObjects ==
        AddAllTracked(old(objectTrackerService.sceneObjects),
                      (set o | o in sceneObjects && old(o.existsInScene)), sceneObjects)
      ensures forall o :: o in sceneObjects ==> o.existsInScene
    {
      ghost var tracked0 := objectTrackerService.sceneObjects;
      ghost var inScene := set o | o in sceneObjects && o.existsInScene;
      for i := 0 to |sceneObjects|
        invariant objectTrackerService.sceneObjects == AddAllTracked(tracked0, inScene, sceneObjects[..i])
        invariant forall o :: o in sceneObjects ==>
          o.existsInScene == (o in inScene || o in sceneObjects[..i])
      {
        var o := sceneObjects[i];
        assert sceneObjects[..i + 1][..i] == sceneObjects[..i];
        assert sceneObjects[..i + 1][i] == o;
        AddObjectToScene(o);
        assert forall p :: p in sceneObjects[..i + 1] <==> p in sceneObjects[..i] || p == o;
      }
      assert sceneObjects[..|sceneObjects|] == sceneObjects;
    }

    /** Scans the registry for an entry with the same group id. */
    method ObjectIsTracked(sceneObject: SceneObject) returns (tracked: bool)
      ensures tracked <==> exists k :: 0 <= k < |objectTrackerService.sceneObjects|
                              && objectTrackerService.sceneObjects[k].groupId == sceneObject.groupId
    {
      var objects := objectTrackerService.GetObjects();
      for i := 0 to |objects|
        invariant forall k :: 0 <= k < i ==> objects[k].groupId != sceneObject.groupId
      {
        if objects[i].groupId == sceneObject.groupId {
          return true;
        }
      }
      return false;
    }

    /**
      The per-frame broadcast: `update` is called once on every tracked object, in
      registry order; the result is the sequence of objects called.
    */
    method UpdateObjects() returns (updated: seq<SceneObject>)
      ensures updated == objectTrackerService.sceneObjects
    {
      var objects := objectTrackerService.GetObjects();
      updated := [];
      for i := 0 to |objects|
        invariant updated == objects[..i]
      {
        updated := updated + [objects[i]];
      }
      assert objects[..|objects|] == objects;
    }
  }
}
