/**
  The scene object registry of `object-tracker.service.ts`: a plain list of
  scene objects that grows by appending and shrinks by removing every entry
  that carries a given id.
*/
module Tracking {

  /**
    A scene object as the registry and the scene service see it (`ISceneObject`):
    the object's own `id`, the id of its three.js group, and the `existsInScene`
    flag that the scene service sets.
  */
  class SceneObject {
    const id: string
    const groupId: nat
    var existsInScene: bool

    constructor (id: string, groupId: nat)
      ensures this.id == id && this.groupId == groupId && !existsInScene
    {
      this.id := id;
      this.groupId := groupId;
      existsInScene := false;
    }
  }

  /** `s` with every entry whose id is `id` taken out, the others kept in order. */
  function Without(s: seq<SceneObject>, id: string): seq<SceneObject> {
    if s == [] then []
    else (if s[0].id == id then [] else [s[0]]) + Without(s[1..], id)
  }

  /** How many entries of `s` carry the id `id`. */
  function Count(s: seq<SceneObject>, id: string): nat {
    if s == [] then 0
    else (if s[0].id == id then 1 else 0) + Count(s[1..], id)
  }

  lemma {:induction false} CountAppend(a: seq<SceneObject>, b: seq<SceneObject>, id: string)
    ensures Count(a + b, id) == Count(a, id) + Count(b, id)
  {
    if a != [] {
      assert (a + b)[1..] == a[1..] + b;
      CountAppend(a[1..], b, id);
    } else {
      assert a + b == b;
    }
  }

  /** After removal no entry carries the id, and exactly the matching entries are gone. */
  lemma {:induction false} WithoutRemovesAll(s: seq<SceneObject>, id: string)
    ensures forall k :: 0 <= k < |Without(s, id)| ==> Without(s, id)[k].id != id
    ensures |Without(s, id)| == |s| - Count(s, id)
  {
    if s != [] {
      WithoutRemovesAll(s[1..], id);
    }
  }

  /** Entries with another id survive removal, and removal brings in nothing new. */
  lemma {:induction false} WithoutKeepsOthers(s: seq<SceneObject>, id: string)
    ensures forall o :: o in s && o.id != id ==> o in Without(s, id)
    ensures forall o :: o in Without(s, id) ==> o in s
  {
    if s != [] {
      WithoutKeepsOthers(s[1..], id);
      forall o | o in s && o.id != id
        ensures o in Without(s, id)
      {
        if o != s[0] {
          assert o in s[1..];
        }
      }
    }
  }

  /** Removing an id that no entry carries leaves the list as it was. */
  lemma {:induction false} WithoutAbsent(s: seq<SceneObject>, id: string)
    requires forall k :: 0 <= k < |s| ==> s[k].id != id
    ensures Without(s, id) == s
  {
    if s != [] {
      WithoutAbsent(s[1..], id);
    }
  }

  /** `a` can be obtained from `b` by dropping entries, the rest left in their order. */
  predicate IsSubsequence(a: seq<SceneObject>, b: seq<SceneObject>)
    decreases |b|
  {
    if a == [] then true
    else if b == [] then false
    else if a[0] == b[0] then IsSubsequence(a[1..], b[1..])
    else IsSubsequence(a, b[1..])
  }

  /** Removal only drops entries: the survivors keep their relative order. */
  lemma {:induction false} WithoutKeepsOrder(s: seq<SceneObject>, id: string)
    ensures IsSubsequence(Without(s, id), s)
  {
    if s != [] {
      var rest := Without(s[1..], id);
      WithoutKeepsOrder(s[1..], id);
      if s[0].id == id {
        WithoutRemovesAll(s[1..], id);
        assert Without(s, id) == rest;
        if rest != [] {
          assert rest[0] != s[0];
        }
      } else {
        assert ([s[0]] + rest)[1..] == rest;
      }
    }
  }

  /** Appending the same object twice adds two entries with its id: no duplicate check. */
  lemma AddTwiceCountsTwice(s: seq<SceneObject>, o: SceneObject)
    ensures Count(s + [o] + [o], o.id) == Count(s, o.id) + 2
  {
    CountAppend(s, [o] + [o], o.id);
    assert (s + [o] + [o]) == s + ([o] + [o]);
    assert ([o] + [o])[1..] == [o];
    assert [o][1..] == [];
    assert Count([o], o.id) == 1;
  }

  /** `ObjectTrackerService`: the list of tracked scene objects, in insertion order. */
  class ObjectTrackerService {
    var sceneObjects: seq<SceneObject>

    constructor ()
      ensures sceneObjects == []
    {
      sceneObjects := [];
    }

    /** Appends the object at the end, whether or not it is already tracked. */
    method AddObject(sceneObject: SceneObject)
      modifies this
      ensures sceneObjects == old(sceneObjects) + [sceneObject]
    {
      sceneObjects := sceneObjects + [sceneObject];
    }

    /** Walks the list from the back and splices out every entry with the object's id. */
    method DeleteObject(sceneObject: SceneObject)
      modifies this
      ensures sceneObjects == Without(old(sceneObjects), sceneObject.id)
    {
      ghost var original := sceneObjects;
      var i := |sceneObjects| - 1;
      while i >= 0
        invariant -1 <= i < |original|
        invariant sceneObjects == original[..i + 1] + Without(original[i + 1..], sceneObject.id)
      {
        assert original[i..] == [original[i]] + original[i + 1..];
        assert sceneObjects[i] == original[i];
        if sceneObjects[i].id == sceneObject.id {
          assert original[..i + 1] == original[..i] + [original[i]];
          sceneObjects := sceneObjects[..i] + sceneObjects[i + 1..];
          assert sceneObjects == original[..i] + Without(original[i..], sceneObject.id);
        } else {
          assert original[..i + 1] == original[..i] + [original[i]];
          assert sceneObjects == original[..i] + Without(original[i..], sceneObject.id);
        }
        i := i - 1;
      }
      assert original[0..] == original;
    }

    /** The tracked objects, in the order they were added. */
    method GetObjects() returns (objects: seq<SceneObject>)
      ensures objects == sceneObjects
    {
      objects := sceneObjects;
    }
  }
}
