/** The editor's scene store: the current scene plus the session-local
    selection, and the operations that change them
    (frontend/src/lib/hooks/useScene.ts). Each operation is a pure function
    from the old store to the new one; fresh ids and the current time are
    parameters. */
module SceneStore {
  import opened Wrappers
  import opened SceneTypes
  import opened SceneSerializer

  /** The scene and the selected id (`null` is `None`). The selection is never
      part of the scene document. */
  datatype Store = Store(scene: SceneData, selected: Option<string>)

  /** The store a session starts with: the given scene, or a new empty one. */
  function InitialStore(initial: Option<SceneData>, freshSceneId: string, now: int): (st: Store)
    ensures st.selected == None
    ensures initial.Some? ==> st.scene == initial.value
    ensures initial.None? ==> st.scene.objects == [] && st.scene.id == freshSceneId
  {
    match initial
    case Some(s) => Store(s, None)
    case None => Store(EmptyScene(freshSceneId, now), None)
  }

  /** `after` is `before` with only the modification time moved to `now`
      (objects aside). */
  predicate Stamped(before: SceneData, after: SceneData, now: int) {
    && after.id == before.id
    && after.settings == before.settings
    && after.metadata.created == before.metadata.created
    && after.metadata.version == before.metadata.version
    && after.metadata.modified == Millis(now)
  }

  // ---------------------------------------------------------------------------
  // Object sequences
  // ---------------------------------------------------------------------------

  /** The object spread `{...o, ...p}`: every key present in the patch replaces
      the object's key wholesale (a `properties` key replaces the whole map). */
  function MergeObject(o: SceneObject, p: ObjectPatch): (r: SceneObject) {
    SceneObject(
      p.id.GetOr(o.id),
      p.kind.GetOr(o.kind),
      p.position.GetOr(o.position),
      p.rotation.GetOr(o.rotation),
      p.scale.GetOr(o.scale),
      p.properties.GetOr(o.properties),
      if p.states.Some? then p.states.value.list else o.states,
      p.layer.GetOr(o.layer))
  }

  /** Merging is idempotent, and an empty patch changes nothing. */
  lemma MergeLaws(o: SceneObject, p: ObjectPatch)
    ensures MergeObject(MergeObject(o, p), p) == MergeObject(o, p)
    ensures MergeObject(o, EmptyPatch) == o
    ensures p.properties.Some? ==> MergeObject(o, p).properties == p.properties.value
    ensures p.properties.None? ==> MergeObject(o, p).properties == o.properties
  {
  }

  /** Merges `p` into every object whose id is `id`; the others stay as they are. */
  function UpdateObjects(objs: seq<SceneObject>, id: string, p: ObjectPatch): (r: seq<SceneObject>)
    ensures |r| == |objs|
    ensures forall i :: 0 <= i < |objs| && objs[i].id == id ==> r[i] == MergeObject(objs[i], p)
    ensures forall i :: 0 <= i < |objs| && objs[i].id != id ==> r[i] == objs[i]
  {
    if |objs| == 0 then []
    else [if objs[0].id == id then MergeObject(objs[0], p) else objs[0]] + UpdateObjects(objs[1..], id, p)
  }

  /** Keeps the objects whose id is not `id`, in their order. */
  function RemoveObjects(objs: seq<SceneObject>, id: string): (r: seq<SceneObject>)
    ensures |r| <= |objs|
    ensures forall o :: o in r <==> o in objs && o.id != id
    ensures !HasId(r, id)
    ensures !HasId(objs, id) ==> r == objs
  {
    if |objs| == 0 then []
    else if objs[0].id == id then RemoveObjects(objs[1..], id)
    else [objs[0]] + RemoveObjects(objs[1..], id)
  }

  /** Removal distributes over concatenation, so the survivors keep their
      relative order. */
  lemma {:induction false} RemoveKeepsOrder(a: seq<SceneObject>, b: seq<SceneObject>, id: string)
    ensures RemoveObjects(a + b, id) == RemoveObjects(a, id) + RemoveObjects(b, id)
  {
    if |a| > 0 {
      assert (a + b)[1..] == a[1..] + b;
      RemoveKeepsOrder(a[1..], b, id);
    } else {
      assert a + b == b;
    }
  }

  /** The first object carrying `id` (`Array.prototype.find`). */
  function FindObject(objs: seq<SceneObject>, id: string): (r: Option<SceneObject>)
    ensures r.Some? <==> HasId(objs, id)
    ensures r.Some? ==> exists i :: 0 <= i < |objs| && objs[i] == r.value && r.value.id == id
                                    && (forall j :: 0 <= j < i ==> objs[j].id != id)
  {
    if |objs| == 0 then None
    else if objs[0].id == id then Some(objs[0])
    else
      var r := FindObject(objs[1..], id);
      assert HasId(objs, id) ==> HasId(objs[1..], id) by {
        if HasId(objs, id) {
          var i :| 0 <= i < |objs| && objs[i].id == id;
          assert objs[1..][i - 1].id == id;
        }
      }
      if r.Some? then
        var i :| 0 <= i < |objs[1..]| && objs[1..][i] == r.value && r.value.id == id
                 && (forall j :: 0 <= j < i ==> objs[1..][j].id != id);
        assert objs[i + 1] == r.value;
        assert forall j :: 0 <= j < i + 1 ==> objs[j].id != id by {
          forall j | 0 <= j < i + 1 ensures objs[j].id != id {
            if j > 0 { assert objs[j] == objs[1..][j - 1]; }
          }
        }
        r
      else r
  }

  // ---------------------------------------------------------------------------
  // Store operations
  // ---------------------------------------------------------------------------

  datatype Added = Added(store: Store, id: string)

  /** Creates an object through the factory, appends it, and returns its id. */
  function AddObject(st: Store, k: Kind, pos: Position, overrides: Props, freshId: string, now: int): (r: Added)
    ensures r.id == freshId
    ensures |r.store.scene.objects| == |st.scene.objects| + 1
    ensures r.store.scene.objects[..|st.scene.objects|] == st.scene.objects
    ensures r.store.scene.objects[|st.scene.objects|] == CreateObject(freshId, k, pos, overrides)
    ensures Stamped(st.scene, r.store.scene, now)
    ensures r.store.selected == st.selected
  {
    var o := CreateObject(freshId, k, pos, overrides);
    var scene := UpdateMetadata(st.scene, now).(objects := st.scene.objects + [o]);
    Added(Store(scene, st.selected), o.id)
  }

  /** Shallow-merges `p` into the objects carrying `id`. */
  function UpdateObject(st: Store, id: string, p: ObjectPatch, now: int): (r: Store)
    ensures r.scene.objects == UpdateObjects(st.scene.objects, id, p)
    ensures !HasId(st.scene.objects, id) ==> r.scene.objects == st.scene.objects
    ensures Stamped(st.scene, r.scene, now)
    ensures r.selected == st.selected
  {
    assert !HasId(st.scene.objects, id) ==> UpdateObjects(st.scene.objects, id, p) == st.scene.objects;
    Store(UpdateMetadata(st.scene, now).(objects := UpdateObjects(st.scene.objects, id, p)), st.selected)
  }

  /** A patch holding only a position. */
  function PositionPatch(pos: Position): (p: ObjectPatch)
    ensures p == EmptyPatch.(position := Some(pos))
  {
    EmptyPatch.(position := Some(pos))
  }

  /** Moving is an update of the position alone: the target's other fields and
      every other object stay as they were. */
  function MoveObject(st: Store, id: string, pos: Position, now: int): (r: Store)
    ensures |r.scene.objects| == |st.scene.objects|
    ensures forall i :: 0 <= i < |st.scene.objects| && st.scene.objects[i].id == id ==>
              r.scene.objects[i] == st.scene.objects[i].(position := pos)
    ensures forall i :: 0 <= i < |st.scene.objects| && st.scene.objects[i].id != id ==>
              r.scene.objects[i] == st.scene.objects[i]
    ensures Stamped(st.scene, r.scene, now)
    ensures r.selected == st.selected
  {
    UpdateObject(st, id, PositionPatch(pos), now)
  }

  /** Removes every object carrying `id`; a selection of that id is cleared and
      any other selection is kept. */
  function DeleteObject(st: Store, id: string, now: int): (r: Store)
    ensures r.scene.objects == RemoveObjects(st.scene.objects, id)
    ensures Stamped(st.scene, r.scene, now)
    ensures r.selected == None <==> st.selected == None || st.selected == Some(id)
    ensures r.selected != None ==> r.selected == st.selected
  {
    var scene := UpdateMetadata(st.scene, now).(objects := RemoveObjects(st.scene.objects, id));
    Store(scene, if st.selected == Some(id) then None else st.selected)
  }

  /** Deleting twice is deleting once, and deleting an absent id leaves the
      objects alone. */
  lemma DeleteIdempotent(st: Store, id: string, t1: int, t2: int)
    ensures DeleteObject(DeleteObject(st, id, t1), id, t2).scene.objects == DeleteObject(st, id, t1).scene.objects
    ensures !HasId(st.scene.objects, id) ==> DeleteObject(st, id, t1).scene.objects == st.scene.objects
  {
  }

  /** Replaces the scene with a new empty one and clears the selection. */
  function ClearScene(st: Store, freshSceneId: string, now: int): (r: Store)
    ensures r.scene.objects == [] && r.selected == None
    ensures r.scene.id == freshSceneId && r.scene.settings == DefaultSettings
    ensures r.scene.metadata.created == Millis(now) && r.scene.metadata.modified == Millis(now)
  {
    Store(EmptyScene(freshSceneId, now), None)
  }

  /** Sets the selection as given; the id need not exist. */
  function Select(st: Store, sel: Option<string>): (r: Store)
    ensures r.scene == st.scene && r.selected == sel
  {
    st.(selected := sel)
  }

  /** `getObject`: the first object carrying `id`, if any. */
  function GetObject(st: Store, id: string): (r: Option<SceneObject>)
    ensures r.Some? <==> HasId(st.scene.objects, id)
    ensures r.Some? ==> r.value in st.scene.objects && r.value.id == id
  {
    FindObject(st.scene.objects, id)
  }

  /** The selected object: absent when nothing is selected, when the selected id
      is the empty (falsy) string, or when no object carries it. */
  function SelectedObject(st: Store): (r: Option<SceneObject>)
    ensures r.Some? <==> (st.selected.Some? && st.selected.value != "" && HasId(st.scene.objects, st.selected.value))
    ensures r.Some? ==> r.value in st.scene.objects && r.value.id == st.selected.value
  {
    match st.selected
    case None => None
    case Some(id) => if id == "" then None else GetObject(st, id)
  }

  // ---------------------------------------------------------------------------
  // The id invariant
  // ---------------------------------------------------------------------------

  /** Adding with a fresh id keeps ids unique. */
  lemma AddKeepsIdsUnique(st: Store, k: Kind, pos: Position, overrides: Props, freshId: string, now: int)
    requires UniqueIds(st.scene.objects) && !HasId(st.scene.objects, freshId)
    ensures UniqueIds(AddObject(st, k, pos, overrides, freshId, now).store.scene.objects)
  {
    var objs := st.scene.objects;
    var objs' := AddObject(st, k, pos, overrides, freshId, now).store.scene.objects;
    forall i, j | 0 <= i < j < |objs'| ensures objs'[i].id != objs'[j].id {
      assert objs'[i] == objs[i];
      if j < |objs| {
        assert objs'[j] == objs[j];
      }
    }
  }

  /** An update that leaves ids alone keeps ids unique. */
  lemma UpdateKeepsIdsUnique(st: Store, id: string, p: ObjectPatch, now: int)
    requires UniqueIds(st.scene.objects) && p.id.None?
    ensures UniqueIds(UpdateObject(st, id, p, now).scene.objects)
  {
    var objs := st.scene.objects;
    var objs' := UpdateObject(st, id, p, now).scene.objects;
    assert forall i :: 0 <= i < |objs| ==> objs'[i].id == objs[i].id;
  }

  /** Deleting keeps ids unique. */
  lemma {:induction false} RemoveKeepsIdsUnique(objs: seq<SceneObject>, id: string)
    requires UniqueIds(objs)
    ensures UniqueIds(RemoveObjects(objs, id))
  {
    if |objs| > 0 {
      assert UniqueIds(objs[1..]) by {
        forall i, j | 0 <= i < j < |objs[1..]| ensures objs[1..][i].id != objs[1..][j].id {
          assert objs[1..][i] == objs[i + 1] && objs[1..][j] == objs[j + 1];
        }
      }
      RemoveKeepsIdsUnique(objs[1..], id);
      var rest := RemoveObjects(objs[1..], id);
      if objs[0].id != id {
        forall j | 0 <= j < |rest| ensures objs[0].id != rest[j].id {
          assert rest[j] in objs[1..];
          var m :| 0 <= m < |objs[1..]| && objs[1..][m] == rest[j];
          assert objs[m + 1] == rest[j];
        }
      }
    }
  }

  /** The lifecycle from the design: add a circle to an empty scene, select it,
      move it to (2, -1), delete it. */
  lemma AddMoveDeleteScenario(sceneId: string, objId: string)
    requires objId != ""
    ensures var added := AddObject(InitialStore(None, sceneId, 0), Circle, Position(0.0, 0.0), map[], objId, 1);
            var st1 := Select(added.store, Some(added.id));
            var st2 := MoveObject(st1, objId, Position(2.0, -1.0), 2);
            var st3 := DeleteObject(st2, objId, 3);
            && |st1.scene.objects| == 1
            && SelectedObject(st1) == Some(CreateObject(objId, Circle, Position(0.0, 0.0), map[]))
            && st2.scene.objects == [CreateObject(objId, Circle, Position(2.0, -1.0), map[])]
            && st2.scene.metadata.modified == Millis(2) && st2.scene.metadata.created == Millis(0)
            && st3.scene.objects == [] && st3.selected == None
  {
    var added := AddObject(InitialStore(None, sceneId, 0), Circle, Position(0.0, 0.0), map[], objId, 1);
    var st1 := Select(added.store, Some(added.id));
    assert st1.scene.objects[0].id == objId;
    var st2 := MoveObject(st1, objId, Position(2.0, -1.0), 2);
    assert st2.scene.objects[0] == CreateObject(objId, Circle, Position(2.0, -1.0), map[]);
  }
}
