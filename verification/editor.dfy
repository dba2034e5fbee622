/** The editor shell (frontend/src/components/editor/Editor.tsx): the handlers
    it gives the canvas and the property panel, the object it shows in the
    panel, and the object count in its status bar. */
module Editor {
  import opened Wrappers
  import opened Strings
  import opened SceneTypes
  import opened SceneSerializer
  import opened SceneStore
  import opened CanvasView
  import opened CoordinateTransform

  /** Adds an object with no property overrides and selects it. */
  function HandleObjectAdd(st: Store, k: Kind, pos: Position, freshId: string, now: int): (r: Store)
    ensures r.selected == Some(freshId)
    ensures r.scene == AddObject(st, k, pos, map[], freshId, now).store.scene
  {
    var added := AddObject(st, k, pos, map[], freshId, now);
    Select(added.store, Some(added.id))
  }

  /** With a fresh, non-empty id, the object just added is the one the panel shows. */
  lemma AddedObjectIsShown(st: Store, k: Kind, pos: Position, freshId: string, now: int)
    requires freshId != "" && !HasId(st.scene.objects, freshId)
    ensures PanelObject(HandleObjectAdd(st, k, pos, freshId, now)) == Some(CreateObject(freshId, k, pos, map[]))
  {
    var r := HandleObjectAdd(st, k, pos, freshId, now);
    var objs := st.scene.objects;
    var objs' := r.scene.objects;
    assert objs'[|objs|].id == freshId;
    assert HasId(objs', freshId);
    var shown := SelectedObject(r);
    var i :| 0 <= i < |objs'| && objs'[i] == shown.value && shown.value.id == freshId
             && (forall j :: 0 <= j < i ==> objs'[j].id != freshId);
    assert i == |objs|;
  }

  function HandleObjectSelect(st: Store, sel: Option<string>): (r: Store)
    ensures r.selected == sel && r.scene == st.scene
  {
    Select(st, sel)
  }

  function HandleObjectMove(st: Store, id: string, pos: Position, now: int): (r: Store)
    ensures r == MoveObject(st, id, pos, now)
  {
    MoveObject(st, id, pos, now)
  }

  function HandleObjectUpdate(st: Store, id: string, p: ObjectPatch, now: int): (r: Store)
    ensures r == UpdateObject(st, id, p, now)
  {
    UpdateObject(st, id, p, now)
  }

  function HandleObjectDelete(st: Store, id: string, now: int): (r: Store)
    ensures r == DeleteObject(st, id, now)
  {
    DeleteObject(st, id, now)
  }

  /** The object handed to the property panel (`selectedObject || null`). */
  function PanelObject(st: Store): (r: Option<SceneObject>)
    ensures r.None? <==> st.selected.None? || st.selected.value == "" || !HasId(st.scene.objects, st.selected.value)
    ensures r.Some? ==> r.value.id == st.selected.value && r.value in st.scene.objects
  {
    SelectedObject(st)
  }

  /** "1 object" for one object, "N objects" for any other count. */
  function StatusLabel(n: nat): (s: string)
    ensures IsPrefixOf(NatToDecimal(n) + " object", s)
    ensures |s| == |NatToDecimal(n)| + (if n == 1 then 7 else 8)
    ensures s[|NatToDecimal(n)|..] == (if n == 1 then " object" else " objects")
    ensures (s[|s| - 1] == 's') <==> n != 1
    ensures n == 1 ==> s == "1 object"
  {
    NatToDecimal(n) + " object" + (if n != 1 then "s" else "")
  }

  /** The label's leading digits read back as the count it was made from. */
  lemma StatusCountReadsBack(n: nat)
    ensures ' ' !in NatToDecimal(n)
    ensures ParseDecimal(StatusLabel(n)[..|NatToDecimal(n)|]) == Some(n)
  {
    var d := NatToDecimal(n);
    assert StatusLabel(n)[..|d|] == d;
    assert forall k :: 0 <= k < |d| ==> IsDigit(d[k]);
    ParseNatToDecimal(n);
  }

  /** Carries out what a drop decided. */
  function ApplyDrop(st: Store, a: DropAction, freshId: string, now: int): (r: Store)
    ensures a.NoAction? ==> r == st
    ensures a.AddAt? ==> r == HandleObjectAdd(st, a.kind, a.pos, freshId, now)
    ensures a.MoveTo? ==> r == HandleObjectMove(st, a.id, a.pos, now)
  {
    match a
    case NoAction => st
    case AddAt(k, pos) => HandleObjectAdd(st, k, pos, freshId, now)
    case MoveTo(id, pos) => HandleObjectMove(st, id, pos, now)
  }

  /** Dropping a library item on a measured canvas adds one object of that kind
      at the cursor's logical position and selects it. */
  lemma DropFromLibrarySelectsNewObject(st: Store, offset: CanvasPos, origin: CanvasPos, size: CanvasSize,
                                        k: Kind, freshId: string, now: int)
    requires size.width != 0.0 && size.height != 0.0
    ensures var item := DragItem(LibraryItemTag, "new-" + KindName(k), Some(k));
            var r := ApplyDrop(st, HandleDrop(true, Some(offset), origin, size, item), freshId, now);
            && r.selected == Some(freshId)
            && |r.scene.objects| == |st.scene.objects| + 1
            && r.scene.objects[|st.scene.objects|].kind == k
            && ManimToCanvas(r.scene.objects[|st.scene.objects|].position, size.width, size.height)
               == CanvasPos(offset.x - origin.x, offset.y - origin.y)
  {
  }

  /** Carries out what a click decided. */
  function ApplyClick(st: Store, c: SelectionChange): (r: Store)
    ensures r.scene == st.scene
    ensures c.Unchanged? ==> r.selected == st.selected
    ensures c.SetSelection? ==> r.selected == c.sel
  {
    match c
    case Unchanged => st
    case SetSelection(sel) => HandleObjectSelect(st, sel)
  }
}
