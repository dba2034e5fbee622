/** The property panel (frontend/src/components/editor/PropertyPanel.tsx): each
    input of the panel turns an edit into one update or delete request for the
    selected object. Number inputs arrive already parsed: `None` stands for a
    text that parses to NaN. */
module PropertyPanel {
  import opened Wrappers
  import opened SceneTypes
  import opened SceneStore

  /** One change made in the panel. */
  datatype PanelEvent =
    | EditX(num: Option<real>)
    | EditY(num: Option<real>)
    | EditScale(num: Option<real>)
    | EditRotation(num: Option<real>)
    | EditColor(text: string)
    | EditSideLength(num: Option<real>)
    | EditRadius(num: Option<real>)
    | EditFillOpacity(num: Option<real>)
    | EditStrokeWidth(num: Option<real>)
    | EditText(text: string)
    | EditFontSize(whole: Option<int>)
    | EditWeight(text: string)
    | EditTex(text: string)
    | EditLayer(whole: Option<int>)
    | DeleteClicked

  /** What the panel asks the editor to do. */
  datatype PanelCommand = NoCommand | UpdateCmd(id: string, patch: ObjectPatch) | DeleteCmd(id: string)

  /** `parseFloat(text) || fallback`: NaN and zero both give the fallback. */
  function FloatOr(num: Option<real>, fallback: real): (r: real)
    ensures num.Some? && num.value != 0.0 ==> r == num.value
    ensures num.None? || num.value == 0.0 ==> r == fallback
  {
    if num.Some? && num.value != 0.0 then num.value else fallback
  }

  /** `parseInt(text) || fallback`. */
  function IntOr(num: Option<int>, fallback: int): (r: int)
    ensures num.Some? && num.value != 0 ==> r == num.value
    ensures num.None? || num.value == 0 ==> r == fallback
  {
    if num.Some? && num.value != 0 then num.value else fallback
  }

  /** `parseFloat(text)` stored as it is: NaN when unreadable. */
  function Parsed(num: Option<real>): (v: Value)
    ensures num.Some? <==> v.Num?
    ensures num.Some? ==> v == Num(num.value)
  {
    match num
    case Some(x) => Num(x)
    case None => NotANumber
  }

  /** Whether the panel renders the input behind `e` for an object of kind `k`. */
  predicate FieldShown(k: Kind, e: PanelEvent) {
    match e
    case EditSideLength(_) => k == Square
    case EditRadius(_) => k == Circle
    case EditFillOpacity(_) => k == Square || k == Circle
    case EditStrokeWidth(_) => k == Square || k == Circle
    case EditText(_) => k == Text
    case EditWeight(_) => k == Text
    case EditFontSize(_) => k == Text || k == LaTeX
    case EditTex(_) => k == LaTeX
    case _ => true
  }

  /** Edits that go through `updateProperty`. */
  predicate IsPropertyEdit(e: PanelEvent) {
    e.EditColor? || e.EditSideLength? || e.EditRadius? || e.EditFillOpacity? || e.EditStrokeWidth?
    || e.EditText? || e.EditFontSize? || e.EditWeight? || e.EditTex?
  }

  /** The property key a property edit writes. */
  function PropertyKey(e: PanelEvent): string
    requires IsPropertyEdit(e)
  {
    match e
    case EditColor(_) => "color"
    case EditSideLength(_) => "sideLength"
    case EditRadius(_) => "radius"
    case EditFillOpacity(_) => "fillOpacity"
    case EditStrokeWidth(_) => "strokeWidth"
    case EditText(_) => "text"
    case EditFontSize(_) => "fontSize"
    case EditWeight(_) => "weight"
    case EditTex(_) => "tex"
  }

  /** The value a property edit writes, with each input's fallback. */
  function PropertyValue(e: PanelEvent): Value
    requires IsPropertyEdit(e)
  {
    match e
    case EditColor(t) => Str(t)
    case EditSideLength(n) => Num(FloatOr(n, 1.0))
    case EditRadius(n) => Num(FloatOr(n, 1.0))
    case EditFillOpacity(n) => Parsed(n)
    case EditStrokeWidth(n) => Num(FloatOr(n, 0.0))
    case EditText(t) => Str(t)
    case EditFontSize(n) => Num(IntOr(n, 24) as real)
    case EditWeight(t) => Str(t)
    case EditTex(t) => Str(t)
  }

  /** `updateProperty(key, value)`: the whole property map with one key set. */
  function UpdateProperty(o: SceneObject, key: string, v: Value): (c: PanelCommand)
    ensures c.UpdateCmd? && c.id == o.id
    ensures c.patch == EmptyPatch.(properties := c.patch.properties)
    ensures c.patch.properties.Some?
    ensures c.patch.properties.value.Keys == o.properties.Keys + {key}
    ensures c.patch.properties.value[key] == v
    ensures forall k :: k in o.properties && k != key ==> c.patch.properties.value[k] == o.properties[k]
  {
    UpdateCmd(o.id, EmptyPatch.(properties := Some(o.properties[key := v])))
  }

  /** The transform edits, each through `updateTransform` with one key. */
  function TransformPatch(o: SceneObject, e: PanelEvent): (p: ObjectPatch)
    requires e.EditX? || e.EditY? || e.EditScale? || e.EditRotation? || e.EditLayer?
  {
    match e
    case EditX(n) => EmptyPatch.(position := Some(Position(FloatOr(n, 0.0), o.position.y)))
    case EditY(n) => EmptyPatch.(position := Some(Position(o.position.x, FloatOr(n, 0.0))))
    case EditScale(n) => EmptyPatch.(scale := Some(FloatOr(n, 1.0)))
    case EditRotation(n) => EmptyPatch.(rotation := Some(FloatOr(n, 0.0)))
    case EditLayer(n) => EmptyPatch.(layer := Some(IntOr(n, 0)))
  }

  /** The panel's reaction to one event. With nothing selected the panel shows
      no inputs, so nothing is ever requested; an input the selected kind does
      not show cannot fire either. */
  function HandlePanelEvent(sel: Option<SceneObject>, e: PanelEvent): (c: PanelCommand)
    ensures sel.None? ==> c == NoCommand
    ensures c.DeleteCmd? <==> sel.Some? && e.DeleteClicked?
    ensures c.UpdateCmd? <==> sel.Some? && !e.DeleteClicked? && FieldShown(sel.value.kind, e)
    ensures c.DeleteCmd? ==> c.id == sel.value.id
    ensures c.UpdateCmd? ==> c.id == sel.value.id
    ensures c.UpdateCmd? && IsPropertyEdit(e) ==> c == UpdateProperty(sel.value, PropertyKey(e), PropertyValue(e))
  {
    match sel
    case None => NoCommand
    case Some(o) =>
      if e.DeleteClicked? then DeleteCmd(o.id)
      else if !FieldShown(o.kind, e) then NoCommand
      else if IsPropertyEdit(e) then UpdateProperty(o, PropertyKey(e), PropertyValue(e))
      else UpdateCmd(o.id, TransformPatch(o, e))
  }

  /** How many top-level keys a patch carries. */
  function PatchSize(p: ObjectPatch): nat {
    (if p.id.Some? then 1 else 0) + (if p.kind.Some? then 1 else 0) + (if p.position.Some? then 1 else 0)
    + (if p.rotation.Some? then 1 else 0) + (if p.scale.Some? then 1 else 0)
    + (if p.properties.Some? then 1 else 0) + (if p.states.Some? then 1 else 0) + (if p.layer.Some? then 1 else 0)
  }

  /** Every update the panel sends carries exactly one top-level key, and never
      the id, kind or states. */
  lemma PanelUpdatesCarryOneKey(sel: Option<SceneObject>, e: PanelEvent)
    ensures HandlePanelEvent(sel, e).UpdateCmd? ==>
              var p := HandlePanelEvent(sel, e).patch;
              PatchSize(p) == 1 && p.id.None? && p.kind.None? && p.states.None?
  {
  }

  /** Either position input, for any text typed: the request updates the
      selected object's position alone; an unreadable or zero entry gives 0,
      and the other axis is kept. */
  lemma PositionEdits(o: SceneObject, n: Option<real>)
    ensures var x := if n.Some? && n.value != 0.0 then n.value else 0.0;
            && HandlePanelEvent(Some(o), EditX(n)) == UpdateCmd(o.id, EmptyPatch.(position := Some(Position(x, o.position.y))))
            && HandlePanelEvent(Some(o), EditY(n)) == UpdateCmd(o.id, EmptyPatch.(position := Some(Position(o.position.x, x))))
  {
  }

  /** The rotation, scale and layer inputs, for any text typed: the request
      updates that one key of the selected object; an unreadable or zero entry
      gives 0, or 1 for scale. */
  lemma TransformEdits(o: SceneObject, n: Option<real>, w: Option<int>)
    ensures HandlePanelEvent(Some(o), EditRotation(n))
            == UpdateCmd(o.id, EmptyPatch.(rotation := Some(if n.Some? && n.value != 0.0 then n.value else 0.0)))
    ensures HandlePanelEvent(Some(o), EditScale(n))
            == UpdateCmd(o.id, EmptyPatch.(scale := Some(if n.Some? && n.value != 0.0 then n.value else 1.0)))
    ensures HandlePanelEvent(Some(o), EditLayer(w))
            == UpdateCmd(o.id, EmptyPatch.(layer := Some(if w.Some? && w.value != 0 then w.value else 0)))
  {
  }

  /** The side length and radius inputs, for any text typed: the shape's size
      property is set, falling back to 1 when unreadable or zero. */
  lemma SizeEdits(o: SceneObject, n: Option<real>)
    ensures var size := if n.Some? && n.value != 0.0 then n.value else 1.0;
            && (o.kind == Square ==> HandlePanelEvent(Some(o), EditSideLength(n)) == UpdateProperty(o, "sideLength", Num(size)))
            && (o.kind == Circle ==> HandlePanelEvent(Some(o), EditRadius(n)) == UpdateProperty(o, "radius", Num(size)))
  {
  }

  /** The stroke width and fill opacity inputs of a square or circle, for any
      text typed: stroke width falls back to 0 when unreadable or zero, and
      fill opacity stores the parsed value as it is, NaN included. */
  lemma StrokeAndFillEdits(o: SceneObject, n: Option<real>)
    requires o.kind == Square || o.kind == Circle
    ensures HandlePanelEvent(Some(o), EditStrokeWidth(n))
            == UpdateProperty(o, "strokeWidth", Num(if n.Some? && n.value != 0.0 then n.value else 0.0))
    ensures HandlePanelEvent(Some(o), EditFillOpacity(n))
            == UpdateProperty(o, "fillOpacity", if n.Some? then Num(n.value) else NotANumber)
  {
  }

  /** The font size input of a text or formula, for any text typed: an
      unreadable or zero entry gives 24. */
  lemma FontSizeEdit(o: SceneObject, w: Option<int>)
    requires o.kind == Text || o.kind == LaTeX
    ensures HandlePanelEvent(Some(o), EditFontSize(w))
            == UpdateProperty(o, "fontSize", Num(if w.Some? && w.value != 0 then w.value as real else 24.0))
  {
  }

  /** The colour input, shown for every kind: the typed text is written as
      the colour. */
  lemma ColorEdit(o: SceneObject, t: string)
    ensures HandlePanelEvent(Some(o), EditColor(t)) == UpdateProperty(o, "color", Str(t))
  {
  }

  /** The text inputs of a text or formula, for any text typed: the request
      writes the text as it is. */
  lemma TextPropertyEdits(o: SceneObject, t: string)
    ensures o.kind == Text ==> HandlePanelEvent(Some(o), EditText(t)) == UpdateProperty(o, "text", Str(t))
    ensures o.kind == Text ==> HandlePanelEvent(Some(o), EditWeight(t)) == UpdateProperty(o, "weight", Str(t))
    ensures o.kind == LaTeX ==> HandlePanelEvent(Some(o), EditTex(t)) == UpdateProperty(o, "tex", Str(t))
  {
  }

  /** Applying a property edit of the selected object to the store changes that
      one property of that object and nothing else. */
  lemma PropertyEditChangesOneKey(st: Store, e: PanelEvent, now: int)
    requires UniqueIds(st.scene.objects)
    requires SelectedObject(st).Some? && IsPropertyEdit(e) && FieldShown(SelectedObject(st).value.kind, e)
    ensures var o := SelectedObject(st).value;
            var c := HandlePanelEvent(Some(o), e);
            var r := UpdateObject(st, c.id, c.patch, now);
            forall i :: 0 <= i < |st.scene.objects| ==>
              r.scene.objects[i] == (if st.scene.objects[i].id == o.id
                                     then o.(properties := o.properties[PropertyKey(e) := PropertyValue(e)])
                                     else st.scene.objects[i])
  {
    var o := SelectedObject(st).value;
    forall i | 0 <= i < |st.scene.objects| && st.scene.objects[i].id == o.id
      ensures st.scene.objects[i] == o
    {
      var j :| 0 <= j < |st.scene.objects| && st.scene.objects[j] == o;
      assert i == j;
    }
  }
}
