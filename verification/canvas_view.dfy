/** The editor canvas (frontend/src/components/editor/Canvas.tsx): the sizing
    policy that keeps the render aspect ratio, the decision a drop makes, the
    effect of a click on the selection, and where each object is drawn. */
module CanvasView {
  import opened Wrappers
  import opened SceneTypes
  import opened CoordinateTransform

  /** Render size of the output video, whose ratio the canvas keeps. */
  const RenderWidth: real := 1920.0
  const RenderHeight: real := 1080.0
  const AspectRatio: real := RenderWidth / RenderHeight

  /** The canvas size before the container is first measured. */
  const DefaultCanvasWidth: real := 800.0
  const DefaultCanvasHeight: real := DefaultCanvasWidth / AspectRatio

  const Padding: real := 32.0
  const MaxCanvasWidth: real := 900.0
  const MaxCanvasHeight: real := 600.0

  datatype CanvasSize = CanvasSize(width: real, height: real)

  /** The default canvas is 800 by 450 pixels. */
  lemma DefaultCanvasIs800By450()
    ensures DefaultCanvasHeight == 450.0
    ensures DefaultCanvasWidth == DefaultCanvasHeight * AspectRatio
  {
  }

  function Min(a: real, b: real): real {
    if a <= b then a else b
  }

  /** Width available to the canvas inside a container of client width `cw`. */
  function AvailableWidth(cw: real): (r: real)
    ensures r <= cw - Padding && r <= MaxCanvasWidth
    ensures r == cw - Padding || r == MaxCanvasWidth
  {
    Min(cw - Padding, MaxCanvasWidth)
  }

  /** Height available to the canvas inside a container of client height `ch`. */
  function AvailableHeight(ch: real): (r: real)
    ensures r <= ch - Padding && r <= MaxCanvasHeight
    ensures r == ch - Padding || r == MaxCanvasHeight
  {
    Min(ch - Padding, MaxCanvasHeight)
  }

  /** The canvas size for a container of client size `cw` by `ch`: as wide as
      allowed, unless that makes it too tall, in which case as tall as allowed;
      either way in the render aspect ratio. */
  function FitCanvas(cw: real, ch: real): (c: CanvasSize)
    ensures c.width <= AvailableWidth(cw) && c.height <= AvailableHeight(ch)
    ensures c.width == c.height * AspectRatio
    ensures c.height != 0.0 ==> c.width / c.height == AspectRatio
    ensures AvailableWidth(cw) / AspectRatio <= AvailableHeight(ch) ==> c.width == AvailableWidth(cw)
    ensures AvailableWidth(cw) / AspectRatio > AvailableHeight(ch) ==> c.height == AvailableHeight(ch)
    ensures AvailableWidth(cw) > 0.0 && AvailableHeight(ch) > 0.0 ==> c.width > 0.0 && c.height > 0.0
  {
    var maxW := AvailableWidth(cw);
    var maxH := AvailableHeight(ch);
    if maxW / AspectRatio > maxH then CanvasSize(maxH * AspectRatio, maxH)
    else CanvasSize(maxW, maxW / AspectRatio)
  }

  // ---------------------------------------------------------------------------
  // Drops
  // ---------------------------------------------------------------------------

  const LibraryItemTag: string := "MANIM_OBJECT"
  const CanvasItemTag: string := "CANVAS_OBJECT"

  /** What a drop asks the editor to do. */
  datatype DropAction = NoAction | AddAt(kind: Kind, pos: Position) | MoveTo(id: string, pos: Position)

  /** The drop handler. `hasCanvas` says whether the canvas element exists,
      `offset` is the cursor's client offset if known, `origin` the canvas's
      top-left corner in client coordinates and `size` the current canvas size.
      A library item with a kind becomes an add, a canvas item a move, at the
      cursor's logical position; anything else does nothing. */
  function HandleDrop(hasCanvas: bool, offset: Option<CanvasPos>, origin: CanvasPos, size: CanvasSize, item: DragItem): (a: DropAction)
    requires hasCanvas && offset.Some? ==> size.width != 0.0 && size.height != 0.0
    ensures !hasCanvas || offset.None? ==> a == NoAction
    ensures a.AddAt? <==> hasCanvas && offset.Some? && item.tag == LibraryItemTag && item.objectType.Some?
    ensures a.MoveTo? <==> hasCanvas && offset.Some? && item.tag == CanvasItemTag
    ensures a.AddAt? ==> a.kind == item.objectType.value
    ensures a.MoveTo? ==> a.id == item.id
    ensures !a.NoAction? ==>
              ManimToCanvas(a.pos, size.width, size.height) == CanvasPos(offset.value.x - origin.x, offset.value.y - origin.y)
  {
    if !hasCanvas then NoAction
    else match offset
      case None => NoAction
      case Some(client) =>
        var pixel := CanvasPos(client.x - origin.x, client.y - origin.y);
        var logical := CanvasToManim(pixel, size.width, size.height);
        CanvasRoundTrip(pixel, size.width, size.height);
        if item.tag == LibraryItemTag && item.objectType.Some? then AddAt(item.objectType.value, logical)
        else if item.tag == CanvasItemTag then MoveTo(item.id, logical)
        else NoAction
  }

  // ---------------------------------------------------------------------------
  // Clicks
  // ---------------------------------------------------------------------------

  /** What a click lands on: the canvas element itself, one of the decorative
      layers drawn over it (grid, label), or an object's icon. */
  datatype ClickTarget = CanvasSurface | Decoration | ObjectIcon(id: string)

  datatype SelectionChange = Unchanged | SetSelection(sel: Option<string>)

  /** A click on the canvas element clears the selection; a click on an object
      selects it (and does not reach the canvas); any other click does nothing. */
  function HandleClick(target: ClickTarget): (c: SelectionChange)
    ensures c == SetSelection(None) <==> target == CanvasSurface
    ensures target.ObjectIcon? <==> c.SetSelection? && c.sel.Some?
    ensures target.ObjectIcon? ==> c.sel == Some(target.id)
    ensures target == Decoration <==> c == Unchanged
  {
    match target
    case CanvasSurface => SetSelection(None)
    case Decoration => Unchanged
    case ObjectIcon(id) => SetSelection(Some(id))
  }

  // ---------------------------------------------------------------------------
  // Placement
  // ---------------------------------------------------------------------------

  const LayerBase: int := 20

  /** Where an object is drawn: its position in pixels and its stacking order. */
  datatype Placement = Placement(at: CanvasPos, zIndex: int)

  function PlaceObject(o: SceneObject, size: CanvasSize): (p: Placement)
    ensures size.width != 0.0 && size.height != 0.0 ==> CanvasToManim(p.at, size.width, size.height) == o.position
    ensures p.zIndex - LayerBase == o.layer
  {
    var at := ManimToCanvas(o.position, size.width, size.height);
    assert size.width != 0.0 && size.height != 0.0 ==> CanvasToManim(at, size.width, size.height) == o.position by {
      if size.width != 0.0 && size.height != 0.0 {
        ManimRoundTrip(o.position, size.width, size.height);
      }
    }
    Placement(at, o.layer + LayerBase)
  }

  /** A higher layer is drawn above a lower one, whatever the canvas size. */
  lemma HigherLayerDrawnAbove(o1: SceneObject, o2: SceneObject, size: CanvasSize)
    requires o1.layer < o2.layer
    ensures PlaceObject(o1, size).zIndex < PlaceObject(o2, size).zIndex
  {
  }
}
