/** The affine map between canvas pixels (origin top-left, y down) and the
    renderer's logical space, which always spans 14 units across and 8 units
    down the canvas, origin at the centre, y up
    (frontend/src/lib/utils/scene-serializer.ts, class CoordinateTransform).
    Numbers are exact reals. */
module CoordinateTransform {
  import opened SceneTypes

  const UnitsWide: real := 14.0
  const UnitsHigh: real := 8.0

  /** Canvas pixels to logical units; the canvas must have non-zero sides. */
  function CanvasToManim(p: CanvasPos, w: real, h: real): (q: Position)
    requires w != 0.0 && h != 0.0
    ensures q.x * (w / UnitsWide) == p.x - w / 2.0
    ensures q.y * (h / UnitsHigh) == h / 2.0 - p.y
  {
    Position((p.x - w / 2.0) / (w / UnitsWide), -(p.y - h / 2.0) / (h / UnitsHigh))
  }

  /** Logical units to canvas pixels. */
  function ManimToCanvas(q: Position, w: real, h: real): (p: CanvasPos)
    ensures p.x - w / 2.0 == q.x * (w / UnitsWide)
    ensures h / 2.0 - p.y == q.y * (h / UnitsHigh)
  {
    CanvasPos(q.x * (w / UnitsWide) + w / 2.0, -q.y * (h / UnitsHigh) + h / 2.0)
  }

  /** Converting a pixel to logical units and back returns the same pixel. */
  lemma CanvasRoundTrip(p: CanvasPos, w: real, h: real)
    requires w != 0.0 && h != 0.0
    ensures ManimToCanvas(CanvasToManim(p, w, h), w, h) == p
  {
  }

  /** Converting a logical position to pixels and back returns the same position. */
  lemma ManimRoundTrip(q: Position, w: real, h: real)
    requires w != 0.0 && h != 0.0
    ensures CanvasToManim(ManimToCanvas(q, w, h), w, h) == q
  {
    var p := ManimToCanvas(q, w, h);
    var r := CanvasToManim(p, w, h);
    assert r.x * (w / UnitsWide) == q.x * (w / UnitsWide);
    assert r.y * (h / UnitsHigh) == q.y * (h / UnitsHigh);
  }

  /** The canvas centre is the logical origin. */
  lemma CentreIsOrigin(w: real, h: real)
    requires w != 0.0 && h != 0.0
    ensures CanvasToManim(CanvasPos(w / 2.0, h / 2.0), w, h) == Position(0.0, 0.0)
  {
  }

  /** The bottom-right corner is (7, -4) and the top-left corner (-7, 4). */
  lemma CornersAreSevenByFour(w: real, h: real)
    requires w != 0.0 && h != 0.0
    ensures CanvasToManim(CanvasPos(w, h), w, h) == Position(7.0, -4.0)
    ensures CanvasToManim(CanvasPos(0.0, 0.0), w, h) == Position(-7.0, 4.0)
  {
  }

  /** On a canvas of positive size, moving down the canvas lowers the logical y,
      and moving right raises the logical x. */
  lemma AxesOrientation(p1: CanvasPos, p2: CanvasPos, w: real, h: real)
    requires w > 0.0 && h > 0.0
    ensures p1.y < p2.y ==> CanvasToManim(p1, w, h).y > CanvasToManim(p2, w, h).y
    ensures p1.x < p2.x ==> CanvasToManim(p1, w, h).x < CanvasToManim(p2, w, h).x
  {
  }
}
