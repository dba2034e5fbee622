/** The scene document shared by the editor and the backend: object kinds,
    objects with their open property maps, keyframe states, settings and
    metadata (frontend/src/lib/types/scene.ts, mirrored by
    backend/app/models/scene.py). */
module SceneTypes {
  import opened Wrappers

  /** The six object kinds; Line and Arrow have no property table. */
  datatype Kind = Square | Circle | Text | LaTeX | Line | Arrow

  /** The `type` tag written in the document for each kind. */
  function KindName(k: Kind): string {
    match k
    case Square => "Square"
    case Circle => "Circle"
    case Text => "Text"
    case LaTeX => "LaTeX"
    case Line => "Line"
    case Arrow => "Arrow"
  }

  /** Reads a `type` tag; any other text is not a kind. */
  function KindFromName(s: string): (r: Option<Kind>)
    ensures r.Some? ==> KindName(r.value) == s
  {
    if s == "Square" then Some(Square)
    else if s == "Circle" then Some(Circle)
    else if s == "Text" then Some(Text)
    else if s == "LaTeX" then Some(LaTeX)
    else if s == "Line" then Some(Line)
    else if s == "Arrow" then Some(Arrow)
    else None
  }

  /** The tag set is exactly the six kinds: every kind's tag reads back as that
      kind, and a text reads as a kind only if it is that kind's tag. */
  lemma KindNameRoundTrip(k: Kind, s: string)
    ensures KindFromName(KindName(k)) == Some(k)
    ensures KindFromName(s).Some? <==> s in {"Square", "Circle", "Text", "LaTeX", "Line", "Arrow"}
  {
  }

  /** A logical position: exactly two numbers, in the renderer's unit space. */
  datatype Position = Position(x: real, y: real)

  /** A pixel position on the editor canvas (origin top-left, y down). */
  datatype CanvasPos = CanvasPos(x: real, y: real)

  /** A property value. `NotANumber` is what a failed `parseFloat` stores;
      `Null` is a JSON null, which is what a NaN becomes once written. */
  datatype Value = Num(n: real) | Str(s: string) | NotANumber | Null

  type Props = map<string, Value>

  datatype Easing = Linear | EaseIn | EaseOut | EaseInOut

  /** A transition: a duration, an easing tag and an optional delay. */
  datatype Transition = Transition(duration: real, easing: Easing, delay: Option<real>)

  /** A keyframe: an id, a timestamp, a partial object and an optional transition. */
  datatype ObjectState = ObjectState(id: string, timestamp: real, patch: ObjectPatch, transition: Option<Transition>)

  /** `Partial<ManimObject>`: every top-level key of an object, each optional. */
  datatype ObjectPatch = ObjectPatch(
    id: Option<string>,
    kind: Option<Kind>,
    position: Option<Position>,
    rotation: Option<real>,
    scale: Option<real>,
    properties: Option<Props>,
    states: Option<Keyframes>,
    layer: Option<int>)

  /** The keyframe list a patch may carry in place of the object's own. */
  datatype Keyframes = Keyframes(list: seq<ObjectState>)

  const EmptyPatch: ObjectPatch := ObjectPatch(None, None, None, None, None, None, None, None)

  datatype SceneObject = SceneObject(
    id: string,
    kind: Kind,
    position: Position,
    rotation: real,
    scale: real,
    properties: Props,
    states: seq<ObjectState>,
    layer: int)

  datatype Quality = Low | Medium | High

  function QualityName(q: Quality): string {
    match q
    case Low => "low"
    case Medium => "medium"
    case High => "high"
  }

  function QualityFromName(s: string): (r: Option<Quality>)
    ensures r.Some? ==> QualityName(r.value) == s
  {
    if s == "low" then Some(Low)
    else if s == "medium" then Some(Medium)
    else if s == "high" then Some(High)
    else None
  }

  /** Quality is exactly one of low, medium and high. */
  lemma QualityNameRoundTrip(q: Quality, s: string)
    ensures QualityFromName(QualityName(q)) == Some(q)
    ensures QualityFromName(s).Some? <==> s in {"low", "medium", "high"}
  {
  }

  datatype Settings = Settings(width: int, height: int, backgroundColor: string, frameRate: int, quality: Quality)

  /** A point in time, in milliseconds from the epoch (negative before it);
      `InvalidDate` is what a date built from unreadable text holds. */
  datatype Date = Millis(ms: int) | InvalidDate

  datatype Metadata = Metadata(created: Date, modified: Date, version: string)

  datatype SceneData = SceneData(id: string, objects: seq<SceneObject>, settings: Settings, metadata: Metadata)

  /** What a drag carries: its tag, an id, and for library items the kind to create. */
  datatype DragItem = DragItem(tag: string, id: string, objectType: Option<Kind>)

  /** The keys of the per-kind property interfaces; Line and Arrow have none. */
  function InterfaceKeys(k: Kind): set<string> {
    match k
    case Square => {"sideLength", "color", "fillOpacity", "strokeWidth", "strokeColor"}
    case Circle => {"radius", "color", "fillOpacity", "strokeWidth", "strokeColor"}
    case Text => {"text", "fontSize", "fontFamily", "color", "weight"}
    case LaTeX => {"tex", "fontSize", "color"}
    case Line => {}
    case Arrow => {}
  }

  /** Some object in `objs` carries `id`. */
  predicate HasId(objs: seq<SceneObject>, id: string) {
    exists i | 0 <= i < |objs| :: objs[i].id == id
  }

  /** The scene invariant: no two objects share an id. */
  ghost predicate UniqueIds(objs: seq<SceneObject>) {
    forall i, j :: 0 <= i < j < |objs| ==> objs[i].id != objs[j].id
  }
}
