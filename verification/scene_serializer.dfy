/** Scene construction and the metadata/date handling of the serializer
    (frontend/src/lib/utils/scene-serializer.ts, class SceneSerializer).
    Fresh ids and the current time are passed in by the caller. */
module SceneSerializer {
  import opened Wrappers
  import opened Strings
  import opened SceneTypes

  const RenderWidth: int := 1920
  const RenderHeight: int := 1080
  const SchemaVersion: string := "1.0.0"

  /** The settings every new scene starts with. */
  const DefaultSettings: Settings := Settings(RenderWidth, RenderHeight, "#000000", 60, Medium)

  /** A new scene: no objects, default settings, both dates set to `now`. The
      source reads the clock once for each date; both readings are taken to be
      the same instant `now`. */
  function EmptyScene(id: string, now: int): (s: SceneData)
    ensures s.id == id && s.objects == []
    ensures s.settings.width == 1920 && s.settings.height == 1080
    ensures s.settings.backgroundColor == "#000000" && s.settings.frameRate == 60
    ensures s.settings.quality == Medium
    ensures s.metadata == Metadata(Millis(now), Millis(now), "1.0.0")
  {
    SceneData(id, [], DefaultSettings, Metadata(Millis(now), Millis(now), SchemaVersion))
  }

  /** The per-kind default property table; Line and Arrow get an empty one. */
  function DefaultProperties(k: Kind): (m: Props)
    ensures m.Keys == InterfaceKeys(k)
    ensures k == Square ==> (m["sideLength"] == Num(2.0) && m["color"] == Str("#3B82F6")
                             && m["fillOpacity"] == Num(0.3) && m["strokeWidth"] == Num(2.0)
                             && m["strokeColor"] == Str("#1E40AF"))
    ensures k == Circle ==> (m["radius"] == Num(1.0) && m["color"] == Str("#EF4444")
                             && m["fillOpacity"] == Num(0.3) && m["strokeWidth"] == Num(2.0)
                             && m["strokeColor"] == Str("#DC2626"))
    ensures k == Text ==> (m["text"] == Str("Text") && m["fontSize"] == Num(24.0)
                           && m["fontFamily"] == Str("Arial") && m["color"] == Str("#FFFFFF")
                           && m["weight"] == Str("normal"))
    ensures k == LaTeX ==> m["tex"] == Str("x^2") && m["fontSize"] == Num(24.0) && m["color"] == Str("#FFFFFF")
  {
    match k
    case Square => map["sideLength" := Num(2.0), "color" := Str("#3B82F6"), "fillOpacity" := Num(0.3),
                       "strokeWidth" := Num(2.0), "strokeColor" := Str("#1E40AF")]
    case Circle => map["radius" := Num(1.0), "color" := Str("#EF4444"), "fillOpacity" := Num(0.3),
                       "strokeWidth" := Num(2.0), "strokeColor" := Str("#DC2626")]
    case Text => map["text" := Str("Text"), "fontSize" := Num(24.0), "fontFamily" := Str("Arial"),
                     "color" := Str("#FFFFFF"), "weight" := Str("normal")]
    case LaTeX => map["tex" := Str("x^2"), "fontSize" := Num(24.0), "color" := Str("#FFFFFF")]
    case Line => map[]
    case Arrow => map[]
  }

  /** A new object of kind `k` at `pos`: upright, unit scale, no states, layer 0,
      and the kind's defaults with every caller-supplied property winning. */
  function CreateObject(id: string, k: Kind, pos: Position, overrides: Props): (o: SceneObject)
    ensures o.id == id && o.kind == k && o.position == pos
    ensures o.rotation == 0.0 && o.scale == 1.0 && o.states == [] && o.layer == 0
    ensures o.properties.Keys == InterfaceKeys(k) + overrides.Keys
    ensures forall key :: key in overrides ==> o.properties[key] == overrides[key]
    ensures forall key :: key in InterfaceKeys(k) && key !in overrides ==> o.properties[key] == DefaultProperties(k)[key]
  {
    SceneObject(id, k, pos, 0.0, 1.0, DefaultProperties(k) + overrides, [], 0)
  }

  /** Stamps `now` as the modification time; nothing else changes. */
  function UpdateMetadata(s: SceneData, now: int): (r: SceneData)
    ensures r.id == s.id && r.objects == s.objects && r.settings == s.settings
    ensures r.metadata.created == s.metadata.created && r.metadata.version == s.metadata.version
    ensures r.metadata.modified == Millis(now)
  {
    s.(metadata := s.metadata.(modified := Millis(now)))
  }

  // ---------------------------------------------------------------------------
  // Serialized form. The text encoding itself belongs to the JSON library; the
  // model keeps the document's structure and the one step the serializer
  // performs on it: dates travel as text and are rebuilt into dates on load.
  // ---------------------------------------------------------------------------

  /** A date field as it stands in a parsed document. */
  datatype WireDate = DateText(text: string) | DateNull | DateMissing

  datatype WireMetadata = WireMetadata(created: WireDate, modified: WireDate, version: string)

  /** A parsed document; `metadata` is `None` when the field is absent. */
  datatype WireScene = WireScene(id: string, objects: seq<SceneObject>, settings: Settings, metadata: Option<WireMetadata>)

  datatype DecodeError = MissingMetadata

  /** A date as the encoder writes it: its time as text, or null when invalid. */
  function EncodeDate(d: Date): (w: WireDate)
    ensures d.Millis? <==> w.DateText?
  {
    match d
    case Millis(n) => DateText(IntToDecimal(n))
    case InvalidDate => DateNull
  }

  /** Rebuilds a date the way the `Date` constructor does: readable text gives
      that time, null gives time zero, anything else an invalid date. */
  function DecodeDate(w: WireDate): (d: Date)
    ensures w.DateNull? ==> d == Millis(0)
    ensures w.DateMissing? ==> d == InvalidDate
    ensures w.DateText? ==> (d.Millis? <==> ParseInteger(w.text).Some?)
  {
    match w
    case DateText(t) => (match ParseInteger(t) case Some(n) => Millis(n) case None => InvalidDate)
    case DateNull => Millis(0)
    case DateMissing => InvalidDate
  }

  /** Every valid date survives encoding and decoding. */
  lemma DateRoundTrip(d: Date)
    requires d.Millis?
    ensures DecodeDate(EncodeDate(d)) == d
  {
    ParseIntToDecimal(d.ms);
  }

  /** A property value as JSON writes it: NaN has no JSON form and becomes null;
      every other value is written as it is. */
  function WireValue(v: Value): (w: Value)
    ensures v.NotANumber? ==> w == Null
    ensures !v.NotANumber? ==> w == v
    ensures !w.NotANumber?
  {
    if v.NotANumber? then Null else v
  }

  /** A property map as written: the same keys, each value as JSON writes it. */
  function WireProps(p: Props): (q: Props)
    ensures q.Keys == p.Keys
    ensures forall k :: k in p ==> q[k] == WireValue(p[k])
  {
    map k | k in p :: WireValue(p[k])
  }

  /** A keyframe as written: the property values of its patch, and of every
      keyframe nested in it, as JSON writes them. */
  function WireState(st: ObjectState): (r: ObjectState)
    ensures r.id == st.id && r.timestamp == st.timestamp && r.transition == st.transition
    decreases st
  {
    var p := st.patch;
    var props := if p.properties.Some? then Some(WireProps(p.properties.value)) else None;
    var nested := match p.states
                  case Some(Keyframes(ss)) => Some(Keyframes(seq(|ss|, i requires 0 <= i < |ss| => WireState(ss[i]))))
                  case None => None;
    st.(patch := p.(properties := props, states := nested))
  }

  /** An object as written: its property values and keyframes as JSON writes
      them; every other field is unchanged. */
  function WireObject(o: SceneObject): (r: SceneObject)
    ensures r.id == o.id && r.kind == o.kind && r.position == o.position && r.rotation == o.rotation
    ensures r.scale == o.scale && r.layer == o.layer && |r.states| == |o.states|
    ensures r.properties == WireProps(o.properties)
    ensures forall i :: 0 <= i < |o.states| ==> r.states[i] == WireState(o.states[i])
  {
    o.(properties := WireProps(o.properties),
       states := seq(|o.states|, i requires 0 <= i < |o.states| => WireState(o.states[i])))
  }

  /** The document written for a scene: id and settings as they are, each
      object as JSON writes it, and the dates as text. */
  function Serialize(s: SceneData): (w: WireScene)
    ensures w.metadata.Some? && w.id == s.id && w.settings == s.settings
    ensures |w.objects| == |s.objects|
    ensures forall i :: 0 <= i < |s.objects| ==> w.objects[i] == WireObject(s.objects[i])
  {
    WireScene(s.id, seq(|s.objects|, i requires 0 <= i < |s.objects| => WireObject(s.objects[i])), s.settings,
      Some(WireMetadata(EncodeDate(s.metadata.created), EncodeDate(s.metadata.modified), s.metadata.version)))
  }

  /** Rebuilds the two dates; a document without metadata is refused. Nothing
      else is checked. */
  function Deserialize(w: WireScene): (r: Result<SceneData, DecodeError>)
    ensures r.Failure? <==> w.metadata.None?
    ensures r.Success? ==> r.value.id == w.id && r.value.objects == w.objects && r.value.settings == w.settings
    ensures r.Success? ==> (r.value.metadata.version == w.metadata.value.version
                            && r.value.metadata.created == DecodeDate(w.metadata.value.created)
                            && r.value.metadata.modified == DecodeDate(w.metadata.value.modified))
  {
    match w.metadata
    case None => Failure(MissingMetadata)
    case Some(m) => Success(SceneData(w.id, w.objects, w.settings,
                                      Metadata(DecodeDate(m.created), DecodeDate(m.modified), m.version)))
  }

  // ---------------------------------------------------------------------------
  // What survives a reload
  // ---------------------------------------------------------------------------

  predicate PropsHaveNoNaN(p: Props) {
    forall k :: k in p ==> !p[k].NotANumber?
  }

  /** No property value of the keyframe, or of a keyframe nested in it, is NaN. */
  predicate StateHasNoNaN(st: ObjectState)
    decreases st
  {
    && (st.patch.properties.Some? ==> PropsHaveNoNaN(st.patch.properties.value))
    && match st.patch.states
       case Some(Keyframes(ss)) => forall i :: 0 <= i < |ss| ==> StateHasNoNaN(ss[i])
       case None => true
  }

  predicate ObjectHasNoNaN(o: SceneObject) {
    PropsHaveNoNaN(o.properties) && forall i :: 0 <= i < |o.states| ==> StateHasNoNaN(o.states[i])
  }

  /** A property map with no NaN in it is written exactly as it is. */
  lemma NaNFreePropsWrittenAsIs(p: Props)
    requires PropsHaveNoNaN(p)
    ensures WireProps(p) == p
  {
    assert forall k :: k in p ==> WireProps(p)[k] == p[k];
  }

  /** A keyframe with no NaN in it is written exactly as it is. */
  lemma {:induction false} NaNFreeStateWrittenAsIs(st: ObjectState)
    requires StateHasNoNaN(st)
    ensures WireState(st) == st
    decreases st
  {
    var p := st.patch;
    if p.properties.Some? {
      NaNFreePropsWrittenAsIs(p.properties.value);
    }
    match p.states
    case Some(Keyframes(ss)) =>
      forall i | 0 <= i < |ss|
        ensures WireState(ss[i]) == ss[i]
      {
        NaNFreeStateWrittenAsIs(ss[i]);
      }
      assert WireState(st).patch.states.value.list == ss;
      assert WireState(st).patch.states == p.states;
    case None =>
  }

  /** An object with no NaN in it is written exactly as it is. */
  lemma NaNFreeObjectWrittenAsIs(o: SceneObject)
    requires ObjectHasNoNaN(o)
    ensures WireObject(o) == o
  {
    NaNFreePropsWrittenAsIs(o.properties);
    forall i | 0 <= i < |o.states|
      ensures WireState(o.states[i]) == o.states[i]
    {
      NaNFreeStateWrittenAsIs(o.states[i]);
    }
  }

  /** A scene whose dates are valid and which holds no NaN reloads field for
      field. */
  lemma SerializeRoundTrip(s: SceneData)
    requires s.metadata.created.Millis? && s.metadata.modified.Millis?
    requires forall i :: 0 <= i < |s.objects| ==> ObjectHasNoNaN(s.objects[i])
    ensures Deserialize(Serialize(s)) == Success(s)
  {
    DateRoundTrip(s.metadata.created);
    DateRoundTrip(s.metadata.modified);
    forall i | 0 <= i < |s.objects|
      ensures WireObject(s.objects[i]) == s.objects[i]
    {
      NaNFreeObjectWrittenAsIs(s.objects[i]);
    }
    assert Serialize(s).objects == s.objects;
  }

  /** A NaN property reloads as null; every other property of the object
      reloads as it was. */
  lemma NaNReloadsAsNull(s: SceneData, i: nat, key: string)
    requires i < |s.objects| && key in s.objects[i].properties
    ensures Deserialize(Serialize(s)).Success?
    ensures var reloaded := Deserialize(Serialize(s)).value.objects[i].properties;
            && reloaded.Keys == s.objects[i].properties.Keys
            && (s.objects[i].properties[key] == NotANumber ==> reloaded[key] == Null)
            && (s.objects[i].properties[key] != NotANumber ==> reloaded[key] == s.objects[i].properties[key])
  {
  }

  /** An invalid date is written as null and so reloads as time zero. */
  lemma InvalidDateReloadsAsEpoch(s: SceneData)
    requires s.metadata.created == InvalidDate
    ensures Deserialize(Serialize(s)).Success?
    ensures Deserialize(Serialize(s)).value.metadata.created == Millis(0)
  {
  }
}
