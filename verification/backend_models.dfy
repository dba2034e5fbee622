/** The backend's request models (backend/app/models/scene.py): validation of a
    parsed request document into typed records, with the declared defaults and
    constraints. A raw record holds each field as `None` when the document does
    not carry it (or carries something of the wrong shape). Validation reports
    the first offending field in declaration order. */
module BackendModels {
  import opened Wrappers
  import opened SceneTypes
  import SceneSerializer

  /** Why a document was refused: a required field is absent, or a field breaks
      its constraint (an unknown literal, a wrong length). */
  datatype FieldError = Missing(field: string) | Invalid(field: string)

  // ---------------------------------------------------------------------------
  // Validated records
  // ---------------------------------------------------------------------------

  /** A keyframe; its property dictionary and transition are taken as they come. */
  datatype BState = BState(id: string, timestamp: real, properties: ObjectPatch, transition: Option<Transition>)

  datatype BObject = BObject(
    id: string,
    kind: Kind,
    position: seq<real>,
    rotation: real,
    scale: real,
    properties: Props,
    states: seq<BState>,
    layer: int)

  datatype BSettings = BSettings(width: int, height: int, backgroundColor: string, frameRate: int, quality: Quality)

  datatype BMetadata = BMetadata(created: int, modified: int, version: string)

  datatype BScene = BScene(id: string, objects: seq<BObject>, settings: BSettings, metadata: BMetadata)

  datatype BRequest = BRequest(scene: BScene, request: string, settings: Option<Props>)

  // ---------------------------------------------------------------------------
  // Raw documents
  // ---------------------------------------------------------------------------

  datatype RawState = RawState(id: Option<string>, timestamp: Option<real>, properties: Option<ObjectPatch>,
                               transition: Option<Transition>)

  datatype RawObject = RawObject(
    id: Option<string>,
    typeName: Option<string>,
    position: Option<seq<real>>,
    rotation: Option<real>,
    scale: Option<real>,
    properties: Option<Props>,
    states: Option<seq<RawState>>,
    layer: Option<int>)

  datatype RawSettings = RawSettings(width: Option<int>, height: Option<int>, backgroundColor: Option<string>,
                                     frameRate: Option<int>, quality: Option<string>)

  /** Dates are carried as already-read times; `None` is an absent or unreadable date. */
  datatype RawMetadata = RawMetadata(created: Option<int>, modified: Option<int>, version: Option<string>)

  datatype RawScene = RawScene(id: Option<string>, objects: Option<seq<RawObject>>,
                               settings: Option<RawSettings>, metadata: Option<RawMetadata>)

  datatype RawRequest = RawRequest(scene: Option<RawScene>, request: Option<string>, settings: Option<Props>)

  /** The bounds on the length of a request text. */
  const MinRequestLength: nat := 1
  const MaxRequestLength: nat := 1000

  // ---------------------------------------------------------------------------
  // Validation
  // ---------------------------------------------------------------------------

  predicate StateValid(r: RawState) {
    r.id.Some? && r.timestamp.Some? && r.properties.Some?
  }

  /** A keyframe needs its id, timestamp and properties; the transition is optional. */
  function ValidateState(r: RawState): (res: Result<BState, FieldError>)
    ensures res.Success? <==> StateValid(r)
    ensures res.Success? ==> res.value == BState(r.id.value, r.timestamp.value, r.properties.value, r.transition)
  {
    if r.id.None? then Failure(Missing("id"))
    else if r.timestamp.None? then Failure(Missing("timestamp"))
    else if r.properties.None? then Failure(Missing("properties"))
    else Success(BState(r.id.value, r.timestamp.value, r.properties.value, r.transition))
  }

  /** Validates a list element by element; the first bad element decides the error. */
  function ValidateStates(rs: seq<RawState>): (res: Result<seq<BState>, FieldError>)
    ensures res.Success? <==> forall i :: 0 <= i < |rs| ==> StateValid(rs[i])
    ensures res.Success? ==> |res.value| == |rs|
    ensures res.Success? ==> forall i :: 0 <= i < |rs| ==> Success(res.value[i]) == ValidateState(rs[i])
  {
    if rs == [] then Success([])
    else
      match ValidateState(rs[0])
      case Failure(e) => Failure(e)
      case Success(s) =>
        match ValidateStates(rs[1..])
        case Failure(e) => Failure(e)
        case Success(ss) => Success([s] + ss)
  }

  predicate ObjectValid(r: RawObject) {
    && r.id.Some?
    && r.typeName.Some? && KindFromName(r.typeName.value).Some?
    && r.position.Some? && |r.position.value| == 2
    && r.properties.Some?
    && (r.states.Some? ==> forall i :: 0 <= i < |r.states.value| ==> StateValid(r.states.value[i]))
  }

  /** An object needs an id, one of the six type tags, a position of exactly two
      numbers and a property map; rotation, scale, states and layer default to
      0, 1, no states and 0. */
  function ValidateObject(r: RawObject): (res: Result<BObject, FieldError>)
    ensures res.Success? <==> ObjectValid(r)
    ensures res.Success? ==> (
      && res.value.id == r.id.value
      && KindName(res.value.kind) == r.typeName.value
      && res.value.position == r.position.value && |res.value.position| == 2
      && res.value.rotation == r.rotation.GetOr(0.0)
      && res.value.scale == r.scale.GetOr(1.0)
      && res.value.properties == r.properties.value
      && (r.states.None? ==> res.value.states == [])
      && (r.states.Some? ==> Success(res.value.states) == ValidateStates(r.states.value))
      && res.value.layer == r.layer.GetOr(0))
    ensures r.typeName.Some? && KindFromName(r.typeName.value).None? && r.id.Some? ==> res == Failure(Invalid("type"))
  {
    if r.id.None? then Failure(Missing("id"))
    else if r.typeName.None? then Failure(Missing("type"))
    else if KindFromName(r.typeName.value).None? then Failure(Invalid("type"))
    else if r.position.None? then Failure(Missing("position"))
    else if |r.position.value| != 2 then Failure(Invalid("position"))
    else if r.properties.None? then Failure(Missing("properties"))
    else
      var states := if r.states.Some? then ValidateStates(r.states.value) else Success([]);
      match states
      case Failure(e) => Failure(e)
      case Success(ss) =>
        Success(BObject(r.id.value, KindFromName(r.typeName.value).value, r.position.value,
                        r.rotation.GetOr(0.0), r.scale.GetOr(1.0), r.properties.value, ss, r.layer.GetOr(0)))
  }

  function ValidateObjects(rs: seq<RawObject>): (res: Result<seq<BObject>, FieldError>)
    ensures res.Success? <==> forall i :: 0 <= i < |rs| ==> ObjectValid(rs[i])
    ensures res.Success? ==> |res.value| == |rs|
    ensures res.Success? ==> forall i :: 0 <= i < |rs| ==> Success(res.value[i]) == ValidateObject(rs[i])
  {
    if rs == [] then Success([])
    else
      match ValidateObject(rs[0])
      case Failure(e) => Failure(e)
      case Success(o) =>
        match ValidateObjects(rs[1..])
        case Failure(e) => Failure(e)
        case Success(os) => Success([o] + os)
  }

  /** Every settings field is optional; quality must be one of the three names. */
  function ValidateSettings(r: RawSettings): (res: Result<BSettings, FieldError>)
    ensures res.Success? <==> r.quality.None? || QualityFromName(r.quality.value).Some?
    ensures res.Success? ==> (
      && res.value.width == r.width.GetOr(1920)
      && res.value.height == r.height.GetOr(1080)
      && res.value.backgroundColor == r.backgroundColor.GetOr("#000000")
      && res.value.frameRate == r.frameRate.GetOr(60)
      && QualityName(res.value.quality) == r.quality.GetOr("medium"))
  {
    var q := QualityFromName(r.quality.GetOr("medium"));
    if q.None? then Failure(Invalid("quality"))
    else Success(BSettings(r.width.GetOr(1920), r.height.GetOr(1080), r.backgroundColor.GetOr("#000000"),
                           r.frameRate.GetOr(60), q.value))
  }

  /** Both dates are required; the version defaults to "1.0.0". */
  function ValidateMetadata(r: RawMetadata): (res: Result<BMetadata, FieldError>)
    ensures res.Success? <==> r.created.Some? && r.modified.Some?
    ensures res.Success? ==> res.value == BMetadata(r.created.value, r.modified.value, r.version.GetOr("1.0.0"))
  {
    if r.created.None? then Failure(Missing("created"))
    else if r.modified.None? then Failure(Missing("modified"))
    else Success(BMetadata(r.created.value, r.modified.value, r.version.GetOr("1.0.0")))
  }

  predicate SceneValid(r: RawScene) {
    && r.id.Some?
    && (r.objects.Some? ==> forall i :: 0 <= i < |r.objects.value| ==> ObjectValid(r.objects.value[i]))
    && r.settings.Some? && ValidateSettings(r.settings.value).Success?
    && r.metadata.Some? && ValidateMetadata(r.metadata.value).Success?
  }

  /** A scene needs an id, settings and metadata; its object list defaults to empty. */
  function ValidateScene(r: RawScene): (res: Result<BScene, FieldError>)
    ensures res.Success? <==> SceneValid(r)
    ensures res.Success? ==> (
      && res.value.id == r.id.value
      && (r.objects.None? ==> res.value.objects == [])
      && (r.objects.Some? ==> Success(res.value.objects) == ValidateObjects(r.objects.value))
      && Success(res.value.settings) == ValidateSettings(r.settings.value)
      && Success(res.value.metadata) == ValidateMetadata(r.metadata.value))
  {
    if r.id.None? then Failure(Missing("id"))
    else
      var objects := if r.objects.Some? then ValidateObjects(r.objects.value) else Success([]);
      match objects
      case Failure(e) => Failure(e)
      case Success(os) =>
        if r.settings.None? then Failure(Missing("settings"))
        else
          match ValidateSettings(r.settings.value)
          case Failure(e) => Failure(e)
          case Success(s) =>
            if r.metadata.None? then Failure(Missing("metadata"))
            else
              match ValidateMetadata(r.metadata.value)
              case Failure(e) => Failure(e)
              case Success(m) => Success(BScene(r.id.value, os, s, m))
  }

  /** A request needs a valid scene and a request text of 1 to 1000 characters;
      its extra settings are optional. */
  function ValidateRequest(r: RawRequest): (res: Result<BRequest, FieldError>)
    ensures res.Success? <==> (r.scene.Some? && SceneValid(r.scene.value) && r.request.Some?
                               && MinRequestLength <= |r.request.value| <= MaxRequestLength)
    ensures res.Success? ==> res.value.request == r.request.value && res.value.settings == r.settings
    ensures res.Success? ==> Success(res.value.scene) == ValidateScene(r.scene.value)
  {
    if r.scene.None? then Failure(Missing("scene"))
    else
      match ValidateScene(r.scene.value)
      case Failure(e) => Failure(e)
      case Success(s) =>
        if r.request.None? then Failure(Missing("request"))
        else if !(MinRequestLength <= |r.request.value| <= MaxRequestLength) then Failure(Invalid("request"))
        else Success(BRequest(s, r.request.value, r.settings))
  }

  // ---------------------------------------------------------------------------
  // Agreement with the editor's document
  // ---------------------------------------------------------------------------

  /** An empty settings record validates to the editor's default settings. */
  lemma DefaultSettingsAgree()
    ensures ValidateSettings(RawSettings(None, None, None, None, None)).Success?
    ensures var s := ValidateSettings(RawSettings(None, None, None, None, None)).value;
            var d := SceneSerializer.DefaultSettings;
            s == BSettings(d.width, d.height, d.backgroundColor, d.frameRate, d.quality)
  {
  }

  /** An empty metadata version reads as the editor's schema version. */
  lemma DefaultVersionAgrees(created: int, modified: int)
    ensures ValidateMetadata(RawMetadata(Some(created), Some(modified), None))
            == Success(BMetadata(created, modified, SceneSerializer.SchemaVersion))
  {
  }

  /** The document the editor writes for one keyframe. */
  function StateDocument(s: ObjectState): RawState {
    RawState(Some(s.id), Some(s.timestamp), Some(s.patch), s.transition)
  }

  /** The document the editor writes for one object: its values as JSON
      writes them (a NaN becomes null), the type tag, and the position as a
      two-element list. */
  function ObjectDocument(o: SceneObject): RawObject {
    var w := SceneSerializer.WireObject(o);
    RawObject(Some(w.id), Some(KindName(w.kind)), Some([w.position.x, w.position.y]), Some(w.rotation),
              Some(w.scale), Some(w.properties), Some(seq(|w.states|, i requires 0 <= i < |w.states| => StateDocument(w.states[i]))),
              Some(w.layer))
  }

  /** The backend record an editor object should become: the object as
      written, so a NaN property arrives as null. */
  function BackendObject(o: SceneObject): (b: BObject)
    ensures b.properties == SceneSerializer.WireProps(o.properties)
  {
    var w := SceneSerializer.WireObject(o);
    BObject(w.id, w.kind, [w.position.x, w.position.y], w.rotation, w.scale, w.properties,
            seq(|w.states|, i requires 0 <= i < |w.states| => BState(w.states[i].id, w.states[i].timestamp,
                                                                   w.states[i].patch, w.states[i].transition)),
            w.layer)
  }

  /** Every object the editor writes is accepted and read back as itself. */
  lemma ObjectDocumentValidates(o: SceneObject)
    ensures ValidateObject(ObjectDocument(o)) == Success(BackendObject(o))
  {
    KindNameRoundTrip(o.kind, KindName(o.kind));
    var d := ObjectDocument(o);
    var ss := ValidateStates(d.states.value);
    assert ss.Success?;
    assert ss.value == BackendObject(o).states;
  }

  /** The documents of a list of objects, in order. */
  function ObjectDocuments(objs: seq<SceneObject>): (ds: seq<RawObject>)
    ensures |ds| == |objs|
  {
    seq(|objs|, i requires 0 <= i < |objs| => ObjectDocument(objs[i]))
  }

  function BackendObjects(objs: seq<SceneObject>): (bs: seq<BObject>)
    ensures |bs| == |objs|
  {
    seq(|objs|, i requires 0 <= i < |objs| => BackendObject(objs[i]))
  }

  /** A whole object list the editor writes is accepted, object for object. */
  lemma ObjectDocumentsValidate(objs: seq<SceneObject>)
    ensures ValidateObjects(ObjectDocuments(objs)) == Success(BackendObjects(objs))
  {
    var ds := ObjectDocuments(objs);
    forall i | 0 <= i < |ds|
      ensures ValidateObject(ds[i]) == Success(BackendObject(objs[i]))
    {
      ObjectDocumentValidates(objs[i]);
    }
    var res := ValidateObjects(ds);
    assert res.Success?;
    forall i | 0 <= i < |objs|
      ensures res.value[i] == BackendObjects(objs)[i]
    {
      assert Success(res.value[i]) == ValidateObject(ds[i]);
    }
    assert res.value == BackendObjects(objs);
  }


  /** The document the editor writes for its settings. */
  function SettingsDocument(st: Settings): RawSettings {
    RawSettings(Some(st.width), Some(st.height), Some(st.backgroundColor), Some(st.frameRate), Some(QualityName(st.quality)))
  }

  /** The editor's settings are always accepted and read back unchanged. */
  lemma SettingsDocumentValidates(st: Settings)
    ensures ValidateSettings(SettingsDocument(st))
            == Success(BSettings(st.width, st.height, st.backgroundColor, st.frameRate, st.quality))
  {
    QualityNameRoundTrip(st.quality, QualityName(st.quality));
  }

  /** The document the editor writes for its metadata; an invalid date is
      written as null, which the backend cannot read as a date. */
  function MetadataDocument(m: Metadata): RawMetadata {
    RawMetadata(if m.created.Millis? then Some(m.created.ms) else None,
                if m.modified.Millis? then Some(m.modified.ms) else None,
                Some(m.version))
  }

  /** The document the editor writes for a scene. */
  function SceneDocument(s: SceneData): RawScene {
    RawScene(Some(s.id), Some(ObjectDocuments(s.objects)),
             Some(SettingsDocument(s.settings)), Some(MetadataDocument(s.metadata)))
  }

  /** A scene the editor writes is accepted exactly when both its dates are
      valid, and then it reads back field for field. */
  lemma SceneDocumentValidates(s: SceneData)
    ensures ValidateScene(SceneDocument(s)).Success? <==> s.metadata.created.Millis? && s.metadata.modified.Millis?
    ensures ValidateScene(SceneDocument(s)).Success? ==>
              ValidateScene(SceneDocument(s)).value
              == BScene(s.id, BackendObjects(s.objects),
                        BSettings(s.settings.width, s.settings.height, s.settings.backgroundColor,
                                  s.settings.frameRate, s.settings.quality),
                        BMetadata(s.metadata.created.ms, s.metadata.modified.ms, s.metadata.version))
  {
    ObjectDocumentsValidate(s.objects);
    SettingsDocumentValidates(s.settings);
  }
}
