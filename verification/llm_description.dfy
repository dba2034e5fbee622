/** The scene description sent to the language model
    (backend/app/services/llm_service.py, `_describe_scene`). `show` stands for
    Python's `str()` of a float. */
module SceneDescription {
  import opened Strings
  import opened SceneTypes
  import opened BackendModels
  import ManimCodegen
  import SceneSerializer

  // ---------------------------------------------------------------------------
  // Scene description
  // ---------------------------------------------------------------------------

  const EmptySceneText: string := "Empty scene - no objects present."
  const SceneHeader: string := "Scene objects:\n"

  /** A two-number position as Python prints a list. */
  function PositionText(pos: seq<real>, show: real -> string): string
    requires |pos| == 2
  {
    "[" + show(pos[0]) + ", " + show(pos[1]) + "]"
  }

  /** What follows an object's position in its description: the text of a
      Text, the formula of a LaTeX, the colour of a Square or Circle (with a
      blue fallback for both), nothing for the others. */
  function DescriptionSuffix(o: BObject, show: real -> string): (r: string)
    ensures o.kind in {Line, Arrow} <==> r == []
  {
    match o.kind
    case Text => " with text '" + ManimCodegen.PropText(o.properties, "text", ManimCodegen.PyStr("Text"), show) + "'"
    case LaTeX => " with formula '" + ManimCodegen.PropText(o.properties, "tex", ManimCodegen.PyStr("x^2"), show) + "'"
    case Square => " with color " + ManimCodegen.PropText(o.properties, "color", ManimCodegen.PyStr("#3B82F6"), show)
    case Circle => " with color " + ManimCodegen.PropText(o.properties, "color", ManimCodegen.PyStr("#3B82F6"), show)
    case Line => ""
    case Arrow => ""
  }

  /** One object's line: its type tag, quoted id and position, then the suffix. */
  function DescribeObject(o: BObject, show: real -> string): string
    requires |o.position| == 2
  {
    ObjectHead(o, show) + DescriptionSuffix(o, show)
  }

  function ObjectHead(o: BObject, show: real -> string): string
    requires |o.position| == 2
  {
    "- " + KindName(o.kind) + " '" + o.id + "' at position " + PositionText(o.position, show)
  }

  /** An object's line names its type, id and position, and ends with the
      kind's suffix. */
  lemma DescribeObjectShape(o: BObject, show: real -> string)
    requires |o.position| == 2
    ensures IsPrefixOf("- " + KindName(o.kind) + " '" + o.id + "' at position " + PositionText(o.position, show),
                       DescribeObject(o, show))
    ensures IsSuffixOf(DescriptionSuffix(o, show), DescribeObject(o, show))
  {
    ConcatAffixes(ObjectHead(o, show), DescriptionSuffix(o, show));
  }

  /** The lines describing the objects, in order. */
  function ObjectLines(objs: seq<BObject>, show: real -> string): (ls: seq<string>)
    requires ManimCodegen.PositionsValid(objs)
    ensures |ls| == |objs|
    ensures forall i :: 0 <= i < |objs| ==> ls[i] == DescribeObject(objs[i], show)
  {
    seq(|objs|, i requires 0 <= i < |objs| && ManimCodegen.PositionsValid(objs) => DescribeObject(objs[i], show))
  }

  /** The scene description: a fixed sentence for an empty scene, otherwise a
      header line and one line per object. */
  function DescribeScene(objs: seq<BObject>, show: real -> string): (r: string)
    requires ManimCodegen.PositionsValid(objs)
    ensures objs == [] ==> r == EmptySceneText
    ensures objs != [] ==> IsPrefixOf(SceneHeader, r) && r[|SceneHeader|..] == Join(ObjectLines(objs, show), '\n')
  {
    if objs == [] then EmptySceneText
    else
      var r := SceneHeader + Join(ObjectLines(objs, show), '\n');
      ConcatAffixes(SceneHeader, Join(ObjectLines(objs, show), '\n'));
      r
  }

  /** The description built line by line, the way the service appends. */
  method DescribeSceneLoop(objs: seq<BObject>, show: real -> string) returns (r: string)
    requires ManimCodegen.PositionsValid(objs)
    ensures r == DescribeScene(objs, show)
  {
    if |objs| == 0 {
      return EmptySceneText;
    }
    var descriptions: seq<string> := [];
    var i := 0;
    while i < |objs|
      invariant 0 <= i <= |objs| && |descriptions| == i
      invariant forall k :: 0 <= k < i ==> descriptions[k] == DescribeObject(objs[k], show)
    {
      descriptions := descriptions + [DescribeObject(objs[i], show)];
      i := i + 1;
    }
    assert descriptions == ObjectLines(objs, show);
    r := SceneHeader + Join(descriptions, '\n');
  }

  /** When no description holds a line break, the description reads back as
      the header and then one line per object, in order. */
  lemma {:induction false} DescriptionLines(objs: seq<BObject>, show: real -> string)
    requires ManimCodegen.PositionsValid(objs) && objs != []
    requires forall i :: 0 <= i < |objs| ==> '\n' !in DescribeObject(objs[i], show)
    ensures Split(DescribeScene(objs, show), '\n') == ["Scene objects:"] + ObjectLines(objs, show)
  {
    var ls := ObjectLines(objs, show);
    SplitJoin(ls, '\n');
    assert SceneHeader == "Scene objects:" + ['\n'];
    SplitPrefix("Scene objects:", Join(ls, '\n'), '\n');
  }

  /** What each suffix says, for every object: the `text` property of a Text
      (falling back to 'Text'), the `tex` of a LaTeX (falling back to 'x^2'),
      and the `color` of a Square or Circle (falling back to #3B82F6); a
      present value is printed as the generator prints property values. */
  lemma DescriptionSuffixText(o: BObject, show: real -> string)
    ensures o.kind == Text ==>
              DescriptionSuffix(o, show)
              == " with text '" + (if "text" in o.properties then ManimCodegen.ValueText(o.properties["text"], show) else "Text") + "'"
    ensures o.kind == LaTeX ==>
              DescriptionSuffix(o, show)
              == " with formula '" + (if "tex" in o.properties then ManimCodegen.ValueText(o.properties["tex"], show) else "x^2") + "'"
    ensures o.kind == Square || o.kind == Circle ==>
              DescriptionSuffix(o, show)
              == " with color " + (if "color" in o.properties then ManimCodegen.ValueText(o.properties["color"], show) else "#3B82F6")
  {
  }

  /** For a Text, a LaTeX and a Square the fallback is the factory default, so
      an object with its factory properties is described exactly as one with
      none. */
  lemma FactoryPropertiesDescribeLikeFallbacks(o: BObject, show: real -> string)
    requires o.kind == Text || o.kind == LaTeX || o.kind == Square
    ensures DescriptionSuffix(o.(properties := SceneSerializer.DefaultProperties(o.kind)), show)
            == DescriptionSuffix(o.(properties := map[]), show)
  {
    DescriptionSuffixText(o.(properties := SceneSerializer.DefaultProperties(o.kind)), show);
    DescriptionSuffixText(o.(properties := map[]), show);
  }

  /** For a Circle the fallback is not the factory colour: a factory circle and
      a circle with no properties are described differently. */
  lemma CircleFallbackIsNotFactoryColour(o: BObject, show: real -> string)
    requires o.kind == Circle
    ensures DescriptionSuffix(o.(properties := SceneSerializer.DefaultProperties(Circle)), show)
            != DescriptionSuffix(o.(properties := map[]), show)
  {
    var factory := DescriptionSuffix(o.(properties := SceneSerializer.DefaultProperties(Circle)), show);
    var bare := DescriptionSuffix(o.(properties := map[]), show);
    assert factory == " with color #EF4444";
    assert bare == " with color #3B82F6";
    assert factory[|factory| - 1] != bare[|bare| - 1];
  }

  /** An editor-made Circle is described with its own red, not the fallback. */
  lemma FactoryCircleKeepsItsColour(o: BObject, show: real -> string)
    requires o.kind == Circle && o.properties == SceneSerializer.DefaultProperties(Circle)
    ensures DescriptionSuffix(o, show) == " with color #EF4444"
  {
  }
}
