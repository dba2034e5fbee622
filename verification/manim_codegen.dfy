/** The text of the renderer script (backend/app/services/manim_service.py):
    one initialisation line per object, the indentation of the generated
    animation code, the script around both, and the command line that renders
    it. `show` stands for Python's `str()` of a float. */
module ManimCodegen {
  import opened Wrappers
  import opened Strings
  import opened SceneTypes
  import opened BackendModels
  import SceneSerializer

  /** The indentation of a statement inside `construct`. */
  const BodyIndent: string := "        "

  const NoObjectsLine: string := "        # No objects in scene"

  // ---------------------------------------------------------------------------
  // Names
  // ---------------------------------------------------------------------------

  /** An id made into a Python name: every '-' becomes '_'. */
  function VarName(id: string): (r: string)
    ensures |r| == |id| && '-' !in r
    ensures forall k :: 0 <= k < |id| ==> r[k] == (if id[k] == '-' then '_' else id[k])
  {
    ReplaceChar(id, '-', '_')
  }

  const ClassPrefix: string := "GeneratedScene_"

  /** The scene class generated for a job, and asked for on the command line. */
  function ClassName(jobId: string): (r: string)
    ensures IsPrefixOf(ClassPrefix, r) && r[|ClassPrefix|..] == VarName(jobId)
    ensures '-' !in r
  {
    ClassPrefix + VarName(jobId)
  }

  // ---------------------------------------------------------------------------
  // Object lines
  // ---------------------------------------------------------------------------

  /** A default written in the generator: a Python int or a Python str. */
  datatype PyDefault = PyInt(i: nat) | PyStr(s: string)

  function DefaultText(d: PyDefault): string {
    match d
    case PyInt(i) => NatToDecimal(i)
    case PyStr(s) => s
  }

  /** The document value a default stands for. */
  function DefaultValue(d: PyDefault): Value {
    match d
    case PyInt(i) => Num(i as real)
    case PyStr(s) => Str(s)
  }

  /** Magnitude from which JSON writes a whole number with an exponent. */
  const ExponentFrom: real := 1000000000000000000000.0

  /** A number property as the generator prints it. JSON writes a whole number
      of magnitude below 10^21 without a fraction, Python's `json` reads that
      back as an int, and an int prints as its digits; every other number is
      read as a float and printed by `show`. */
  function NumberText(x: real, show: real -> string): (r: string)
    ensures x == x.Floor as real && -ExponentFrom < x < ExponentFrom ==>
              r == IntToDecimal(x.Floor) && ParseInteger(r) == Some(x.Floor)
    ensures !(x == x.Floor as real && -ExponentFrom < x < ExponentFrom) ==> r == show(x)
  {
    if x == x.Floor as real && -ExponentFrom < x < ExponentFrom then
      ParseIntToDecimal(x.Floor);
      IntToDecimal(x.Floor)
    else
      show(x)
  }

  /** A property value in an f-string. A JSON null arrives as `None`; a NaN,
      which no JSON document from the editor carries, would print as `nan`. */
  function ValueText(v: Value, show: real -> string): string {
    match v
    case Num(n) => NumberText(n, show)
    case Str(s) => s
    case Null => "None"
    case NotANumber => "nan"
  }

  /** `props.get(key, default)` as text. */
  function PropText(props: Props, key: string, d: PyDefault, show: real -> string): (r: string)
    ensures key in props ==> r == ValueText(props[key], show)
    ensures key !in props ==> r == DefaultText(d)
  {
    if key in props then ValueText(props[key], show) else DefaultText(d)
  }

  /** The properties the generator reads for a kind, with its fallbacks. */
  function ReadKeys(k: Kind): seq<(string, PyDefault)> {
    match k
    case Square => [("sideLength", PyInt(2)), ("color", PyStr("#3B82F6"))]
    case Circle => [("radius", PyInt(1)), ("color", PyStr("#EF4444"))]
    case Text => [("text", PyStr("Text")), ("fontSize", PyInt(24)), ("color", PyStr("#FFFFFF"))]
    case LaTeX => [("tex", PyStr("x^2")), ("fontSize", PyInt(24)), ("color", PyStr("#FFFFFF"))]
    case Line => []
    case Arrow => []
  }

  /** The i-th property read for the kind, as text. */
  function Arg(o: BObject, i: nat, show: real -> string): string
    requires i < |ReadKeys(o.kind)|
  {
    PropText(o.properties, ReadKeys(o.kind)[i].0, ReadKeys(o.kind)[i].1, show)
  }

  /** `.move_to([x, y, 0])` for a two-number position. */
  function MoveTo(pos: seq<real>, show: real -> string): string
    requires |pos| == 2
  {
    ".move_to([" + show(pos[0]) + ", " + show(pos[1]) + ", 0])"
  }

  /** The Manim class built for a kind; Line and Arrow have none and fall back
      to a default square. */
  function ManimClass(k: Kind): string {
    match k
    case Square => "Square"
    case Circle => "Circle"
    case Text => "Text"
    case LaTeX => "MathTex"
    case Line => "Square"
    case Arrow => "Square"
  }

  /** The constructor call's arguments, each read from the properties. */
  function CallArgs(o: BObject, show: real -> string): string {
    match o.kind
    case Square => "side_length=" + Arg(o, 0, show) + ", color='" + Arg(o, 1, show) + "'"
    case Circle => "radius=" + Arg(o, 0, show) + ", color='" + Arg(o, 1, show) + "'"
    case Text => "'" + Arg(o, 0, show) + "', font_size=" + Arg(o, 1, show) + ", color='" + Arg(o, 2, show) + "'"
    case LaTeX => "'" + Arg(o, 0, show) + "', font_size=" + Arg(o, 1, show) + ", color='" + Arg(o, 2, show) + "'"
    case Line => ""
    case Arrow => ""
  }

  /** The trailing comment naming an unsupported kind. */
  function Comment(k: Kind): string {
    if k in {Line, Arrow} then "  # Unsupported type: " + KindName(k) else ""
  }

  /** The initialisation statement for one object: the variable, the kind's
      constructor, the move to the object's position, and for Line and Arrow a
      comment saying the kind is unsupported. */
  function InitLine(o: BObject, show: real -> string): string
    requires |o.position| == 2
  {
    VarName(o.id) + " = " + ManimClass(o.kind) + "(" + CallArgs(o, show) + ")" + MoveTo(o.position, show) + Comment(o.kind)
  }

  /** Every statement assigns the object's variable from its kind's class; a
      supported kind's statement ends with the move to the object's position,
      and Line and Arrow get an argument-less square and the comment. */
  lemma InitLineShape(o: BObject, show: real -> string)
    requires |o.position| == 2
    ensures IsPrefixOf(VarName(o.id) + " = " + ManimClass(o.kind) + "(", InitLine(o, show))
    ensures o.kind !in {Line, Arrow} ==> IsSuffixOf(MoveTo(o.position, show), InitLine(o, show))
    ensures o.kind in {Line, Arrow} ==>
              InitLine(o, show) == VarName(o.id) + " = Square()" + MoveTo(o.position, show) + "  # Unsupported type: " + KindName(o.kind)
  {
    var head := VarName(o.id) + " = " + ManimClass(o.kind) + "(";
    var rest := CallArgs(o, show) + ")" + MoveTo(o.position, show) + Comment(o.kind);
    AppendFive(head, CallArgs(o, show), ")", MoveTo(o.position, show), Comment(o.kind));
    ConcatAffixes(head, rest);
    if o.kind in {Line, Arrow} {
      UnsupportedInitLine(o, show);
    } else {
      var call := head + CallArgs(o, show) + ")";
      assert Comment(o.kind) == "";
      assert InitLine(o, show) == call + MoveTo(o.position, show);
      ConcatAffixes(call, MoveTo(o.position, show));
    }
  }

  lemma AppendFive(a: string, b: string, c: string, d: string, e: string)
    ensures a + b + c + d + e == a + (b + c + d + e)
  {
  }

  lemma UnsupportedInitLine(o: BObject, show: real -> string)
    requires |o.position| == 2 && o.kind in {Line, Arrow}
    ensures InitLine(o, show) == VarName(o.id) + " = Square()" + MoveTo(o.position, show) + "  # Unsupported type: " + KindName(o.kind)
  {
    var mv := MoveTo(o.position, show);
    assert ManimClass(o.kind) == "Square" && CallArgs(o, show) == "";
    EmptyCallRegroup(VarName(o.id), " = ", "Square", "(", ")", mv, "  # Unsupported type: ", KindName(o.kind));
    SquareCall();
  }

  lemma SquareCall()
    ensures " = " + "Square" + "(" + ")" == " = Square()"
  {
  }

  lemma EmptyCallRegroup(v: string, a: string, b: string, c: string, d: string, mv: string, e: string, f: string)
    ensures v + a + b + c + [] + d + mv + (e + f) == v + (a + b + c + d) + mv + e + f
  {
    assert c + [] == c;
  }

  /** The generator's fallbacks are the editor's factory defaults: every key it
      reads is in the kind's default table, holding the fallback's value. */
  lemma FallbacksAreFactoryDefaults(k: Kind)
    ensures forall i :: 0 <= i < |ReadKeys(k)| ==>
              ReadKeys(k)[i].0 in SceneSerializer.DefaultProperties(k)
              && SceneSerializer.DefaultProperties(k)[ReadKeys(k)[i].0] == DefaultValue(ReadKeys(k)[i].1)
  {
  }

  /** A whole side length prints as an int, whatever `show` does with the
      position's floats: `side_length=2` next to `move_to([2.0, ...])`. */
  lemma WholeSideLengthPrintsAsInt(o: BObject, k: int, show: real -> string)
    requires o.kind == Square && "sideLength" in o.properties && o.properties["sideLength"] == Num(k as real)
    requires -ExponentFrom < k as real < ExponentFrom
    ensures Arg(o, 0, show) == IntToDecimal(k)
    ensures ParseInteger(Arg(o, 0, show)) == Some(k)
  {
    assert (k as real).Floor == k;
  }

  /** A fallback prints exactly as the value it stands for would, had the
      document carried it, when it is an int JSON writes without an exponent
      (the generator's are 1, 2 and 24). */
  lemma DefaultPrintsAsItsValue(d: PyDefault, show: real -> string)
    requires d.PyInt? ==> (d.i as real) < ExponentFrom
    ensures ValueText(DefaultValue(d), show) == DefaultText(d)
  {
    if d.PyInt? {
      var x := d.i as real;
      assert x.Floor == d.i;
      assert NumberText(x, show) == IntToDecimal(d.i);
    }
  }

  /** An object that carries exactly the factory defaults and an object that
      carries no properties at all produce the same line. */
  lemma DefaultsPrintLikeFallbacks(o: BObject, show: real -> string)
    requires |o.position| == 2
    ensures InitLine(o.(properties := SceneSerializer.DefaultProperties(o.kind)), show)
            == InitLine(o.(properties := map[]), show)
  {
    FallbacksAreFactoryDefaults(o.kind);
    var d := o.(properties := SceneSerializer.DefaultProperties(o.kind));
    var e := o.(properties := map[]);
    forall i | 0 <= i < |ReadKeys(o.kind)|
      ensures Arg(d, i, show) == Arg(e, i, show)
    {
      assert DefaultValue(ReadKeys(o.kind)[i].1) == SceneSerializer.DefaultProperties(o.kind)[ReadKeys(o.kind)[i].0];
      DefaultPrintsAsItsValue(ReadKeys(o.kind)[i].1, show);
    }
    SameArgsSameCall(d, e, show);
  }

  lemma SameArgsSameCall(d: BObject, e: BObject, show: real -> string)
    requires d.kind == e.kind
    requires forall i :: 0 <= i < |ReadKeys(d.kind)| ==> Arg(d, i, show) == Arg(e, i, show)
    ensures CallArgs(d, show) == CallArgs(e, show)
  {
    if |ReadKeys(d.kind)| > 0 {
      assert Arg(d, 0, show) == Arg(e, 0, show);
      assert Arg(d, 1, show) == Arg(e, 1, show);
      if |ReadKeys(d.kind)| > 2 {
        assert Arg(d, 2, show) == Arg(e, 2, show);
      }
    }
  }


  // ---------------------------------------------------------------------------
  // The initialisation block
  // ---------------------------------------------------------------------------

  predicate PositionsValid(objs: seq<BObject>) {
    forall i :: 0 <= i < |objs| ==> |objs[i].position| == 2
  }

  /** The lines of the initialisation block. */
  function InitLines(objs: seq<BObject>, show: real -> string): (ls: seq<string>)
    requires PositionsValid(objs)
    ensures |ls| == if objs == [] then 1 else |objs|
  {
    if objs == [] then [NoObjectsLine]
    else seq(|objs|, i requires 0 <= i < |objs| && PositionsValid(objs) => BodyIndent + InitLine(objs[i], show))
  }

  /** The initialisation block: one indented line per object, or a comment when
      there are none. */
  function ObjectInitialization(objs: seq<BObject>, show: real -> string): (r: string)
    requires PositionsValid(objs)
    ensures objs == [] ==> r == NoObjectsLine
  {
    Join(InitLines(objs, show), '\n')
  }

  /** The block builder as a loop, the way the generator appends line by line. */
  method GenerateObjectInitialization(objs: seq<BObject>, show: real -> string) returns (r: string)
    requires PositionsValid(objs)
    ensures r == ObjectInitialization(objs, show)
  {
    if |objs| == 0 {
      return NoObjectsLine;
    }
    var lines := StatementLines(objs, show);
    r := Join(lines, '\n');
  }

  /** The loop that appends one indented statement per object. */
  method StatementLines(objs: seq<BObject>, show: real -> string) returns (lines: seq<string>)
    requires PositionsValid(objs) && objs != []
    ensures lines == InitLines(objs, show)
  {
    lines := [];
    var i := 0;
    while i < |objs|
      invariant 0 <= i <= |objs| && |lines| == i
      invariant forall k :: 0 <= k < i ==> lines[k] == BodyIndent + InitLine(objs[k], show)
    {
      lines := lines + [BodyIndent + InitLine(objs[i], show)];
      i := i + 1;
    }
    LinesAreInitLines(objs, lines, show);
  }

  lemma LinesAreInitLines(objs: seq<BObject>, lines: seq<string>, show: real -> string)
    requires PositionsValid(objs) && objs != [] && |lines| == |objs|
    requires forall k :: 0 <= k < |objs| ==> lines[k] == BodyIndent + InitLine(objs[k], show)
    ensures lines == InitLines(objs, show)
  {
  }

  /** A block whose statements hold no line break reads back, line by line, as
      one indented statement per object in order. */
  lemma InitializationLines(objs: seq<BObject>, show: real -> string)
    requires PositionsValid(objs)
    requires forall i :: 0 <= i < |objs| ==> '\n' !in InitLine(objs[i], show)
    ensures objs != [] ==> |Split(ObjectInitialization(objs, show), '\n')| == |objs|
    ensures forall i :: 0 <= i < |objs| ==> Split(ObjectInitialization(objs, show), '\n')[i] == BodyIndent + InitLine(objs[i], show)
    ensures objs == [] ==> Split(ObjectInitialization(objs, show), '\n') == [NoObjectsLine]
  {
    var ls := InitLines(objs, show);
    forall k | 0 <= k < |ls| ensures '\n' !in ls[k] {
      if objs != [] {
        assert ls[k] == BodyIndent + InitLine(objs[k], show);
      }
    }
    SplitJoin(ls, '\n');
  }

  // ---------------------------------------------------------------------------
  // Indentation of the generated animation code
  // ---------------------------------------------------------------------------

  /** Four spaces per level. */
  function Indent(level: int): string {
    Repeat("    ", level)
  }

  /** Each line that is not blank gets the indentation; blank lines stay as they are. */
  function IndentLines(lines: seq<string>, level: int): (r: seq<string>)
    ensures |r| == |lines|
    ensures forall i :: 0 <= i < |lines| ==> r[i] == (if IsBlank(lines[i]) then lines[i] else Indent(level) + lines[i])
  {
    seq(|lines|, i requires 0 <= i < |lines| => if IsBlank(lines[i]) then lines[i] else Indent(level) + lines[i])
  }

  function IndentCode(code: string, level: int): string {
    Join(IndentLines(Split(code, '\n'), level), '\n')
  }

  /** Indenting keeps the line count, leaves blank lines untouched and puts
      `4 * level` spaces before every other line. */
  lemma IndentCodeLines(code: string, level: int)
    ensures |Split(IndentCode(code, level), '\n')| == |Split(code, '\n')|
    ensures forall i :: 0 <= i < |Split(code, '\n')| ==>
              var line := Split(code, '\n')[i];
              Split(IndentCode(code, level), '\n')[i] == (if IsBlank(line) then line else Indent(level) + line)
  {
    var lines := Split(code, '\n');
    var out := IndentLines(lines, level);
    forall k | 0 <= k < |out| ensures '\n' !in out[k] {
      assert '\n' !in Indent(level);
      assert '\n' !in lines[k];
    }
    SplitJoin(out, '\n');
  }

  /** Stripping an indented line gives what stripping the line gave. */
  lemma IndentKeepsContent(line: string, level: int)
    ensures Strip(Indent(level) + line) == Strip(line)
  {
    var pre := Indent(level);
    assert AllSpace(pre);
    TrimLeftSkipsSpace(pre, line);
  }

  lemma {:induction false} TrimLeftSkipsSpace(pre: string, s: string)
    requires AllSpace(pre)
    ensures TrimLeft(pre + s) == TrimLeft(s)
  {
    if pre != [] {
      assert (pre + s)[1..] == pre[1..] + s;
      TrimLeftSkipsSpace(pre[1..], s);
    } else {
      assert pre + s == s;
    }
  }

  // ---------------------------------------------------------------------------
  // The script
  // ---------------------------------------------------------------------------

  /** The interpreter line and the imports, then an empty line. */
  const ScriptOpening: seq<string> := ["#!/usr/bin/env python3", "from manim import *", "import numpy as np", ""]

  /** The declaration of the scene class. */
  function ClassLine(className: string): string {
    "class " + className + "(Scene):"
  }

  const ConstructOpening: seq<string> := ["    def construct(self):", "        # Scene settings"]

  function BackgroundLine(bg: string): string {
    "        self.camera.background_color = \"" + bg + "\""
  }

  const InitComment: seq<string> := [BodyIndent, "        # Initialize objects from scene data"]

  /** The script's lines before the initialisation block. */
  function HeadLines(bg: string, className: string): seq<string> {
    ScriptOpening + [ClassLine(className)] + ConstructOpening + [BackgroundLine(bg)] + InitComment
  }

  /** Between the initialisation block and the animation code. */
  const MiddleLines: seq<string> := [BodyIndent, "        # User-requested animation"]

  const FinalPause: seq<string> := [BodyIndent, "        # Final pause", "        self.wait(2)", ""]

  const MainGuard: seq<string> :=
    ["# This allows the script to be run directly", "if __name__ == \"__main__\":", "    from manim import config"]

  /** One renderer setting written in the main block. */
  function ConfigLine(name: string, value: int): string {
    "    config." + name + " = " + IntToDecimal(value)
  }

  /** After the animation code, ending in an empty line (the final newline). */
  function TailLines(settings: BSettings): seq<string> {
    FinalPause + MainGuard
    + [ConfigLine("media_width", settings.width),
       ConfigLine("media_height", settings.height),
       ConfigLine("frame_rate", settings.frameRate),
       ""]
  }

  /** The whole script for a scene, the animation code and a job id. */
  function SceneFile(scene: BScene, code: string, jobId: string, show: real -> string): string
    requires PositionsValid(scene.objects)
  {
    Join(HeadLines(scene.settings.backgroundColor, ClassName(jobId))
         + [ObjectInitialization(scene.objects, show)]
         + MiddleLines
         + [IndentCode(code, 2)]
         + TailLines(scene.settings), '\n')
  }

  /** No line of `ls` holds a line break. */
  predicate NoBreaks(ls: seq<string>) {
    forall k :: 0 <= k < |ls| ==> '\n' !in ls[k]
  }

  lemma NoBreaksConcat(a: seq<string>, b: seq<string>)
    requires NoBreaks(a) && NoBreaks(b)
    ensures NoBreaks(a + b)
  {
    assert forall k :: |a| <= k < |a + b| ==> (a + b)[k] == b[k - |a|];
  }

  /** A concatenation of break-free texts is break-free. */
  lemma NoBreakConcat(a: string, b: string)
    requires '\n' !in a && '\n' !in b
    ensures '\n' !in a + b
  {
  }

  lemma OpeningHasNoBreaks()
    ensures NoBreaks(ScriptOpening) && NoBreaks(ConstructOpening)
  {
  }

  lemma CommentsHaveNoBreaks()
    ensures NoBreaks(InitComment) && NoBreaks(MiddleLines)
  {
  }

  lemma HeadHasNoBreaks(bg: string, className: string)
    requires '\n' !in bg && '\n' !in className
    ensures NoBreaks(HeadLines(bg, className))
  {
    OpeningHasNoBreaks();
    CommentsHaveNoBreaks();
    NoBreakConcat("class " + className, "(Scene):");
    NoBreakConcat("        self.camera.background_color = \"" + bg, "\"");
    NoBreaksConcat(ScriptOpening, [ClassLine(className)]);
    NoBreaksConcat(ScriptOpening + [ClassLine(className)], ConstructOpening);
    NoBreaksConcat(ScriptOpening + [ClassLine(className)] + ConstructOpening, [BackgroundLine(bg)]);
    NoBreaksConcat(ScriptOpening + [ClassLine(className)] + ConstructOpening + [BackgroundLine(bg)], InitComment);
  }

  lemma ClassNameHasNoBreak(jobId: string)
    requires '\n' !in jobId
    ensures '\n' !in ClassName(jobId)
  {
    var v := VarName(jobId);
    assert forall k :: 0 <= k < |v| ==> v[k] != '\n';
  }

  lemma FinalPauseHasNoBreaks()
    ensures NoBreaks(FinalPause)
  {
  }

  lemma MainGuardHasNoBreaks()
    ensures NoBreaks(MainGuard)
  {
  }

  lemma ConfigLineHasNoBreak(name: string, value: int)
    requires '\n' !in name
    ensures '\n' !in ConfigLine(name, value)
  {
    DecimalHasNoBreak(value);
    NoBreakConcat("    config." + name, " = ");
    NoBreakConcat("    config." + name + " = ", IntToDecimal(value));
  }

  lemma SettingNamesHaveNoBreaks()
    ensures '\n' !in "media_width" && '\n' !in "media_height" && '\n' !in "frame_rate"
  {
  }

  lemma TailHasNoBreaks(settings: BSettings)
    ensures NoBreaks(TailLines(settings))
  {
    FinalPauseHasNoBreaks();
    MainGuardHasNoBreaks();
    SettingNamesHaveNoBreaks();
    ConfigLineHasNoBreak("media_width", settings.width);
    ConfigLineHasNoBreak("media_height", settings.height);
    ConfigLineHasNoBreak("frame_rate", settings.frameRate);
    var settingLines := [ConfigLine("media_width", settings.width),
                         ConfigLine("media_height", settings.height),
                         ConfigLine("frame_rate", settings.frameRate),
                         ""];
    assert NoBreaks(settingLines);
    NoBreaksConcat(FinalPause, MainGuard);
    NoBreaksConcat(FinalPause + MainGuard, settingLines);
  }

  /** Joining lines where two of them are themselves joined blocks equals
      joining the flattened lines. */
  lemma {:induction false} JoinFlattenTwo(h: seq<string>, a: seq<string>, m: seq<string>, b: seq<string>,
                                          t: seq<string>, sep: char)
    requires |h| >= 1 && |a| >= 1 && |m| >= 1 && |b| >= 1 && |t| >= 1
    ensures Join(h + [Join(a, sep)] + m + [Join(b, sep)] + t, sep) == Join(h + a + m + b + t, sep)
  {
    var rest := m + [Join(b, sep)] + t;
    assert h + [Join(a, sep)] + m + [Join(b, sep)] + t == h + [Join(a, sep)] + rest;
    JoinFlatten(h, a, rest, sep);
    assert h + a + rest == (h + a + m) + [Join(b, sep)] + t;
    JoinFlatten(h + a + m, b, t, sep);
  }

  /** The script is the join of all its lines, blocks included. */
  lemma SceneFileFlat(scene: BScene, code: string, jobId: string, show: real -> string)
    requires PositionsValid(scene.objects)
    ensures SceneFile(scene, code, jobId, show)
            == Join(HeadLines(scene.settings.backgroundColor, ClassName(jobId)) + InitLines(scene.objects, show) + MiddleLines
                    + IndentLines(Split(code, '\n'), 2) + TailLines(scene.settings), '\n')
  {
    var head := HeadLines(scene.settings.backgroundColor, ClassName(jobId));
    var tail := TailLines(scene.settings);
    assert |head| >= 1 && |tail| >= 1;
    JoinFlattenTwo(head, InitLines(scene.objects, show), MiddleLines, IndentLines(Split(code, '\n'), 2), tail, '\n');
  }

  /** The script read line by line: the fixed head with the class line, the
      initialisation block, the animation code indented by two levels, and the
      fixed tail with the settings, provided the background colour, the job id
      and the object statements hold no line break. */
  lemma {:induction false} SceneFileLines(scene: BScene, code: string, jobId: string, show: real -> string)
    requires PositionsValid(scene.objects)
    requires '\n' !in scene.settings.backgroundColor && '\n' !in jobId
    requires forall i :: 0 <= i < |scene.objects| ==> '\n' !in InitLine(scene.objects[i], show)
    ensures Split(SceneFile(scene, code, jobId, show), '\n')
            == HeadLines(scene.settings.backgroundColor, ClassName(jobId))
               + InitLines(scene.objects, show)
               + MiddleLines
               + IndentLines(Split(code, '\n'), 2)
               + TailLines(scene.settings)
  {
    var head := HeadLines(scene.settings.backgroundColor, ClassName(jobId));
    var init := InitLines(scene.objects, show);
    var code' := IndentLines(Split(code, '\n'), 2);
    var tail := TailLines(scene.settings);
    var all := head + init + MiddleLines + code' + tail;
    SceneFileFlat(scene, code, jobId, show);
    ClassNameHasNoBreak(jobId);
    HeadHasNoBreaks(scene.settings.backgroundColor, ClassName(jobId));
    InitHasNoBreaks(scene.objects, show);
    CommentsHaveNoBreaks();
    IndentHasNoBreaks(Split(code, '\n'), 2);
    TailHasNoBreaks(scene.settings);
    NoBreaksConcat(head, init);
    NoBreaksConcat(head + init, MiddleLines);
    NoBreaksConcat(head + init + MiddleLines, code');
    NoBreaksConcat(head + init + MiddleLines + code', tail);
    SplitJoin(all, '\n');
  }

  /** The fifth line of the script declares the job's scene class. */
  lemma ClassLineOfScript(scene: BScene, code: string, jobId: string, show: real -> string)
    requires PositionsValid(scene.objects)
    requires '\n' !in scene.settings.backgroundColor && '\n' !in jobId
    requires forall i :: 0 <= i < |scene.objects| ==> '\n' !in InitLine(scene.objects[i], show)
    ensures |Split(SceneFile(scene, code, jobId, show), '\n')| > 4
    ensures Split(SceneFile(scene, code, jobId, show), '\n')[4] == "class " + ClassName(jobId) + "(Scene):"
  {
    SceneFileLines(scene, code, jobId, show);
    var head := HeadLines(scene.settings.backgroundColor, ClassName(jobId));
    ClassLineOfHead(scene.settings.backgroundColor, ClassName(jobId));
    IndexInFirstPart(head, InitLines(scene.objects, show), MiddleLines, IndentLines(Split(code, '\n'), 2),
                     TailLines(scene.settings), 4);
  }

  lemma IndexInFirstPart(a: seq<string>, b: seq<string>, c: seq<string>, d: seq<string>, e: seq<string>, i: nat)
    requires i < |a|
    ensures |a + b + c + d + e| > i && (a + b + c + d + e)[i] == a[i]
  {
  }


  lemma ClassLineOfHead(bg: string, className: string)
    ensures |HeadLines(bg, className)| == 10
    ensures HeadLines(bg, className)[4] == "class " + className + "(Scene):"
  {
  }

  lemma InitHasNoBreaks(objs: seq<BObject>, show: real -> string)
    requires PositionsValid(objs)
    requires forall i :: 0 <= i < |objs| ==> '\n' !in InitLine(objs[i], show)
    ensures NoBreaks(InitLines(objs, show))
  {
    var init := InitLines(objs, show);
    forall k | 0 <= k < |init| ensures '\n' !in init[k] {
      if objs != [] {
        assert init[k] == BodyIndent + InitLine(objs[k], show);
      }
    }
  }

  lemma IndentHasNoBreaks(lines: seq<string>, level: int)
    requires NoBreaks(lines)
    ensures NoBreaks(IndentLines(lines, level))
  {
    assert '\n' !in Indent(level);
  }

  lemma DecimalHasNoBreak(i: int)
    ensures '\n' !in IntToDecimal(i)
  {
    var s := IntToDecimal(i);
    if i >= 0 {
      assert AllDigits(s);
    } else {
      assert AllDigits(s[1..]);
    }
  }

  // ---------------------------------------------------------------------------
  // The render command
  // ---------------------------------------------------------------------------

  /** The renderer's argument list for a job: the quality flag, the output name
      and the script path, then the scene class to render. */
  function ManimCommand(quality: string, jobId: string, scriptPath: string): (argv: seq<string>)
    ensures |argv| == 7 && argv[0] == "manim" && argv[1] == "-q" && argv[2] == quality
    ensures argv[3] == "--output_file" && argv[4] == "animation_" + jobId && argv[5] == scriptPath
    ensures argv[6] == ClassName(jobId)
  {
    ["manim", "-q", quality, "--output_file", "animation_" + jobId, scriptPath, ClassName(jobId)]
  }

  /** The class the command asks for is the class the script declares. */
  lemma CommandNamesDeclaredClass(scene: BScene, code: string, jobId: string, show: real -> string,
                                  quality: string, scriptPath: string)
    requires PositionsValid(scene.objects)
    requires '\n' !in scene.settings.backgroundColor && '\n' !in jobId
    requires forall i :: 0 <= i < |scene.objects| ==> '\n' !in InitLine(scene.objects[i], show)
    ensures "class " + ManimCommand(quality, jobId, scriptPath)[6] + "(Scene):"
            in Split(SceneFile(scene, code, jobId, show), '\n')
  {
    ClassLineOfScript(scene, code, jobId, show);
  }
}
