/** Whether the variable the renderer script assigns for an object is a name
    Python accepts (backend/app/services/manim_service.py), and a prefixed
    variable that always is. */
module PythonNames {
  import opened Strings
  import opened SceneTypes
  import opened BackendModels
  import opened ManimCodegen

  /** The ASCII part of Python's rule for identifiers: a name starts with a
      letter or '_' and goes on with letters, digits and '_'. */
  predicate IsNameStart(c: char) {
    'a' <= c <= 'z' || 'A' <= c <= 'Z' || c == '_'
  }

  predicate IsNameChar(c: char) {
    IsNameStart(c) || IsDigit(c)
  }

  predicate IsPythonName(s: string) {
    |s| > 0 && IsNameStart(s[0]) && forall k :: 1 <= k < |s| ==> IsNameChar(s[k])
  }

  /** The text of an object id: name characters and dashes, as in a uuid. */
  predicate IsIdText(id: string) {
    forall k :: 0 <= k < |id| ==> IsNameChar(id[k]) || id[k] == '-'
  }

  /** Replacing the dashes makes a Python name exactly when the id does not
      start with a digit; a uuid starting with one of its ten digits does. */
  lemma VarNameIsPythonNameIff(id: string)
    requires IsIdText(id)
    ensures IsPythonName(VarName(id)) <==> |id| > 0 && !IsDigit(id[0])
  {
    var r := VarName(id);
    if |id| > 0 && !IsDigit(id[0]) {
      assert IsNameStart(r[0]);
      forall k | 1 <= k < |r| ensures IsNameChar(r[k]) {
        assert IsNameChar(id[k]) || id[k] == '-';
      }
    }
  }

  /** A uuid that starts with a digit gives a statement assigning to a name
      Python rejects. */
  lemma DigitLedUuidGivesNoPythonName()
    ensures |VarName("9b1deb4d-3b7d")| == 13 && VarName("9b1deb4d-3b7d")[0] == '9'
    ensures !IsPythonName(VarName("9b1deb4d-3b7d"))
  {
    var id := "9b1deb4d-3b7d";
    assert id[0] == '9';
  }

  /** Two different ids without '_' (uuids have none) keep different names. */
  lemma {:induction false} VarNamesDiffer(a: string, b: string)
    requires '_' !in a && '_' !in b && a != b
    ensures VarName(a) != VarName(b)
  {
    if |a| == |b| {
      var k :| 0 <= k < |a| && a[k] != b[k];
      assert VarName(a)[k] != VarName(b)[k];
    }
  }

  const ObjectPrefix: string := "obj_"

  /** The object's variable with a prefix that starts with a letter, so that
      every id made of name characters and dashes gives a Python name. */
  function SafeVarName(id: string): (r: string)
    ensures IsPrefixOf(ObjectPrefix, r) && r[|ObjectPrefix|..] == VarName(id)
    ensures '-' !in r
    ensures IsIdText(id) ==> IsPythonName(r)
  {
    var v := VarName(id);
    assert forall k :: 0 <= k < |v| ==> IsNameChar(id[k]) || id[k] == '-' ==> IsNameChar(v[k]);
    ObjectPrefix + v
  }

  /** Different ids without '_' keep different prefixed names. */
  lemma SafeVarNamesDiffer(a: string, b: string)
    requires '_' !in a && '_' !in b && a != b
    ensures SafeVarName(a) != SafeVarName(b)
  {
    VarNamesDiffer(a, b);
    assert SafeVarName(a)[|ObjectPrefix|..] != SafeVarName(b)[|ObjectPrefix|..];
  }

  /** The object's statement with the prefixed name: the same statement,
      assigning to `SafeVarName` of the id. */
  function SafeInitLine(o: BObject, show: real -> string): (r: string)
    requires |o.position| == 2
    ensures IsPrefixOf(SafeVarName(o.id) + " = " + ManimClass(o.kind) + "(", r)
    ensures r[|ObjectPrefix|..] == InitLine(o, show)
  {
    InitLineShape(o, show);
    PrefixedHead(ObjectPrefix, VarName(o.id), " = ", ManimClass(o.kind), "(", InitLine(o, show));
    ObjectPrefix + InitLine(o, show)
  }

  /** Putting `p` before a line puts it before the line's head too. */
  lemma PrefixedHead(p: string, v: string, eq: string, cls: string, par: string, line: string)
    requires IsPrefixOf(v + eq + cls + par, line)
    ensures IsPrefixOf((p + v) + eq + cls + par, p + line)
    ensures (p + line)[|p|..] == line
  {
    var head := v + eq + cls + par;
    assert (p + v) + eq + cls + par == p + head;
    assert (p + line)[..|p + head|] == p + line[..|head|];
  }
}
