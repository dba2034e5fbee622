/** What is read from the language model's reply
    (backend/app/services/llm_service.py): the code, the explanation and the
    confidence. */
module LlmReply {
  import opened Strings

  // ---------------------------------------------------------------------------
  // Reading the reply
  // ---------------------------------------------------------------------------

  const PythonFence: string := "```python"
  const Fence: string := "```"

  /** The text between an opening fence ending at `start` and the next fence,
      as the service slices it: a missing closing fence makes `find` return
      -1, which the slice reads as "one before the end". */
  function FencedAsWritten(response: string, start: nat): string {
    PySlice(response, start, FindFrom(response, Fence, start))
  }

  /** The fenced text up to the next fence, or to the end when there is none. */
  function FencedToEnd(response: string, start: nat): (r: string)
    ensures start <= |response| && FindFrom(response, Fence, start) == -1 ==> r == response[start..]
  {
    var end := FindFrom(response, Fence, start);
    PySlice(response, start, if end == -1 then |response| else end)
  }

  /** The code block the reply carries: inside a python fence if there is one,
      else inside a bare fence, else the whole reply; stripped. `toEnd` selects
      how a missing closing fence is read. */
  function CodeBlock(response: string, toEnd: bool): string {
    if Contains(response, PythonFence) then
      var start := Find(response, PythonFence) + |PythonFence|;
      Strip(if toEnd then FencedToEnd(response, start) else FencedAsWritten(response, start))
    else if Contains(response, Fence) then
      var start := Find(response, Fence) + |Fence|;
      Strip(if toEnd then FencedToEnd(response, start) else FencedAsWritten(response, start))
    else Strip(response)
  }

  /** Drops the blank lines before the first line that is not blank. */
  function DropLeadingBlank(lines: seq<string>): seq<string> {
    if lines == [] then []
    else if IsBlank(lines[0]) then DropLeadingBlank(lines[1..])
    else lines
  }

  /** What the clean-up keeps is a suffix of the lines that starts at the first
      line that is not blank; every line it drops is blank. */
  lemma {:induction false} DropLeadingBlankKeepsSuffix(lines: seq<string>)
    ensures |DropLeadingBlank(lines)| <= |lines|
    ensures DropLeadingBlank(lines) == lines[|lines| - |DropLeadingBlank(lines)|..]
    ensures DropLeadingBlank(lines) == [] || !IsBlank(DropLeadingBlank(lines)[0])
    ensures forall k :: 0 <= k < |lines| - |DropLeadingBlank(lines)| ==> IsBlank(lines[k])
  {
    if lines != [] && IsBlank(lines[0]) {
      DropLeadingBlankKeepsSuffix(lines[1..]);
      var r := DropLeadingBlank(lines[1..]);
      assert forall k :: 1 <= k < |lines| - |r| ==> lines[k] == lines[1..][k - 1];
    }
  }

  /** The clean-up loop as the service writes it. */
  method CleanLines(lines: seq<string>) returns (cleaned: seq<string>)
    ensures cleaned == DropLeadingBlank(lines)
  {
    cleaned := [];
    var i := 0;
    while i < |lines|
      invariant 0 <= i <= |lines|
      invariant cleaned == [] ==> DropLeadingBlank(lines) == DropLeadingBlank(lines[i..])
      invariant cleaned != [] ==> DropLeadingBlank(lines) == cleaned + lines[i..]
    {
      var line := lines[i];
      var rest := lines[i + 1..];
      assert lines[i..] == [line] + rest;
      assert lines[i..][1..] == rest;
      if cleaned == [] && IsBlank(line) {
      } else {
        assert cleaned + lines[i..] == (cleaned + [line]) + rest;
        cleaned := cleaned + [line];
      }
      i := i + 1;
    }
    assert lines[i..] == [];
  }

  /** The code taken from a reply, as the service computes it. */
  function ExtractCode(response: string): string {
    Join(DropLeadingBlank(Split(CodeBlock(response, false), '\n')), '\n')
  }

  /** The code taken from a reply when an unclosed fence runs to the end. */
  function ExtractCodeToEnd(response: string): string {
    Join(DropLeadingBlank(Split(CodeBlock(response, true), '\n')), '\n')
  }

  /** The clean-up never changes a stripped block: its first line already
      starts with a character that is not whitespace. */
  lemma {:induction false} CleanupKeepsStrippedText(s: string)
    ensures Join(DropLeadingBlank(Split(Strip(s), '\n')), '\n') == Strip(s)
  {
    var t := Strip(s);
    var lines := Split(t, '\n');
    JoinSplit(t, '\n');
    if t == [] {
      assert lines == [[]];
      assert IsBlank(lines[0]) by { assert Strip(lines[0]) == []; }
      assert DropLeadingBlank(lines) == [];
    } else {
      FirstLineStartsWith(t);
      assert !IsBlank(lines[0]) by {
        assert !AllSpace(lines[0]);
      }
    }
  }

  /** A text that starts with a non-space character has a first line that
      starts with it. */
  lemma FirstLineStartsWith(t: string)
    requires t != [] && !IsSpace(t[0])
    ensures Split(t, '\n')[0] != [] && Split(t, '\n')[0][0] == t[0]
  {
    assert t[0] != '\n';
  }

  /** The code taken from a reply is its stripped block, under either reading;
      a reply without any fence gives the stripped reply. */
  lemma ExtractCodeIsStrippedBlock(response: string)
    ensures ExtractCode(response) == CodeBlock(response, false)
    ensures ExtractCodeToEnd(response) == CodeBlock(response, true)
    ensures !Contains(response, Fence) ==> ExtractCode(response) == Strip(response)
  {
    CleanupOfBlock(response, false);
    CleanupOfBlock(response, true);
    if !Contains(response, Fence) {
      NoFenceNoPythonFence(response);
    }
  }

  lemma NoFenceNoPythonFence(response: string)
    requires !Contains(response, Fence)
    ensures !Contains(response, PythonFence)
  {
    if Contains(response, PythonFence) {
      var i :| 0 <= i <= |response| - |PythonFence| && OccursAt(response, PythonFence, i);
      assert response[i..i + |Fence|] == response[i..i + |PythonFence|][..|Fence|];
      assert OccursAt(response, Fence, i);
    }
  }

  lemma CleanupOfBlock(response: string, toEnd: bool)
    ensures Join(DropLeadingBlank(Split(CodeBlock(response, toEnd), '\n')), '\n') == CodeBlock(response, toEnd)
  {
    if Contains(response, PythonFence) {
      var start := Find(response, PythonFence) + |PythonFence|;
      CleanupKeepsStrippedText(if toEnd then FencedToEnd(response, start) else FencedAsWritten(response, start));
    } else if Contains(response, Fence) {
      var start := Find(response, Fence) + |Fence|;
      CleanupKeepsStrippedText(if toEnd then FencedToEnd(response, start) else FencedAsWritten(response, start));
    } else {
      CleanupKeepsStrippedText(response);
    }
  }

  /** A reply that opens with a python fence and never closes it: as written the
      code is the rest of the reply without its last character; read to the
      end it is the whole rest. */
  lemma UnclosedPythonFence(response: string)
    requires IsPrefixOf(PythonFence, response)
    requires FindFrom(response, Fence, |PythonFence|) == -1
    ensures ExtractCode(response) == Strip(PySlice(response, |PythonFence|, -1))
    ensures ExtractCodeToEnd(response) == Strip(response[|PythonFence|..])
  {
    assert OccursAt(response, PythonFence, 0);
    assert Find(response, PythonFence) == 0;
    ExtractCodeIsStrippedBlock(response);
  }

  /** Code without backticks after the opening line holds no closing fence. */
  lemma NoFenceAfterBreak(code: string)
    requires forall k :: 0 <= k < |code| ==> code[k] != '`'
    ensures FindFrom(PythonFence + "\n" + code, Fence, |PythonFence|) == -1
  {
    var head := PythonFence + "\n";
    var s := head + code;
    forall i | |head| <= i < |s|
      ensures s[i] != '`'
    {
      assert s[i] == code[i - |head|];
    }
    assert s[|PythonFence|] == '\n';
    assert Fence[0] == '`';
    NoStartNoMatch(s, Fence, |PythonFence|);
  }

  lemma DropHeadAndLast(p: string, t: string)
    requires t != []
    ensures (p + t)[|p|..|p + t| - 1] == t[..|t| - 1]
  {
  }

  /** A line break before a text without outer whitespace is all strip removes. */
  lemma StripAfterBreak(t: string)
    requires t != [] && !IsSpace(t[0]) && !IsSpace(t[|t| - 1])
    ensures Strip("\n" + t) == t
  {
    var s := "\n" + t;
    assert s[1..] == t;
    assert TrimLeft(t) == t;
    assert TrimLeft(s) == t;
    assert TrimRight(t) == t;
  }

  /** A reply made of the opening python fence, a line break and code without
      backticks is read through the general unclosed-fence rule. */
  lemma FencedCodeReply(code: string)
    requires forall k :: 0 <= k < |code| ==> code[k] != '`'
    ensures ExtractCode(PythonFence + "\n" + code) == Strip(PySlice(PythonFence + "\n" + code, |PythonFence|, -1))
    ensures ExtractCodeToEnd(PythonFence + "\n" + code) == Strip("\n" + code)
  {
    var reply := PythonFence + "\n" + code;
    assert reply[..|PythonFence|] == PythonFence;
    assert reply[|PythonFence|..] == "\n" + code;
    NoFenceAfterBreak(code);
    UnclosedPythonFence(reply);
  }

  lemma SliceBeforeLast(code: string)
    requires code != []
    ensures PySlice(PythonFence + "\n" + code, |PythonFence|, -1) == "\n" + code[..|code| - 1]
  {
    var body := "\n" + code;
    var reply := PythonFence + "\n" + code;
    assert reply == PythonFence + body;
    assert PySlice(reply, |PythonFence|, -1) == reply[|PythonFence|..|reply| - 1];
    DropHeadAndLast(PythonFence, body);
    assert body[..|body| - 1] == "\n" + code[..|code| - 1];
  }

  /** A python fence that is never closed loses the last character of the
      code: a reply made of the opening fence, a line break and code of at
      least two characters without backticks or outer whitespace (such as
      "ab") yields the code without its last character ("a"); read to the end
      it yields the whole code. */
  lemma UnclosedFenceLosesLastCharacter(code: string)
    requires |code| >= 2 && forall k :: 0 <= k < |code| ==> code[k] != '`'
    requires !IsSpace(code[0]) && !IsSpace(code[|code| - 2]) && !IsSpace(code[|code| - 1])
    ensures ExtractCode(PythonFence + "\n" + code) == code[..|code| - 1]
    ensures ExtractCodeToEnd(PythonFence + "\n" + code) == code
  {
    FencedCodeReply(code);
    SliceBeforeLast(code);
    StripAfterBreak(code[..|code| - 1]);
    StripAfterBreak(code);
  }

  /** With a closing fence both readings agree: the text between the fences. */
  lemma ClosedFenceReadsBetweenFences(response: string, start: nat)
    requires FindFrom(response, Fence, start) != -1
    ensures FencedToEnd(response, start) == FencedAsWritten(response, start)
    ensures FencedToEnd(response, start) == response[start..FindFrom(response, Fence, start)]
  {
  }

  /** The explanation is a fixed sentence, whatever the reply. */
  function ExtractExplanation(response: string): string {
    "AI-generated Manim animation using Google Gemini."
  }

  /** No two replies get different explanations. */
  lemma ExplanationIgnoresReply(a: string, b: string)
    ensures ExtractExplanation(a) == ExtractExplanation(b)
  {
  }

  /** The confidence score: high for a reply that plays animations without
      importing anything, medium for one with more than three lines, low
      otherwise. */
  function EstimateConfidence(response: string): (r: real)
    ensures r == 0.85 <==> Contains(response, "self.play") && !Contains(response, "import")
    ensures r == 0.75 <==> !(Contains(response, "self.play") && !Contains(response, "import")) && Count(response, '\n') >= 3
    ensures r == 0.65 <==> !(Contains(response, "self.play") && !Contains(response, "import")) && Count(response, '\n') < 3
  {
    if Contains(response, "self.play") && !Contains(response, "import") then 0.85
    else if |Split(response, '\n')| > 3 then 0.75
    else 0.65
  }
}
