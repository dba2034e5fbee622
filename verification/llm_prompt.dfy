/** The prompt sent to the language model
    (backend/app/services/llm_service.py, `_build_prompt`). */
module LlmPrompt {
  import opened Wrappers
  import opened Strings

  // ---------------------------------------------------------------------------
  // The prompt
  // ---------------------------------------------------------------------------

  const PromptIntro: string :=
    "You are a Manim animation expert. Generate clean, efficient Manim code for mathematical animations.\n\nSCENE DESCRIPTION:\n"

  const RequestHeader: string := "\n\nUSER REQUEST:\n"

  const Guidelines: string :=
    "\n\nGUIDELINES:\n"
    + "- Use Manim Community Edition syntax (import from manim)\n"
    + "- Return ONLY the animation method content (not the full class)\n"
    + "- Use the exact object variable names provided in the scene\n"
    + "- Focus on educational clarity and smooth animations\n"
    + "- Include proper timing with self.play() calls\n"
    + "- Use appropriate animation types: Create, Transform, FadeIn, FadeOut, Write, etc.\n"
    + "- Add self.wait() between major animation steps\n"
    + "\nEXAMPLE PATTERNS:\n"

  const Requirements: string :=
    "\n\nCODE REQUIREMENTS:\n"
    + "1. Start with object creation/positioning if needed\n"
    + "2. Use self.play() for each animation step\n"
    + "3. Add descriptive comments\n"
    + "4. Include timing with self.wait() calls\n"
    + "5. End with a final self.wait(2)\n"
    + "\nIMPORTANT: Return only the Python code for the animation method content, no explanations or markdown."

  const PromptEnd: string := "\n\nGenerated animation code:       "

  /** The example snippets quoted in the prompt. */
  const Examples: string :=
    "\n"
    + "# Object creation and introduction\n"
    + "square = Square(color=BLUE).move_to([0, 0, 0])\n"
    + "self.play(Create(square))\n"
    + "\n"
    + "# Object transformation\n"
    + "circle = Circle(color=RED)\n"
    + "self.play(Transform(square, circle))\n"
    + "\n"
    + "# Text and LaTeX\n"
    + "text = Text(\"Hello\").move_to([0, 1, 0])\n"
    + "formula = MathTex(\"x^2 + y^2 = r^2\").move_to([0, -1, 0])\n"
    + "self.play(Write(text), Write(formula))\n"
    + "\n"
    + "# Movement and rotation\n"
    + "self.play(square.animate.shift(RIGHT * 2))\n"
    + "self.play(square.animate.rotate(PI/4))\n"
    + "\n"
    + "# Grouping and complex animations\n"
    + "group = VGroup(square, text)\n"
    + "self.play(group.animate.scale(1.5))\n"

  const ContextHeader: string := "\n\nPrevious context:\n"

  /** The fixed texts of the prompt: the opening up to the description, the
      header before the request, the guidelines after it, the examples and
      requirements, the header of the context section, and the closing line. */
  datatype PromptTemplate = PromptTemplate(intro: string, requestHeader: string, guidelines: string,
                                           middle: string, contextHeader: string, closing: string)

  const Template: PromptTemplate :=
    PromptTemplate(PromptIntro, RequestHeader, Guidelines, Examples + Requirements, ContextHeader, PromptEnd)

  /** The previous-context section: absent for a missing or empty list,
      otherwise the header and the entries one per line. */
  function Section(header: string, context: Option<seq<string>>): (r: string)
    ensures context.None? || context.value == [] ==> r == []
    ensures context.Some? && context.value != [] ==> |r| == |header| + |Join(context.value, '\n')|
  {
    if context.Some? && context.value != [] then header + Join(context.value, '\n') else []
  }

  function Fill(t: PromptTemplate, description: string, request: string, context: Option<seq<string>>): string {
    t.intro + description + t.requestHeader + request + t.guidelines + t.middle + Section(t.contextHeader, context) + t.closing
  }

  /** The prompt for a scene description, a request and optional context. */
  function BuildPrompt(description: string, request: string, context: Option<seq<string>>): string {
    Fill(Template, description, request, context)
  }

  lemma FillShape(t: PromptTemplate, description: string, request: string, context: Option<seq<string>>)
    ensures IsPrefixOf(t.intro + description + t.requestHeader + request, Fill(t, description, request, context))
    ensures IsSuffixOf(Section(t.contextHeader, context) + t.closing, Fill(t, description, request, context))
    ensures IsSubstring(description, Fill(t, description, request, context))
    ensures IsSubstring(request, Fill(t, description, request, context))
  {
    FillAffixes(t, description, request, context);
    FillContainsTexts(t, description, request, context);
  }

  lemma FillAffixes(t: PromptTemplate, description: string, request: string, context: Option<seq<string>>)
    ensures IsPrefixOf(t.intro + description + t.requestHeader + request, Fill(t, description, request, context))
    ensures IsSuffixOf(Section(t.contextHeader, context) + t.closing, Fill(t, description, request, context))
  {
    var front := t.intro + description + t.requestHeader + request;
    var middle := t.guidelines + t.middle;
    var tail := Section(t.contextHeader, context) + t.closing;
    Regroup(front, t.guidelines, t.middle, Section(t.contextHeader, context), t.closing);
    ConcatAffixes(front, middle + tail);
    ConcatAffixes(front + middle, tail);
  }

  lemma FillContainsTexts(t: PromptTemplate, description: string, request: string, context: Option<seq<string>>)
    ensures IsSubstring(description, Fill(t, description, request, context))
    ensures IsSubstring(request, Fill(t, description, request, context))
  {
    var rest := t.guidelines + t.middle + (Section(t.contextHeader, context) + t.closing);
    assert Fill(t, description, request, context) == t.intro + description + (t.requestHeader + request + rest);
    SubstringOfConcat(t.intro, description, t.requestHeader + request + rest);
    assert Fill(t, description, request, context) == (t.intro + description + t.requestHeader) + request + rest;
    SubstringOfConcat(t.intro + description + t.requestHeader, request, rest);
  }

  /** Seq concatenation regrouped: the five pieces, left-nested, equal the
      first piece followed by the rest, and the first three followed by the last two. */
  lemma Regroup(a: string, b: string, c: string, d: string, e: string)
    ensures a + b + c + d + e == a + ((b + c) + (d + e))
    ensures a + b + c + d + e == (a + (b + c)) + (d + e)
  {
  }

  /** The prompt opens with the fixed introduction, the description, the
      request header and the request, contains both texts, and closes with the
      context section (empty without context) and the closing line. */
  lemma PromptShape(description: string, request: string, context: Option<seq<string>>)
    ensures IsPrefixOf(PromptIntro + description + RequestHeader + request, BuildPrompt(description, request, context))
    ensures IsSuffixOf(Section(ContextHeader, context) + PromptEnd, BuildPrompt(description, request, context))
    ensures IsSubstring(description, BuildPrompt(description, request, context))
    ensures IsSubstring(request, BuildPrompt(description, request, context))
  {
    FillShape(Template, description, request, context);
  }

  /** Context only adds text: for any template, the prompts with and without
      a non-empty context share everything before the closing line, and the
      context version puts the header and the entries, one per line, just
      before it. `BuildPrompt` is `Fill` of the service's template. */
  lemma FillContextInserts(t: PromptTemplate, description: string, request: string, context: seq<string>)
    requires context != []
    ensures exists front: string ::
              && Fill(t, description, request, None) == front + t.closing
              && Fill(t, description, request, Some(context)) == front + t.contextHeader + Join(context, '\n') + t.closing
  {
    var front := t.intro + description + t.requestHeader + request + t.guidelines + t.middle;
    assert Fill(t, description, request, Some(context)) == front + t.contextHeader + Join(context, '\n') + t.closing;
  }
}
