/**
 * The prompt templates of the generation service, and the sliding-window context block
 * that tells the model where a chapter sits: the last three chapters written before it
 * and the next two of the outline.
 */
module Prompts {

  import opened Wrappers
  import opened Text
  import opened Config

  // ---------------------------------------------------------------------------
  // buildOutlinePrompt

  /** The audience description for each level, used by the outline prompt. */
  function AudienceDescription(c: Complexity): string {
    match c
    case Beginner => "suitable for newcomers " + "with no prior knowledge"
    case Intermediate => "assuming basic " + "understanding and some " + "experience"
    case Advanced => "for experts requiring " + "deep technical details"
  }

  function OutlineRequestLine(chapters: int): string {
    "Format: Return EXACTLY " + IntToString(chapters) + " chapter titles, one per " +
      "line, numbered from 1 to "
    + IntToString(chapters) + "."
  }

  function OutlineOpening(topic: string, c: Complexity, chapters: int): string {
    "Create a comprehensive " + IntToString(chapters) + "-chapter learning outline " + "for \"" + topic
    + "\" at " + ComplexityName(c) + " level "
  }

  const OutlineRequirements: string :=
    ".\n\nRequirements:\n"
    + "- Each chapter should " + "build logically upon " + "previous ones\n"
    + "- Cover the topic " + "comprehensively from " + "basics to practical " + "applications\n"
    + "- Use clear, descriptive " + "chapter titles\n"
    + "- Ensure proper " + "progression of difficulty\n" + "\n"

  const OutlineExampleFormat: string :=
    "\n\nExample format:\n"
    + "1. Introduction to [Topic]\n"
    + "2. Fundamental Concepts\n"
    + "3. [Specific topic area]\n"
    + "...\n\n"
    + "Generate the outline:"

  function AudienceClause(c: Complexity): string {
    "(" + AudienceDescription(c) + ")"
  }

  /** The specification of buildOutlinePrompt. */
  function OutlinePrompt(topic: string, c: Complexity, chapters: int): string {
    OutlineOpening(topic, c, chapters) + AudienceClause(c)
    + OutlineRequirements + OutlineRequestLine(chapters) + OutlineExampleFormat
  }

  /** The outline prompt asks for exactly the requested number of lines, for the level's audience. */
  lemma OutlinePromptAsks(topic: string, c: Complexity, chapters: int)
    ensures Contains(OutlinePrompt(topic, c, chapters), OutlineRequestLine(chapters))
    ensures Contains(OutlinePrompt(topic, c, chapters), AudienceClause(c))
  {
    var o, a, q := OutlineOpening(topic, c, chapters), AudienceClause(c), OutlineRequestLine(chapters);
    ContainsSuffix(o, a);
    ContainsLeft(o + a, OutlineRequirements, a);
    ContainsLeft(o + a + OutlineRequirements, q, a);
    ContainsLeft(o + a + OutlineRequirements + q, OutlineExampleFormat, a);
    ContainsSuffix(o + a + OutlineRequirements, q);
    ContainsLeft(o + a + OutlineRequirements + q, OutlineExampleFormat, q);
  }

  // ---------------------------------------------------------------------------
  // buildContextualInstructions

  const IntroFraming: string :=
    "This is the introductory " + "chapter. Establish the " + "foundation and motivate " +
      "the reader's interest in " + "the topic."
  const FinalFraming: string :=
    "This is the final " + "chapter. Synthesize " + "previous concepts and " + "provide closure with " +
      "future directions."
  const MiddleFraming: string :=
    "This is a middle chapter " + "that should build upon " + "previous concepts while " +
      "preparing for advanced " + "topics."

  /** The one framing sentence for a chapter's position: the first test that holds wins. */
  function Framing(chapterNumber: int, totalChapters: int): string {
    if chapterNumber == 1 then IntroFraming
    else if chapterNumber == totalChapters then FinalFraming
    else MiddleFraming
  }

  /**
   * The framing is introductory exactly for chapter 1 (even when it is also the last),
   * final exactly for a last chapter other than 1, and middle otherwise; the three
   * sentences are distinct.
   */
  lemma FramingChoice(chapterNumber: int, totalChapters: int)
    ensures Framing(chapterNumber, totalChapters) == IntroFraming <==> chapterNumber == 1
    ensures Framing(chapterNumber, totalChapters) == FinalFraming
      <==> chapterNumber != 1 && chapterNumber == totalChapters
    ensures Framing(chapterNumber, totalChapters) == MiddleFraming
      <==> chapterNumber != 1 && chapterNumber != totalChapters
  {
    assert |IntroFraming| == 107 && |FinalFraming| == 99 && |MiddleFraming| == 102;
  }

  const PreviousHeader: string := "\n\n**Previous chapters " + "covered:**\n"
  const PreviousFooter: string := "\nBuild upon these " + "concepts naturally " + "without repeating content."
  const UpcomingHeader: string := "\n\n**Upcoming chapters " + "will cover:**\n"
  const UpcomingFooter: string := "\nPrepare the reader for " + "these topics by " + "introducing relevant " +
    "concepts."

  /** One listed chapter: the number shown and the title. */
  datatype Entry = Entry(number: int, title: string)

  function EntryLine(e: Entry): string {
    "- Chapter " + IntToString(e.number) + ": " + e.title + "\n"
  }

  /** The entries rendered one line each, in order. */
  function RenderEntries(es: seq<Entry>): string {
    if |es| == 0 then "" else RenderEntries(es[..|es| - 1]) + EntryLine(es[|es| - 1])
  }

  /** `previousChapters.slice(-3)`, the idx-th numbered `previousChapters.length - 2 + idx`. */
  function PreviousEntries(previous: seq<string>): seq<Entry> {
    var last := SliceFrom(previous, -3);
    seq(|last|, idx requires 0 <= idx < |last| => Entry(|previous| - 2 + idx, last[idx]))
  }

  /** `chapterOutline.slice(chapterNumber, chapterNumber + 2)`, numbered `chapterNumber + idx + 1`. */
  function UpcomingEntries(chapterNumber: int, outline: seq<string>): seq<Entry> {
    var next := Slice(outline, chapterNumber, chapterNumber + 2);
    seq(|next|, idx requires 0 <= idx < |next| => Entry(chapterNumber + idx + 1, next[idx]))
  }

  function PreviousBlock(previous: seq<string>): string {
    if |previous| > 0 then PreviousHeader + RenderEntries(PreviousEntries(previous)) + PreviousFooter
    else ""
  }

  function UpcomingBlock(chapterNumber: int, totalChapters: int, outline: Option<seq<string>>): string {
    if outline.Some? && chapterNumber < totalChapters then
      UpcomingHeader + RenderEntries(UpcomingEntries(chapterNumber, outline.value)) + UpcomingFooter
    else ""
  }

  /** The specification of buildContextualInstructions. */
  function ContextualInstructions(chapterNumber: int, totalChapters: int, previous: seq<string>,
                                  outline: Option<seq<string>>): string
  {
    Framing(chapterNumber, totalChapters) + PreviousBlock(previous)
    + UpcomingBlock(chapterNumber, totalChapters, outline)
  }

  /**
   * The block of previous chapters is present exactly when there is a previous chapter,
   * and the block of upcoming chapters exactly when an outline is given and the chapter
   * is not the last; each present block opens with its heading line.
   */
  lemma ContextBlocks(chapterNumber: int, totalChapters: int, previous: seq<string>,
                      outline: Option<seq<string>>)
    ensures PreviousBlock(previous) != "" <==> |previous| > 0
    ensures |previous| > 0 ==> PreviousHeader <= PreviousBlock(previous)
    ensures UpcomingBlock(chapterNumber, totalChapters, outline) != ""
      <==> outline.Some? && chapterNumber < totalChapters
    ensures outline.Some? && chapterNumber < totalChapters ==>
      UpcomingHeader <= UpcomingBlock(chapterNumber, totalChapters, outline)
  {
    if |previous| > 0 {
      assert PreviousBlock(previous)[0] == '\n';
    }
    if outline.Some? && chapterNumber < totalChapters {
      assert UpcomingBlock(chapterNumber, totalChapters, outline)[0] == '\n';
    }
  }

  /**
   * At most the last three previous titles are listed, in order, numbered
   * `len - 2`, `len - 1`, `len`: each shown number is the title's 1-based position minus
   * `3 - k` where k is how many are listed, so the numbers match the positions only from
   * the fourth chapter on (chapter 2 lists its predecessor as "Chapter -1").
   */
  lemma PreviousEntriesShape(previous: seq<string>)
    ensures var es := PreviousEntries(previous);
      && |es| == (if |previous| < 3 then |previous| else 3)
      && forall idx :: 0 <= idx < |es| ==>
           && es[idx].title == previous[|previous| - |es| + idx]
           && es[idx].number == (|previous| - |es| + idx + 1) + (|es| - 3)
  {
  }

  /**
   * For a chapter number in range, the upcoming entries are the next (up to) two titles of
   * the outline, each numbered with its own 1-based position in the outline.
   */
  lemma UpcomingEntriesShape(chapterNumber: int, outline: seq<string>)
    requires 0 <= chapterNumber <= |outline|
    ensures var es := UpcomingEntries(chapterNumber, outline);
      && |es| == (if chapterNumber + 2 <= |outline| then 2 else |outline| - chapterNumber)
      && forall idx :: 0 <= idx < |es| ==>
           es[idx].title == outline[chapterNumber + idx] && es[idx].number == chapterNumber + idx + 1
  {
  }

  /** buildContextualInstructions as the service runs it: string accumulation over two loops. */
  method BuildContextualInstructions(chapterNumber: int, totalChapters: int, previousChapters: seq<string>,
                                     chapterOutline: Option<seq<string>>) returns (context: string)
    ensures context == ContextualInstructions(chapterNumber, totalChapters, previousChapters, chapterOutline)
  {
    context := "";
    if chapterNumber == 1 {
      context := context + IntroFraming;
    } else if chapterNumber == totalChapters {
      context := context + FinalFraming;
    } else {
      context := context + MiddleFraming;
    }
    assert context == Framing(chapterNumber, totalChapters);
    ghost var framed := context;
    context := AppendPreviousChapters(context, previousChapters);
    ghost var withPrevious := context;
    context := AppendUpcomingChapters(context, chapterNumber, totalChapters, chapterOutline);
    ConcatAssoc(framed, PreviousBlock(previousChapters), UpcomingBlock(chapterNumber, totalChapters, chapterOutline));
  }

  lemma RenderPrefix(es: seq<Entry>, k: nat)
    requires k < |es|
    ensures RenderEntries(es[..k + 1]) == RenderEntries(es[..k]) + EntryLine(es[k])
  {
    assert es[..k + 1][..k] == es[..k];
  }

  /** Appends the rendered lines of `es` one by one, as the `forEach` callbacks do. */
  method AppendEntries(context: string, es: seq<Entry>) returns (r: string)
    ensures r == context + RenderEntries(es)
  {
    r := context;
    for idx := 0 to |es|
      invariant r == context + RenderEntries(es[..idx])
    {
      RenderPrefix(es, idx);
      var line := EntryLine(es[idx]);
      ConcatAssoc(context, RenderEntries(es[..idx]), line);
      r := r + line;
    }
    assert es[..|es|] == es;
  }

  /** The `previousChapters` part of buildContextualInstructions. */
  method AppendPreviousChapters(context: string, previousChapters: seq<string>) returns (r: string)
    ensures r == context + PreviousBlock(previousChapters)
  {
    r := context;
    if |previousChapters| > 0 {
      var last := SliceFrom(previousChapters, -3);
      var es := seq(|last|, idx requires 0 <= idx < |last| => Entry(|previousChapters| - 2 + idx, last[idx]));
      var rendered := AppendEntries(r + PreviousHeader, es);
      r := rendered + PreviousFooter;
      ConcatAssoc(context, PreviousHeader, RenderEntries(es));
      ConcatAssoc(context, PreviousHeader + RenderEntries(es), PreviousFooter);
    }
  }

  /** The `chapterOutline` part of buildContextualInstructions. */
  method AppendUpcomingChapters(context: string, chapterNumber: int, totalChapters: int,
                                chapterOutline: Option<seq<string>>) returns (r: string)
    ensures r == context + UpcomingBlock(chapterNumber, totalChapters, chapterOutline)
  {
    r := context;
    if chapterOutline.Some? && chapterNumber < totalChapters {
      var nextChapters := Slice(chapterOutline.value, chapterNumber, chapterNumber + 2);
      var es := seq(|nextChapters|, idx requires 0 <= idx < |nextChapters| =>
                      Entry(chapterNumber + idx + 1, nextChapters[idx]));
      var rendered := AppendEntries(r + UpcomingHeader, es);
      r := rendered + UpcomingFooter;
      ConcatAssoc(context, UpcomingHeader, RenderEntries(es));
      ConcatAssoc(context, UpcomingHeader + RenderEntries(es), UpcomingFooter);
    }
  }

  /** In the pipeline's first chapter there is no previous-chapters block. */
  lemma FirstChapterHasNoPrevious(totalChapters: int, outline: Option<seq<string>>)
    ensures ContextualInstructions(1, totalChapters, [], outline)
         == IntroFraming + UpcomingBlock(1, totalChapters, outline)
  {
  }

  /** The last chapter has no upcoming-chapters block. */
  lemma LastChapterHasNoUpcoming(chapterNumber: int, previous: seq<string>, outline: Option<seq<string>>)
    requires chapterNumber != 1
    ensures ContextualInstructions(chapterNumber, chapterNumber, previous, outline)
         == FinalFraming + PreviousBlock(previous)
  {
  }

  // ---------------------------------------------------------------------------
  // buildEnhancedChapterPrompt

  /** The writing-style directive for each level. */
  function StyleDirective(c: Complexity): string {
    match c
    case Beginner =>
      BeginnerStyle
    case Intermediate =>
      IntermediateStyle
    case Advanced =>
      AdvancedStyle
  }

  const BeginnerStyle: string :=
    "Use clear, simple " + "language. Define all " + "technical terms. Include " + "basic examples and " +
      "step-by-step "
    + "explanations. Focus on " + "understanding rather than " + "implementation."
  const IntermediateStyle: string :=
    "Assume familiarity with " + "basic concepts. Include " + "technical details and " +
      "code examples. Balance " + "theory "
    + "with practical applications."
  const AdvancedStyle: string :=
    "Provide deep technical " + "analysis. Include complex " + "examples, mathematical " +
      "proofs, implementation "
    + "details, and cutting-edge " + "research references."

  /** `\section{title}`, the LaTeX command a chapter opens with. */
  function SectionCommand(title: string): string {
    "\\section{" + title + "}"
  }

  const DetailsLead: string := "You are an expert " + "technical writer creating " + "Chapter "
  const DetailsOf: string := " of a comprehensive "
  const DetailsTopic: string := "-chapter learning " + "document on \""
  const DetailsTitle: string := "\".\n\n## Chapter Details:\n" + "**Title:** "
  const DetailsPosition: string := "\n**Position:** Chapter "
  const DetailsOutOf: string := " of "
  const DetailsLevel: string := "\n**Complexity Level:** "
  const DetailsContext: string := "\n\n## Context & Flow:\n"

  /** The prompt up to the context block: the chapter's position, title and level. */
  function ChapterDetails(topic: string, title: string, c: Complexity, chapterNumber: int, totalChapters: int): string {
    DetailsLead + IntToString(chapterNumber) + DetailsOf + IntToString(totalChapters) + DetailsTopic + topic
    + DetailsTitle + title + DetailsPosition + IntToString(chapterNumber) + DetailsOutOf
    + IntToString(totalChapters) + DetailsLevel + ComplexityName(c) + DetailsContext
  }

  const InstructionsHeading: string := "\n\n## Writing " + "Instructions:\n- " + "**Style:** "

  const WritingRules: string :=
    "\n- **Format:** Use proper " + "LaTeX formatting " + "throughout\n"
    + "- **Length:** Generate " + "substantial content " + "(2,000-3,000 words " + "equivalent)\n"
    + "- **Structure:** Use " + "\\section{}, " + "\\subsection{}, and " + "\\subsubsection{} " +
      "appropriately\n"
    + "- **Examples:** Include " + "concrete, relevant " + "examples\n"
    + "- **Exercises:** Add " + "practice problems or " + "thought exercises\n"
    + "- **Mathematical " + "Content:** Use LaTeX math " + "notation where " + "appropriate\n\n"
    + "## Required Elements:\n"
    + "1. Clear section " + "structure with logical " + "progression\n"
    + "2. Practical examples " + "that reinforce concepts\n"
    + "3. Key takeaways or " + "summary points\n"
    + "4. Connection to previous " + "and upcoming chapters\n\n"
    + "## Output Format:\n"
    + "Generate ONLY the LaTeX " + "content for this chapter. " + "Start directly with "

  const PromptClosing: string := " and continue with the " + "full chapter content.\n\n" +
    "Generate the chapter now:"

  /** The specification of buildEnhancedChapterPrompt. */
  function ChapterPrompt(topic: string, title: string, c: Complexity, chapterNumber: int, totalChapters: int,
                         previous: seq<string>, outline: Option<seq<string>>): string
  {
    ChapterDetails(topic, title, c, chapterNumber, totalChapters)
    + ContextualInstructions(chapterNumber, totalChapters, previous, outline)
    + InstructionsHeading + StyleDirective(c) + WritingRules + SectionCommand(title) + PromptClosing
  }

  /**
   * The chapter prompt carries the whole context block, the level's style directive and
   * the exact `\section{title}` the chapter must open with.
   */
  lemma ChapterPromptCarries(topic: string, title: string, c: Complexity, chapterNumber: int,
                             totalChapters: int, previous: seq<string>, outline: Option<seq<string>>)
    ensures var p := ChapterPrompt(topic, title, c, chapterNumber, totalChapters, previous, outline);
      && Contains(p, ContextualInstructions(chapterNumber, totalChapters, previous, outline))
      && Contains(p, StyleDirective(c))
      && Contains(p, SectionCommand(title))
  {
    var d := ChapterDetails(topic, title, c, chapterNumber, totalChapters);
    var x := ContextualInstructions(chapterNumber, totalChapters, previous, outline);
    var y := StyleDirective(c);
    var z := SectionCommand(title);
    ContainsSuffix(d, x);
    ContainsLeft(d + x, InstructionsHeading, x);
    ContainsLeft(d + x + InstructionsHeading, y, x);
    ContainsLeft(d + x + InstructionsHeading + y, WritingRules, x);
    ContainsLeft(d + x + InstructionsHeading + y + WritingRules, z, x);
    ContainsLeft(d + x + InstructionsHeading + y + WritingRules + z, PromptClosing, x);
    ContainsSuffix(d + x + InstructionsHeading, y);
    ContainsLeft(d + x + InstructionsHeading + y, WritingRules, y);
    ContainsLeft(d + x + InstructionsHeading + y + WritingRules, z, y);
    ContainsLeft(d + x + InstructionsHeading + y + WritingRules + z, PromptClosing, y);
    ContainsSuffix(d + x + InstructionsHeading + y + WritingRules, z);
    ContainsLeft(d + x + InstructionsHeading + y + WritingRules + z, PromptClosing, z);
  }

  /** buildEnhancedChapterPrompt: the context block is built first, then spliced into the template. */
  method BuildEnhancedChapterPrompt(topic: string, chapterTitle: string, complexity: Complexity,
                                    chapterNumber: int, totalChapters: int, previousChapters: seq<string>,
                                    chapterOutline: Option<seq<string>>) returns (prompt: string)
    ensures prompt == ChapterPrompt(topic, chapterTitle, complexity, chapterNumber, totalChapters,
                                    previousChapters, chapterOutline)
  {
    var contextualInstructions := BuildContextualInstructions(chapterNumber, totalChapters, previousChapters,
                                                              chapterOutline);
    prompt := ChapterDetails(topic, chapterTitle, complexity, chapterNumber, totalChapters)
      + contextualInstructions + InstructionsHeading + StyleDirective(complexity) + WritingRules
      + SectionCommand(chapterTitle) + PromptClosing;
  }
}
