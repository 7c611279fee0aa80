// The inference-service client: one round trip per outline or chapter, and the fallback
// policy that decides what is returned when a round trip fails.

module Client {
  import opened Wrappers
  import opened Text
  import opened Config
  import opened Outline
  import opened Prompts
  import opened Content

  /**
   * What one text-generation request yields: the `response` text of the reply, or a failure
   * of any kind (unreachable service, timeout, a non-2xx status, a reply whose `response`
   * field is not text and makes the parser throw).
   */
  datatype CallOutcome = Ok(text: string) | Err

  /** What the health probe yields: an HTTP status, or a request that threw. */
  datatype ProbeOutcome = Status(code: int) | Unreachable

  /** The probe succeeds only when the tags endpoint answers with status exactly 200. */
  function CheckConnection(probe: ProbeOutcome): (ok: bool)
    ensures ok <==> probe == Status(200)
  {
    match probe
    case Status(code) => code == 200
    case Unreachable => false
  }

  /** The specification of generateChapterOutline, given what the service answered. */
  function ChapterOutline(topic: string, c: Complexity, chapters: int, outcome: CallOutcome): seq<string> {
    match outcome
    case Ok(text) => OutlineFromText(text, chapters)
    case Err => FallbackOutline(topic, chapters)
  }

  /**
   * The outline request never fails: whatever the service does, the caller receives exactly
   * `chapters` non-empty titles; a failed call yields the fixed library outline.
   */
  lemma OutlineAlwaysComplete(topic: string, c: Complexity, chapters: int, outcome: CallOutcome)
    requires chapters >= 0
    ensures var r := ChapterOutline(topic, c, chapters, outcome);
      && |r| == chapters
      && (forall k :: 0 <= k < chapters ==> |r[k]| > 0)
      && (outcome.Err? ==> r == FallbackOutline(topic, chapters))
  {
    match outcome {
      case Ok(text) => ParsedOutlineShape(text, chapters);
      case Err => FallbackOutlineShape(topic, chapters);
    }
  }

  /**
   * generateChapterOutline: build the outline prompt, send it, parse the reply; on any
   * failure fall back to the fixed outline. `ask` is the service, prompt to outcome.
   */
  method GenerateChapterOutline(topic: string, complexity: Complexity, chapters: int,
                                ask: string -> CallOutcome) returns (titles: seq<string>)
    ensures titles == ChapterOutline(topic, complexity, chapters, ask(OutlinePrompt(topic, complexity, chapters)))
    ensures chapters >= 0 ==> |titles| == chapters
  {
    var prompt := OutlinePrompt(topic, complexity, chapters);
    var response := ask(prompt);
    match response {
      case Ok(generatedText) =>
        titles := ParseChapterOutline(generatedText, chapters);
      case Err =>
        titles := GenerateFallbackOutline(topic, chapters);
        if chapters >= 0 {
          FallbackOutlineShape(topic, chapters);
        }
    }
  }

  /** The specification of generateChapterContent, given what the service answered. */
  function ChapterContent(topic: string, title: string, c: Complexity, chapterNumber: int,
                          outcome: CallOutcome, lower: string -> string): string
  {
    match outcome
    case Ok(text) => FormattedContent(text, title)
    case Err => FallbackChapter(topic, title, c, chapterNumber, lower)
  }

  lemma PrefixContains(s: string, t: string)
    requires t <= s
    ensures Contains(s, t)
  {
    assert OccursAt(s, t, 0);
  }

  /**
   * Every chapter the client hands back carries a `\section{` command: a reply is given one
   * when it lacks it, and the fallback chapter opens with `\section{title}`.
   */
  lemma ChapterAlwaysSectioned(topic: string, title: string, c: Complexity, chapterNumber: int,
                               outcome: CallOutcome, lower: string -> string)
    ensures Contains(ChapterContent(topic, title, c, chapterNumber, outcome, lower), SectionOpen)
    ensures outcome.Err? ==> SectionCommand(title) <= ChapterContent(topic, title, c, chapterNumber, outcome, lower)
  {
    match outcome {
      case Ok(text) =>
        FormattedContentShape(text, title);
      case Err =>
        var r := FallbackChapter(topic, title, c, chapterNumber, lower);
        FallbackStartsWithSection(topic, title, c, chapterNumber, lower);
        assert SectionOpen <= SectionCommand(title);
        PrefixContains(r, SectionOpen);
    }
  }

  /**
   * The try/catch of generateChapterContent: a reply is formatted, a failed call is replaced by
   * the structured fallback chapter.
   */
  method ContentFromResponse(topic: string, chapterTitle: string, complexity: Complexity, chapterNumber: int,
                             response: CallOutcome, lower: string -> string) returns (content: string)
    ensures content == ChapterContent(topic, chapterTitle, complexity, chapterNumber, response, lower)
  {
    match response {
      case Ok(generatedContent) =>
        content := FormatChapterContent(generatedContent, chapterTitle, chapterNumber);
      case Err =>
        content := FallbackChapter(topic, chapterTitle, complexity, chapterNumber, lower);
    }
  }

  /**
   * generateChapterContent: build the enriched prompt, send it, and turn the outcome into the
   * chapter's LaTeX text.
   */
  method GenerateChapterContent(topic: string, chapterTitle: string, complexity: Complexity,
                                chapterNumber: int, totalChapters: int, previousChapters: seq<string>,
                                chapterOutline: Option<seq<string>>, ask: string -> CallOutcome,
                                lower: string -> string) returns (content: string)
    ensures content == ChapterContent(topic, chapterTitle, complexity, chapterNumber,
                                      ask(ChapterPrompt(topic, chapterTitle, complexity, chapterNumber,
                                                        totalChapters, previousChapters, chapterOutline)),
                                      lower)
  {
    var prompt := BuildEnhancedChapterPrompt(topic, chapterTitle, complexity, chapterNumber, totalChapters,
                                             previousChapters, chapterOutline);
    content := ContentFromResponse(topic, chapterTitle, complexity, chapterNumber, ask(prompt), lower);
  }
}
