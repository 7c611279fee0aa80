# learning-doc-generator in Dafny

This project models the core of the learning-document generator. A user asks for a
document on a topic: a complexity level and a number of chapters. The HTTP endpoint
validates the request and hands it to a document generator. The generator registers a job
and drives it through a pipeline:

1. check that the local inference service (Ollama) answers;
2. ask it for a chapter outline;
3. ask for each chapter in turn, with the titles already written and the ones still to come
   as context;
4. hand the chapters to the LaTeX service for assembly, validation and PDF compilation.

The job's status and progress are updated at every step. The generation client never lets a
failed request through. A failed outline request gives a fixed library outline, and a failed
chapter request gives a fixed structured chapter.

The modules follow the program:

- `Config`: the limits (3 to 12 chapters, 6 by default), the three complexity levels and the
  record types.
- `Text`: the JavaScript string primitives the code relies on (`trim`, `split`, `includes`,
  `slice`, the decimal rendering of numbers, `\s` and `\d`).
- `Outline`: `parseChapterOutline`, including its line regex with the regex engine's
  backtracking order; and `generateFallbackOutline`, as the loops the source runs and as the
  functions that specify them.
- `Prompts`: the outline and chapter prompt templates, and `buildContextualInstructions`, the
  sliding-window context block.
- `Content`: `formatChapterContent`, whose eight global `replace` calls are each modelled as a
  left-to-right scanner; and the fallback chapter template.
- `Client`: `checkConnection`, `generateChapterOutline` and `generateChapterContent`. A
  request to the service is a function from the prompt to an outcome, `Ok(text)` or `Err`. The
  catch-and-fall-back policy is a total function of that outcome.
- `Orchestrator`:
  - a `Job` class, whose status, progress, end time, result and error are overwritten step by
    step. Ghost logs record every status and progress value written.
  - the `DocumentGenerator` class, with its map of jobs and the pipeline as methods.
  - specification functions, `Run` and `Outcome`, for what one run writes.
  - lemmas about progress, status and outcomes.
- `JsParse`: the global `parseInt` with one argument, as the endpoint applies it.
- `Api`: the POST handler. An ordered chain of checks decides between a 400 rejection, a
  created job with 200, and a 500 for a thrown exception.

The pipeline's collaborators form one `Services` value:

- what the connection probe resolved to;
- the outline and chapter requests;
- the three LaTeX steps, each of which may throw;
- the clock reading.

`Orchestrator.OllamaChapters` ties those requests to the generation client's own.

Three behaviours of the code, which the model keeps, are easy to misread from its names and
comments:

- generateDocument creates the job as `pending` at 0% (src/services/documentGenerator.ts:21-22),
  but returns it already `processing` at 10%. An async function runs synchronously up to its
  first `await`, so the status and progress writes of processGeneration
  (src/services/documentGenerator.ts:47-48) happen before the return.
- formatChapterContent ends its chain with `.trim()` (src/services/ollama.ts:300), so whitespace
  is removed from both ends of the chapter, although the step after it only concerns the end.
- The comment on the first cleanup rule of formatChapterContent says it limits newlines to at
  most three (src/services/ollama.ts:292). The blank-line rule at src/services/ollama.ts:299
  runs later and replaces those three newlines by two. So a run of four or more newlines between
  two words ends as a single blank line (`Content.NewlineRunCollapses`).

## Model

| member | source | states |
|---|---|---|
| Config.ComplexityName | src/config.ts:12 | every level is named by one of the accepted strings |
| Config.ParseComplexity | src/config.ts:29 | a string names a level exactly when it is one of `beginner`, `intermediate`, `advanced`, and that level's name is the string |
| Config.ComplexityRoundTrip | src/config.ts:12 | each level's name parses back to that same level, so the three names are distinct |
| Config.DefaultChaptersInRange | src/config.ts:9-11 | the default of 6 chapters lies within the accepted 3..12 |
| Outline.MatchTitle | src/services/ollama.ts:234-238 | a title extracted from a line is never empty |
| Outline.NoTitleWithoutMarker | src/services/ollama.ts:236 | a trimmed line starting with neither a digit nor a `c`/`C` gives no title |
| Outline.NumberedLine | src/services/ollama.ts:236 | a line `n. title`, for any non-empty digit string `n` and a trimmed single-line title, gives exactly that title |
| Outline.DigitRunOfPrefix | src/services/ollama.ts:236 | `\d+` takes exactly the leading digit string when a non-digit follows it |
| Outline.ColonTitle | src/services/ollama.ts:236 | `:?\s*(.+)$` on `: title` captures exactly the title |
| Outline.CapitalChapterWord | src/services/ollama.ts:236 | the word `Chapter` matches the case-insensitive `Chapter` of the pattern |
| Outline.ChapterLine | src/services/ollama.ts:235-238 | a line `Chapter n: title`, for any non-empty digit string `n` and a trimmed single-line title, gives exactly that title |
| Outline.ChapterTwelveExample | src/services/ollama.ts:236 | `Chapter 12` matches by backtracking `\d+` to one digit, so its title is `2` |
| Outline.BareNumberExample | src/services/ollama.ts:236 | `1.` alone gives no title |
| Outline.BareChapterExample | src/services/ollama.ts:236 | `Chapter 1` alone gives no title |
| Outline.EmptyLineExample | src/services/ollama.ts:236-237 | an empty line gives no title |
| Outline.MatchedTitles | src/services/ollama.ts:233-240 | every title collected from the lines is non-empty |
| Outline.MatchedTitlesConcat | src/services/ollama.ts:233-240 | titles are collected in line order: the titles of `a + b` are those of `a` followed by those of `b`, and lines without a title add nothing |
| Outline.SplitExample | src/services/ollama.ts:230 | `"1. Foo\n2. Bar\n"` splits into the lines `1. Foo`, `2. Bar` and an empty last line |
| Outline.AdvancedTopic | src/services/ollama.ts:244 | a padding title is never empty |
| Outline.Padded | src/services/ollama.ts:243-245 | padding keeps the collected titles in front and puts `Advanced Topic k` at each added 1-based position k, up to the requested count |
| Outline.PaddedExample | src/services/ollama.ts:243-245 | `[Foo, Bar]` padded to 4 is `[Foo, Bar, Advanced Topic 3, Advanced Topic 4]` |
| Outline.ParsedOutlineShape | src/services/ollama.ts:228-249 | for n >= 0 the parsed outline has exactly n non-empty titles: the first n matched titles when enough matched, else all of them followed by `Advanced Topic k` at each remaining position k |
| Outline.ParsedOutlineNegative | src/services/ollama.ts:248 | for a negative count, `slice(0, n)` drops the last |n| matched titles |
| Outline.ParseChapterOutline | src/services/ollama.ts:228-249 | the collecting loop, the padding loop and the slice compute the parsed outline; for n >= 0 it has n non-empty titles |
| Outline.BaseChapters | src/services/ollama.ts:252-265 | the library holds twelve non-empty titles |
| Outline.FallbackOutlineShape | src/services/ollama.ts:251-279 | for n >= 0 the fallback outline has n non-empty titles and opens with `Introduction to <topic>`; up to 12 it is a prefix of the library, beyond 12 it is the library followed by `Advanced Topic 1` .. `Advanced Topic n-12` |
| Outline.GenerateFallbackOutline | src/services/ollama.ts:251-279 | the copy-then-push loop computes the fallback outline |
| Prompts.OutlinePromptAsks | src/services/ollama.ts:202-226 | the outline prompt asks for exactly the requested number of lines and carries the level's audience description |
| Prompts.FramingChoice | src/services/ollama.ts:162-168 | the framing is introductory exactly for chapter 1, even when it is also the last; it is final exactly for a last chapter other than 1, and middle otherwise |
| Prompts.ContextBlocks | src/services/ollama.ts:170-186 | the previous-chapters block appears exactly when there is a previous chapter; the upcoming block appears exactly when an outline is given and the chapter is not the last; each opens with its heading |
| Prompts.PreviousEntriesShape | src/services/ollama.ts:170-175 | at most the last three previous titles are listed, in order, numbered len-2, len-1, len, so with fewer than three the numbers start below 1 |
| Prompts.UpcomingEntriesShape | src/services/ollama.ts:179-184 | the upcoming block lists the next (up to) two outline titles, each numbered with its 1-based position in the outline |
| Prompts.AppendEntries | src/services/ollama.ts:172-183 | the `forEach` loop appends the rendered entry lines in order |
| Prompts.AppendPreviousChapters | src/services/ollama.ts:170-177 | the previous-chapters part appends exactly the previous block |
| Prompts.AppendUpcomingChapters | src/services/ollama.ts:179-186 | the outline part appends exactly the upcoming block |
| Prompts.BuildContextualInstructions | src/services/ollama.ts:154-189 | the accumulated context is the framing, then the previous block, then the upcoming block |
| Prompts.FirstChapterHasNoPrevious | src/services/ollama.ts:162-177 | chapter 1 with no previous titles gets the introductory framing and no previous block |
| Prompts.LastChapterHasNoUpcoming | src/services/ollama.ts:164-186 | the last chapter, when it is not chapter 1, gets the final framing and no upcoming block |
| Prompts.ChapterPromptCarries | src/services/ollama.ts:123-151 | the chapter prompt contains the whole context block, the level's style directive and the exact `\section{title}` the chapter must start with |
| Prompts.BuildEnhancedChapterPrompt | src/services/ollama.ts:101-152 | the prompt is the chapter template with the built context block spliced in |
| Content.ReplaceKeepsSection | src/services/ollama.ts:292-299 | every replacement rule of the cleanup chain keeps some `\section{` in the text |
| Content.ChainKeepsSection | src/services/ollama.ts:291-299 | the whole chain keeps a `\section{`, and keeps it at the front when it was there |
| Content.ChainInOrder | src/services/ollama.ts:291-299 | the chain applies the newline cap, the six delimited rules and the blank-line rule, in the order the code writes them |
| Content.NoDelimiterUnchanged | src/services/ollama.ts:293-298 | a rule whose match opens with `\\` or `$` leaves a text without either character unchanged |
| Content.CapOfFour | src/services/ollama.ts:292 | the cap replaces four newlines before a non-newline by three |
| Content.BlankOfThree | src/services/ollama.ts:299 | the blank-line rule replaces three newlines before a non-blank by two |
| Content.NewlineRunCollapses | src/services/ollama.ts:291-299 | four newlines between two words leave the whole chain as two newlines: one blank line, not the three newlines the comment on the cap describes |
| Content.HeadedHasSection | src/services/ollama.ts:286-288 | after the header step the text contains `\section{`, and starts with it when the model's text lacked one |
| Content.CleanedHasSection | src/services/ollama.ts:286-300 | after the chain and `trim` the text is non-empty, has no whitespace at either end and still contains `\section{` |
| Content.FormattedContentShape | src/services/ollama.ts:281-308 | the normalised chapter contains `\section{`, starts with it when the input lacked it, has no leading whitespace, and is a trimmed text followed by exactly one newline |
| Content.FormatChapterContent | src/services/ollama.ts:281-308 | the reassignment chain computes the normalised chapter and meets its shape |
| Content.FallbackStartsWithSection | src/services/ollama.ts:326 | the fallback chapter starts with `\section{title}` |
| Content.FallbackSubsectionsInOrder | src/services/ollama.ts:330-372 | the fallback chapter has the six subsections Overview, Key Concepts, Detailed Analysis, Practical Applications, Exercises and Practice, Summary, at strictly increasing offsets |
| Content.ChapterContextChoice | src/services/ollama.ts:322-324 | the introductory sentence is used exactly for chapter 1 |
| Client.CheckConnection | src/services/ollama.ts:191-200 | the service counts as connected exactly when the tags probe answers status 200; a thrown request counts as not connected |
| Client.OutlineAlwaysComplete | src/services/ollama.ts:25-49 | whatever the service does, the outline has exactly the requested number of non-empty titles; a failed call gives the fallback outline |
| Client.GenerateChapterOutline | src/services/ollama.ts:25-49 | the outline is the parsed reply to the outline prompt, or the fallback outline on failure, and has the requested length |
| Client.ChapterAlwaysSectioned | src/services/ollama.ts:91-98 | every chapter handed back contains `\section{`; a fallback chapter starts with `\section{title}` |
| Client.ContentFromResponse | src/services/ollama.ts:91-98 | a reply is normalised and a failed call is replaced by the fallback chapter |
| Client.GenerateChapterContent | src/services/ollama.ts:51-99 | the chapter is the policy applied to the service's answer to the enriched prompt |
| Orchestrator.Job.constructor | src/services/documentGenerator.ts:18-24 | a new job holds its id, request and start time, and is `pending` at progress 0 with no end time, result or error |
| Orchestrator.Job.SetStatus | src/services/documentGenerator.ts:47 | writing the status changes only the status and logs the value |
| Orchestrator.Job.SetProgress | src/services/documentGenerator.ts:48 | writing the progress changes only the progress and logs the value |
| Orchestrator.RampShape | src/services/documentGenerator.ts:75-101 | after chapter k (0-based) of n the loop writes 30 + (k+1)/n * 50 |
| Orchestrator.RampValueBounds | src/services/documentGenerator.ts:94 | the ramp values rise strictly above 30, never fall, never exceed 80, and the last one is exactly 80 |
| Orchestrator.ChapterTrailShape | src/services/documentGenerator.ts:48-101 | progress up to the end of the chapter loop (10, 20, 30, the ramp) never drops, stays within 80, and stands at exactly 80 after a non-empty outline |
| Orchestrator.FinishTrail | src/services/documentGenerator.ts:103-127 | after the chapters progress goes 85, 85, 90, 95, 100 as far as the run gets, with 100 last on completion |
| Orchestrator.ProgressMonotone | src/services/documentGenerator.ts:48-127 | a run's progress values never decrease and never exceed 100, end at exactly 100 for a completed job, and are exactly 80 once the chapters of a non-empty outline are written |
| Orchestrator.StatusTrace | src/services/documentGenerator.ts:47-150 | status moves only pending, processing, then completed or failed; a repeated write repeats the value, and a run ends completed or failed |
| Orchestrator.OutcomeShape | src/services/documentGenerator.ts:107-150 | a completed job has the assembled LaTeX, the compiler's path and success flag, and no error; a failed job has no result, and its error is the thrown value's message |
| Orchestrator.ConnectionFailureFails | src/services/documentGenerator.ts:52-55 | without a connection the job fails at progress 10 with `Failed to connect to Ollama service`, and nothing more is written |
| Orchestrator.ValidationIgnored | src/services/documentGenerator.ts:113-116 | the validator's verdict does not change the run |
| Orchestrator.ChaptersShape | src/services/documentGenerator.ts:72-101 | there is one chapter text per title, in outline order; chapter k is requested with number k+1, the total, the k titles before it and the whole outline |
| Orchestrator.OllamaChapters | src/services/documentGenerator.ts:61-91 | with the generation client's own requests the outline has exactly the requested length, there is one chapter per title, and every chapter passed to the LaTeX service contains `\section{` |
| Orchestrator.OllamaChapterPrompts | src/services/documentGenerator.ts:75-91 | the prompt sent for the title at position k is built for chapter k + 1 of the outline's length, carries the context block of the titles before it and of the whole outline, and carries `\section{` + that title + `}` |
| Orchestrator.Without | src/services/documentGenerator.ts:158-160 | removing an id from the insertion order keeps exactly the other ids |
| Orchestrator.WithoutKeepsDistinct | src/services/documentGenerator.ts:158-160 | removing an id keeps the remaining ids distinct |
| Orchestrator.CountsCover | src/services/documentGenerator.ts:162-171 | the four per-state counts add up to the number of jobs |
| Orchestrator.DocumentGenerator.constructor | src/services/documentGenerator.ts:8 | a new generator has no jobs |
| Orchestrator.DocumentGenerator.GenerateDocument | src/services/documentGenerator.ts:15-37 | the job is registered under its id; the same object is returned, already `processing` at 10% after `pending` at 0, with nothing else set |
| Orchestrator.DocumentGenerator.GetJobStatus | src/services/documentGenerator.ts:39-41 | the stored job when the id is registered, nothing otherwise |
| Orchestrator.DocumentGenerator.GetAllJobs | src/services/documentGenerator.ts:154-156 | every registered job, once each, in insertion order |
| Orchestrator.DocumentGenerator.DeleteJob | src/services/documentGenerator.ts:158-160 | reports whether the id was registered and removes only that entry; the other jobs keep their order |
| Orchestrator.DocumentGenerator.GetJobsStats | src/services/documentGenerator.ts:162-171 | the total is the number of jobs, each state's count is the number of registered jobs in that state, and pending + processing + completed + failed is the total |
| Orchestrator.CountIsIndices | src/services/documentGenerator.ts:162-171 | counting a state over a list of jobs gives the number of positions whose job is in that state |
| Orchestrator.DocumentGenerator.GenerateChapters | src/services/documentGenerator.ts:72-101 | the loop requests the chapters in order with the growing list of titles before each, and writes the ramp after each |
| Orchestrator.DocumentGenerator.FinishJob | src/services/documentGenerator.ts:103-134 | assembly, validation and compilation write 85, 85, 90, 95, 100 as far as they get; on success the job is completed with end time and result, and a thrown value is handed back with the status untouched |
| Orchestrator.DocumentGenerator.GenerateConnected | src/services/documentGenerator.ts:57-134 | after a successful probe the job goes through outline, chapters and the rest exactly as the run specification says |
| Orchestrator.DocumentGenerator.CatchFailure | src/services/documentGenerator.ts:145-151 | the catch block marks the job failed with the Error's message or `Unknown error occurred`, sets the end time and keeps the progress |
| Orchestrator.DocumentGenerator.ProcessGeneration | src/services/documentGenerator.ts:43-152 | the job ends completed with its result, or failed with the caught message and the value rethrown; progress follows the fixed schedule and the end time is set |
| Orchestrator.DocumentGenerator.HandleFailure | src/services/documentGenerator.ts:29-34 | the attached handler marks the job failed and takes the thrown value's `message`; for null or undefined it stops at that read |
| Orchestrator.DocumentGenerator.RunJob | src/services/documentGenerator.ts:29-152 | the whole background run, handler included, leaves the job in the state the outcome specification gives |
| JsParse.ParseIntReadsDecimal | src/pages/api/generate-document.ts:41 | parseInt reads back the decimal text of every integer when what follows starts with a character that is not a letter or digit |
| JsParse.ParseIntOfDecimal | src/pages/api/generate-document.ts:41 | parseInt reads back the decimal text of every integer |
| JsParse.ParseIntPadded | src/pages/api/generate-document.ts:41 | leading whitespace and a tail such as `.9` or ` chapters` do not change the number read |
| JsParse.ParseIntSkipsSpaces | src/pages/api/generate-document.ts:41 | leading whitespace does not change what parseInt reads |
| JsParse.MinusSign | src/pages/api/generate-document.ts:41 | a leading minus negates the number the digits denote |
| Api.StatusCode | src/pages/api/generate-document.ts:22-95 | a rejection answers 400, a started job 200, an exception 500, and nothing else |
| Api.MessagesFollowConfig | src/pages/api/generate-document.ts:31-49 | the rejection messages list the configured level names joined by `, ` and the configured 3 and 12 |
| Api.AcceptedExactly | src/pages/api/generate-document.ts:19-63 | a body is accepted exactly when it has a non-empty string topic, an accepted complexity name, and a truthy count that parseInt reads within 3..12; the job then gets that level and count |
| Api.ChecksInOrder | src/pages/api/generate-document.ts:21-60 | a falsy field is reported first whatever else is wrong; an unknown complexity is reported before the count; only a body that passes every check reaches `topic.trim()` |
| Api.NumericCount | src/pages/api/generate-document.ts:21-49 | a numeric count is accepted exactly within 3..12; 0 is a missing field, and any other value out of range is an invalid count |
| Api.TextCount | src/pages/api/generate-document.ts:41-49 | a count sent as text with leading blanks or a non-alphanumeric tail is read as its leading integer |
| Api.BlankTopicAccepted | src/pages/api/generate-document.ts:21-63 | a topic of blanks only passes the checks and creates a job for the empty topic |
| Api.EstimateBounds | src/pages/api/generate-document.ts:69 | the estimate is three minutes per chapter, so between 9 and 36 |
| Api.Post | src/pages/api/generate-document.ts:14-97 | the reply follows the decision chain; an accepted body registers one fresh job for the trimmed topic, the level and the count, and any other body leaves the registry unchanged |

## Left out

- The HTTP client and the service's JSON answers are modelled as an abstract outcome, `Ok(text)` or `Err`:
  - axios and its timeout;
  - the request bodies and generation options;
  - a reply whose `response` field is not text.
- One fixed `ask` function per run is the inference service. It answers each prompt the same way throughout a run; a model that answers differently at random is not captured.
- The LaTeX service (`latex.ts`) is not part of this model. Its `generateDocument`, `validateLatexContent` and `compileToPDF` are uninterpreted fields of `Services`:
  - each step may return or throw;
  - the compile result is taken to be an object with `success` and `pdfPath`.
- ID generation from `Date.now` and `Math.random` is out: the caller supplies the id.
- Timestamps are out as dates. The start time and the end time are single clock readings, `now`, supplied by the caller.
- The `setTimeout` pause between chapters is left out, as is all `console` logging, including the warning printed for an invalid validation.
- Concurrency between jobs and promise scheduling are left out. Each background run is one sequential method, `RunJob`, run after `GenerateDocument` returns. The synchronous prefix up to the first `await` is kept in `GenerateDocument`.
- Another request could observe the job while it runs, and so could interleaving runs; neither is modelled.
- Progress is a mathematical real, not a double. The ramp values are rational, so no rounding is modelled.
- `String.prototype.toLowerCase` is the uninterpreted parameter `lower`.
- `process.env`, the app and LaTeX configuration blocks, and the Ollama URL, model and timeout are left out.
- test-backend-pipeline.js is an input/output harness and is not part of this model.
- The other API routes (download, download-pdf, job-status) are not part of this model.
- Strings are sequences of code points, not UTF-16 code units. A title with characters outside the Basic Multilingual Plane could behave differently under `trim`, `slice` and the regexes.
- Api.ToText: a JSON number is taken to be an integer, and its text is its plain decimal rendering. Fractional numbers and numbers of 1e21 or more, which JavaScript renders in exponent form, are not modelled.
- Api.Validate: the error messages of thrown exceptions are written in V8's wording. A request body that is not JSON keeps the parser's message as given.
- The 500 answer's constant `error` field and the 200 answer's constant `success` and `message` fields are not part of `Reply`.
- The fallback chapter's exact text is modelled in full. Its properties are stated as structure (the opening section and the six subsections in order), not as its full wording.
