/**
 * The document generator: a registry of jobs keyed by id, and the pipeline that drives one
 * job from "pending" to "completed" or "failed" while it raises the job's progress.
 */
module Orchestrator {
  import opened Wrappers
  import opened Text
  import opened Config
  import opened Prompts
  import opened Content
  import opened Client

  // ---------------------------------------------------------------------------
  // What the pipeline receives from the services it calls

  /**
   * A value thrown inside the pipeline: an `Error` object with its message, any other value
   * together with what reading its `message` property gives (nothing, for a primitive), or
   * `null` / `undefined`, reading whose `message` throws in turn.
   */
  datatype Thrown = ErrorObject(message: string) | OtherValue(messageField: Option<string>) | Nullish

  /** The outcome of a service call that may throw. */
  datatype Step<T> = Returns(value: T) | Throws(thrown: Thrown)

  /** What the PDF compiler reports. */
  datatype CompileResult = CompileResult(success: bool, pdfPath: Option<string>)

  /** The arguments of one chapter request. */
  datatype ChapterCall = ChapterCall(topic: string, title: string, complexity: Complexity, chapterNumber: int,
                                     totalChapters: int, previous: seq<string>, outline: Option<seq<string>>)

  /**
   * The collaborators of one run: what the connection probe resolved to, the outline and
   * chapter requests of the generation service (which never throw), the three steps of the
   * LaTeX service, and the clock reading used for the end time.
   */
  datatype Services = Services(
    connected: bool,
    outline: (string, Complexity, int) -> seq<string>,
    chapter: ChapterCall -> string,
    assemble: (DocumentRequest, seq<string>) -> Step<string>,
    validate: string -> Step<bool>,
    compile: (string, string) -> Step<CompileResult>,
    now: int)

  /** The generation service's outline request, for a given inference backend. */
  function OllamaOutline(ask: string -> CallOutcome): (string, Complexity, int) -> seq<string> {
    (topic: string, c: Complexity, n: int) => ChapterOutline(topic, c, n, ask(OutlinePrompt(topic, c, n)))
  }

  /** The generation service's chapter request, for a given inference backend. */
  /** The prompt generateChapterContent sends for one chapter request. */
  function CallPrompt(r: ChapterCall): string {
    ChapterPrompt(r.topic, r.title, r.complexity, r.chapterNumber, r.totalChapters, r.previous, r.outline)
  }

  function OllamaChapter(ask: string -> CallOutcome, lower: string -> string): ChapterCall -> string {
    (r: ChapterCall) => ChapterContent(r.topic, r.title, r.complexity, r.chapterNumber, ask(CallPrompt(r)), lower)
  }

  const ConnectionFailure: string := "Failed to connect to Ollama service"
  const UnknownError: string := "Unknown error occurred"

  // ---------------------------------------------------------------------------
  // Jobs

  /** A generation job; the registry and the caller share the same object. */
  class Job {
    const id: string
    const request: DocumentRequest
    const startTime: int
    var status: Status
    var progress: real
    var endTime: Option<int>
    var result: Option<JobResult>
    var error: Option<string>
    /** Every value written to `status`, oldest first. */
    ghost var statusLog: seq<Status>
    /** Every value written to `progress`, oldest first. */
    ghost var progressLog: seq<real>

    constructor (id: string, request: DocumentRequest, startTime: int)
      ensures this.id == id && this.request == request && this.startTime == startTime
      ensures status == Pending && progress == 0.0
      ensures endTime == None && result == None && error == None
      ensures statusLog == [Pending] && progressLog == [0.0]
    {
      this.id := id;
      this.request := request;
      this.startTime := startTime;
      status := Pending;
      progress := 0.0;
      endTime := None;
      result := None;
      error := None;
      statusLog := [Pending];
      progressLog := [0.0];
    }

    method SetStatus(s: Status)
      modifies this
      ensures status == s && statusLog == old(statusLog) + [s]
      ensures progress == old(progress) && progressLog == old(progressLog)
      ensures endTime == old(endTime) && result == old(result) && error == old(error)
    {
      status := s;
      statusLog := statusLog + [s];
    }

    method SetProgress(p: real)
      modifies this
      ensures progress == p && progressLog == old(progressLog) + [p]
      ensures status == old(status) && statusLog == old(statusLog)
      ensures endTime == old(endTime) && result == old(result) && error == old(error)
    {
      progress := p;
      progressLog := progressLog + [p];
    }
  }

  // ---------------------------------------------------------------------------
  // The specification of one run

  /** The progress written after chapter `i` (0-based) of `n`: 30% plus its share of 50%. */
  function RampValue(n: nat, i: nat): real
    requires i < n
  {
    30.0 + ((i + 1) as real / n as real) * 50.0
  }

  /** The progress values written by the first `i` chapters of `n`. */
  function Ramp(n: nat, i: nat): (r: seq<real>)
    requires i <= n
    ensures |r| == i
  {
    if i == 0 then [] else Ramp(n, i - 1) + [RampValue(n, i - 1)]
  }

  /** The chapter request for title `i`: the titles before it as context, the whole outline ahead. */
  function ChapterRequest(request: DocumentRequest, titles: seq<string>, i: nat): ChapterCall
    requires i < |titles|
  {
    ChapterCall(request.topic, titles[i], request.complexity, i + 1, |titles|, titles[..i], Some(titles))
  }

  /** The chapter texts produced for the first `i` titles, in order. */
  function Chapters(request: DocumentRequest, titles: seq<string>, i: nat, chapter: ChapterCall -> string)
    : seq<string>
    requires i <= |titles|
  {
    if i == 0 then []
    else Chapters(request, titles, i - 1, chapter) + [chapter(ChapterRequest(request, titles, i - 1))]
  }

  function Titles(request: DocumentRequest, env: Services): seq<string> {
    env.outline(request.topic, request.complexity, request.chapters)
  }

  /** How the try block of a run ends, with the progress values it wrote after the initial 10%. */
  datatype RunEnd =
    | Finished(latex: string, pdf: CompileResult, progressWrites: seq<real>)
    | Aborted(thrown: Thrown, progressWrites: seq<real>)

  /** The try block from the chapter texts on: assembly, validation, compilation, completion. */
  function Finish(request: DocumentRequest, id: string, contents: seq<string>, env: Services): RunEnd {
    var latex := env.assemble(request, contents);
    if latex.Throws? then Aborted(latex.thrown, [85.0])
    else
      var validation := env.validate(latex.value);
      if validation.Throws? then Aborted(validation.thrown, [85.0, 85.0])
      else
        var pdf := env.compile(latex.value, id);
        if pdf.Throws? then Aborted(pdf.thrown, [85.0, 85.0, 90.0])
        else Finished(latex.value, pdf.value, [85.0, 85.0, 90.0, 95.0, 100.0])
  }

  /** The progress written up to the end of the chapter loop, after the initial 10%. */
  function ChapterTrail(n: nat): seq<real> {
    [20.0, 30.0] + Ramp(n, n)
  }

  /** The specification of the try block of processGeneration. */
  function Run(request: DocumentRequest, id: string, env: Services): RunEnd {
    if !env.connected then Aborted(ErrorObject(ConnectionFailure), [])
    else
      var titles := Titles(request, env);
      var rest := Finish(request, id, Chapters(request, titles, |titles|, env.chapter), env);
      rest.(progressWrites := ChapterTrail(|titles|) + rest.progressWrites)
  }

  /** The message the catch block of processGeneration records. */
  function CaughtMessage(t: Thrown): string {
    if t.ErrorObject? then t.message else UnknownError
  }

  /**
   * The error the job ends with once the handler attached in generateDocument has run: the
   * thrown value's `message` property; for `null` or `undefined` the handler throws before it
   * writes, so the catch block's message stays.
   */
  function HandlerError(t: Thrown): Option<string> {
    match t
    case ErrorObject(m) => Some(m)
    case OtherValue(f) => f
    case Nullish => Some(UnknownError)
  }

  /** The state a job is left in by a whole run. */
  datatype JobEnd = JobEnd(status: Status, statusWrites: seq<Status>, progressWrites: seq<real>,
                           result: Option<JobResult>, error: Option<string>)

  function Outcome(request: DocumentRequest, id: string, env: Services): JobEnd {
    match Run(request, id, env)
    case Finished(latex, pdf, trail) =>
      JobEnd(Completed, [Completed], trail, Some(JobResult(latex, pdf.pdfPath, pdf.success)), None)
    case Aborted(t, trail) =>
      JobEnd(Failed, [Failed, Failed], trail, None, HandlerError(t))
  }

  // ---------------------------------------------------------------------------
  // Properties of a run

  predicate NonDecreasing(s: seq<real>) {
    forall i, j :: 0 <= i <= j < |s| ==> s[i] <= s[j]
  }

  predicate StatusStep(a: Status, b: Status) {
    a == b || (a == Pending && b == Processing) || (a == Processing && (b == Completed || b == Failed))
  }

  /** Status moves only pending, processing, then completed or failed; a rewrite repeats the value. */
  predicate ValidTrace(t: seq<Status>) {
    forall k :: 0 < k < |t| ==> StatusStep(t[k - 1], t[k])
  }

  lemma {:induction false} RampShape(n: nat, i: nat)
    requires i <= n
    ensures forall k :: 0 <= k < i ==> Ramp(n, i)[k] == RampValue(n, k)
  {
    if i > 0 {
      RampShape(n, i - 1);
    }
  }

  /** The chapter ramp climbs from above 30% to exactly 80%. */
  lemma RampValueBounds(n: nat, i: nat, j: nat)
    requires i <= j < n
    ensures 30.0 < RampValue(n, i) <= RampValue(n, j) <= 80.0
    ensures RampValue(n, n - 1) == 80.0
  {
    var m := n as real;
    DivMonotone((i + 1) as real, (j + 1) as real, m);
    DivMonotone((j + 1) as real, m, m);
    DivMonotone(0.0, (i + 1) as real, m);
    assert (n - 1 + 1) as real / m == 1.0;
  }

  lemma DivMonotone(x: real, y: real, m: real)
    requires 0.0 < m && x <= y
    ensures x / m <= y / m
    ensures x < y ==> x / m < y / m
  {
    assert y / m - x / m == (y - x) / m;
  }

  lemma NonDecreasingAppend(a: seq<real>, b: seq<real>)
    requires NonDecreasing(a) && NonDecreasing(b)
    requires |a| > 0 && |b| > 0 ==> a[|a| - 1] <= b[0]
    ensures NonDecreasing(a + b)
  {
    forall i, j | 0 <= i <= j < |a + b| ensures (a + b)[i] <= (a + b)[j] {
      if j < |a| {
      } else if i >= |a| {
        assert (a + b)[i] == b[i - |a|] && (a + b)[j] == b[j - |a|];
      } else {
        assert (a + b)[i] == a[i] <= a[|a| - 1];
        assert b[0] <= b[j - |a|] == (a + b)[j];
      }
    }
  }

  /** Up to the end of the chapter loop progress never drops, stays within 80%, and ends at 80% exactly. */
  lemma ChapterTrailShape(n: nat)
    ensures var t := [10.0] + ChapterTrail(n);
      && NonDecreasing(t) && (forall k :: 0 <= k < |t| ==> t[k] <= 80.0)
      && |t| == n + 3 && (n > 0 ==> t[n + 2] == 80.0)
  {
    var r := Ramp(n, n);
    RampShape(n, n);
    forall i, j | 0 <= i <= j < |r| ensures r[i] <= r[j] {
      RampValueBounds(n, i, j);
    }
    forall k | 0 <= k < |r| ensures 30.0 < r[k] <= 80.0 {
      RampValueBounds(n, k, k);
    }
    assert [10.0] + ChapterTrail(n) == [10.0, 20.0, 30.0] + r;
    NonDecreasingAppend([10.0, 20.0, 30.0], r);
    if n > 0 {
      RampValueBounds(n, n - 1, n - 1);
      assert ([10.0, 20.0, 30.0] + r)[n + 2] == r[n - 1];
    }
  }

  /** After the chapters progress goes 85, 85, 90, 95, 100 for as far as the run gets. */
  lemma FinishTrail(request: DocumentRequest, id: string, contents: seq<string>, env: Services)
    ensures var w := Finish(request, id, contents, env).progressWrites;
      && |w| > 0 && w[0] == 85.0 && NonDecreasing(w) && (forall k :: 0 <= k < |w| ==> w[k] <= 100.0)
      && (Finish(request, id, contents, env).Finished? ==> w[|w| - 1] == 100.0)
  {
  }

  /**
   * Progress never moves backwards and never exceeds 100; a completed run ends at exactly 100,
   * and once the chapters of a non-empty outline are written it stands at exactly 80.
   */
  lemma ProgressMonotone(request: DocumentRequest, id: string, env: Services)
    ensures var p := [10.0] + Outcome(request, id, env).progressWrites;
      && NonDecreasing(p)
      && (forall k :: 0 <= k < |p| ==> p[k] <= 100.0)
      && (Outcome(request, id, env).status == Completed ==> p[|p| - 1] == 100.0)
      && (env.connected && |Titles(request, env)| > 0 ==>
            |p| > |Titles(request, env)| + 2 && p[|Titles(request, env)| + 2] == 80.0)
  {
    if env.connected {
      var titles := Titles(request, env);
      var n := |titles|;
      var rest := Finish(request, id, Chapters(request, titles, n, env.chapter), env);
      var t := [10.0] + ChapterTrail(n);
      var w := rest.progressWrites;
      ChapterTrailShape(n);
      FinishTrail(request, id, Chapters(request, titles, n, env.chapter), env);
      assert [10.0] + Outcome(request, id, env).progressWrites == t + w;
      NonDecreasingAppend(t, w);
      assert (t + w)[|t + w| - 1] == w[|w| - 1];
      if n > 0 {
        assert (t + w)[n + 2] == t[n + 2];
      }
    }
  }

  /** The status writes of any run, after pending and processing, form a valid trace ending in completed or failed. */
  lemma StatusTrace(request: DocumentRequest, id: string, env: Services)
    ensures var o := Outcome(request, id, env);
      && ValidTrace([Pending, Processing] + o.statusWrites)
      && o.statusWrites[|o.statusWrites| - 1] == o.status
      && (o.status == Completed || o.status == Failed)
  {
  }

  /**
   * A completed job carries the assembled LaTeX text and what the compiler reported, and no
   * error; a failed job carries no result, and its error is the thrown value's message.
   */
  lemma OutcomeShape(request: DocumentRequest, id: string, env: Services)
    ensures var o := Outcome(request, id, env); var r := Run(request, id, env);
      var contents := Chapters(request, Titles(request, env), |Titles(request, env)|, env.chapter);
      && (o.status == Completed <==> r.Finished?)
      && (o.status == Completed ==>
            && o.error == None
            && o.result == Some(JobResult(r.latex, r.pdf.pdfPath, r.pdf.success))
            && env.assemble(request, contents) == Returns(r.latex)
            && env.compile(r.latex, id) == Returns(r.pdf))
      && (o.status == Failed ==>
            && o.result == None
            && (r.thrown.ErrorObject? ==> o.error == Some(r.thrown.message))
            && (r.thrown.OtherValue? ==> o.error == r.thrown.messageField)
            && (r.thrown.Nullish? ==> o.error == Some(UnknownError)))
  {
  }

  /** Without a connection the run fails at 10% with the connection message, before any request. */
  lemma ConnectionFailureFails(request: DocumentRequest, id: string, env: Services)
    requires !env.connected
    ensures Outcome(request, id, env)
            == JobEnd(Failed, [Failed, Failed], [], None, Some(ConnectionFailure))
  {
  }

  /** Validation only warns: the run is the same whatever verdict the validator returns. */
  lemma ValidationIgnored(request: DocumentRequest, id: string, env: Services, verdict: bool)
    ensures var accept := (doc: string) => match env.validate(doc)
                                           case Returns(_) => Returns(verdict)
                                           case Throws(t) => Throws(t);
      Run(request, id, env) == Run(request, id, env.(validate := accept))
  {
  }

  lemma {:induction false} ChaptersShape(request: DocumentRequest, titles: seq<string>, i: nat,
                                         chapter: ChapterCall -> string)
    requires i <= |titles|
    ensures |Chapters(request, titles, i, chapter)| == i
    ensures forall k :: 0 <= k < i ==>
      Chapters(request, titles, i, chapter)[k] == chapter(ChapterRequest(request, titles, k))
  {
    if i > 0 {
      ChaptersShape(request, titles, i - 1, chapter);
    }
  }

  /**
   * With the generation service's own requests, the outline has exactly the requested number
   * of titles, and every chapter the LaTeX service receives carries a `\section{` command.
   */
  lemma OllamaChapters(request: DocumentRequest, env: Services, ask: string -> CallOutcome,
                       lower: string -> string)
    requires request.chapters >= 0
    requires env.outline == OllamaOutline(ask) && env.chapter == OllamaChapter(ask, lower)
    ensures var titles := Titles(request, env); var chapters := Chapters(request, titles, |titles|, env.chapter);
      && |titles| == request.chapters
      && |chapters| == |titles|
      && forall k :: 0 <= k < |chapters| ==> Contains(chapters[k], SectionOpen)
  {
    var titles := Titles(request, env);
    OutlineAlwaysComplete(request.topic, request.complexity, request.chapters,
                          ask(OutlinePrompt(request.topic, request.complexity, request.chapters)));
    ChaptersShape(request, titles, |titles|, env.chapter);
    forall k | 0 <= k < |titles|
      ensures Contains(Chapters(request, titles, |titles|, env.chapter)[k], SectionOpen)
    {
      var r := ChapterRequest(request, titles, k);
      ChapterAlwaysSectioned(r.topic, r.title, r.complexity, r.chapterNumber, ask(CallPrompt(r)), lower);
    }
  }

  /**
   * Whatever the outline, the prompt sent for chapter k (counting from 0) is built for chapter
   * number k + 1 of the outline's length: it carries the context block of the titles before it
   * and the whole outline, and the `\section{title}` of its own title.
   */
  lemma OllamaChapterPrompts(request: DocumentRequest, titles: seq<string>)
    ensures forall k :: 0 <= k < |titles| ==>
      var p := CallPrompt(ChapterRequest(request, titles, k));
      && Contains(p, ContextualInstructions(k + 1, |titles|, titles[..k], Some(titles)))
      && Contains(p, SectionCommand(titles[k]))
  {
    forall k | 0 <= k < |titles|
      ensures var p := CallPrompt(ChapterRequest(request, titles, k));
        && Contains(p, ContextualInstructions(k + 1, |titles|, titles[..k], Some(titles)))
        && Contains(p, SectionCommand(titles[k]))
    {
      ChapterPromptCarries(request.topic, titles[k], request.complexity, k + 1, |titles|, titles[..k], Some(titles));
    }
  }

  // ---------------------------------------------------------------------------
  // The generator

  datatype JobsStats = JobsStats(total: nat, pending: nat, processing: nat, completed: nat, failed: nat)

  predicate NoDuplicates<T(==)>(s: seq<T>) {
    forall i, j :: 0 <= i < j < |s| ==> s[i] != s[j]
  }

  /** The sequence without the occurrences of `x`, in the same order. */
  function Without(s: seq<string>, x: string): (r: seq<string>)
    ensures forall y :: y in r <==> y in s && y != x
  {
    if |s| == 0 then []
    else if s[0] == x then Without(s[1..], x)
    else [s[0]] + Without(s[1..], x)
  }

  /** Removing an id keeps the remaining ids distinct. */
  lemma {:induction false} WithoutKeepsDistinct(s: seq<string>, x: string)
    requires NoDuplicates(s)
    ensures NoDuplicates(Without(s, x))
  {
    if |s| > 0 {
      assert NoDuplicates(s[1..]) by {
        forall i, j | 0 <= i < j < |s[1..]| ensures s[1..][i] != s[1..][j] {
          assert s[1..][i] == s[i + 1] && s[1..][j] == s[j + 1];
        }
      }
      WithoutKeepsDistinct(s[1..], x);
      if s[0] != x {
        var w := Without(s[1..], x);
        assert s[0] !in s[1..];
        forall i, j | 0 <= i < j < |[s[0]] + w| ensures ([s[0]] + w)[i] != ([s[0]] + w)[j] {
          if i == 0 {
            assert ([s[0]] + w)[j] == w[j - 1];
          } else {
            assert ([s[0]] + w)[i] == w[i - 1] && ([s[0]] + w)[j] == w[j - 1];
          }
        }
      }
    }
  }

  function CountStatus(js: seq<Job>, s: Status): (n: nat)
    reads set j | j in js
    ensures n <= |js|
  {
    if |js| == 0 then 0 else CountStatus(js[..|js| - 1], s) + (if js[|js| - 1].status == s then 1 else 0)
  }

  /** Every job has exactly one of the four states, so the four counts add up to the total. */
  lemma {:induction false} CountsCover(js: seq<Job>)
    ensures CountStatus(js, Pending) + CountStatus(js, Processing) + CountStatus(js, Completed)
            + CountStatus(js, Failed) == |js|
  {
    if |js| > 0 {
      CountsCover(js[..|js| - 1]);
    }
  }

  /** A set of positions below n - 1, with position n - 1 possibly added. */
  lemma AddLastPosition(all: set<int>, before: set<int>, n: int, inLast: bool)
    requires forall k :: k in before ==> k < n - 1
    requires forall k :: k in all <==> k in before || (inLast && k == n - 1)
    ensures |all| == |before| + (if inLast then 1 else 0)
  {
    var last: set<int> := if inLast then {n - 1} else {};
    forall k ensures k in all <==> k in before + last {
    }
    assert all == before + last;
    assert n - 1 !in before;
  }

  /** The count of a state is the number of positions whose job is in that state. */
  lemma {:induction false} CountIsIndices(js: seq<Job>, s: Status)
    ensures CountStatus(js, s) == |set k | 0 <= k < |js| && js[k].status == s|
  {
    var n := |js|;
    var all := set k | 0 <= k < n && js[k].status == s;
    if n == 0 {
      assert all == {};
    } else {
      var init := js[..n - 1];
      CountIsIndices(init, s);
      var before := set k | 0 <= k < |init| && init[k].status == s;
      AddLastPosition(all, before, n, js[n - 1].status == s);
    }
  }

  class DocumentGenerator {
    var jobs: map<string, Job>
    /** The ids in the order the map first received them, which is the order it lists its values in. */
    var order: seq<string>

    ghost predicate Valid()
      reads this
    {
      && (forall id :: id in jobs <==> id in order)
      && NoDuplicates(order)
    }

    constructor ()
      ensures Valid() && jobs == map[] && order == []
    {
      jobs := map[];
      order := [];
    }

    /**
     * generateDocument, up to its return: a pending job at 0% is registered under `jobId`
     * (replacing any job already there), then processGeneration runs synchronously up to its
     * first wait, which marks the job processing at 10%. The same object is returned.
     */
    method GenerateDocument(jobId: string, request: DocumentRequest, now: int) returns (job: Job)
      requires Valid()
      modifies this
      ensures Valid() && fresh(job)
      ensures jobs == old(jobs)[jobId := job]
      ensures order == if jobId in old(jobs) then old(order) else old(order) + [jobId]
      ensures job.id == jobId && job.request == request && job.startTime == now
      ensures job.status == Processing && job.progress == 10.0
      ensures job.statusLog == [Pending, Processing] && job.progressLog == [0.0, 10.0]
      ensures job.endTime == None && job.result == None && job.error == None
    {
      job := new Job(jobId, request, now);
      if jobId !in jobs {
        order := order + [jobId];
      }
      jobs := jobs[jobId := job];
      job.SetStatus(Processing);
      job.SetProgress(10.0);
    }

    /** getJobStatus: the registered job, or nothing. */
    function GetJobStatus(jobId: string): (r: Option<Job>)
      reads this
      ensures r.Some? <==> jobId in jobs
      ensures r.Some? ==> r.value == jobs[jobId]
    {
      if jobId in jobs then Some(jobs[jobId]) else None
    }

    /** getAllJobs: every registered job exactly once, in registration order. */
    function GetAllJobs(): (all: seq<Job>)
      reads this
      requires Valid()
      ensures |all| == |order|
      ensures forall k :: 0 <= k < |order| ==> all[k] == jobs[order[k]]
      ensures forall id :: id in jobs ==> jobs[id] in all
    {
      var o := order;
      var m := jobs;
      var all := seq(|o|, k requires 0 <= k < |o| && o[k] in m => m[o[k]]);
      assert forall id :: id in jobs ==> jobs[id] in all by {
        forall id | id in jobs ensures jobs[id] in all {
          var k :| 0 <= k < |order| && order[k] == id;
          assert all[k] == jobs[id];
        }
      }
      all
    }

    /** deleteJob: drops the job and reports whether there was one; every other job stays, in order. */
    method DeleteJob(jobId: string) returns (existed: bool)
      requires Valid()
      modifies this
      ensures Valid()
      ensures existed <==> jobId in old(jobs)
      ensures jobs == old(jobs) - {jobId} && order == Without(old(order), jobId)
    {
      existed := jobId in jobs;
      WithoutKeepsDistinct(order, jobId);
      jobs := jobs - {jobId};
      order := Without(order, jobId);
    }

    /** The positions in registration order whose job is in state `s`. */
    ghost function InState(s: Status): (ks: set<int>)
      reads this, jobs.Values
      requires Valid()
      ensures forall k :: k in ks <==> 0 <= k < |order| && jobs[order[k]].status == s
    {
      set k | 0 <= k < |order| && order[k] in jobs && jobs[order[k]].status == s
    }

    /** Counting a state over the listed jobs counts the positions in that state. */
    lemma CountInState(all: seq<Job>, s: Status)
      requires Valid()
      requires |all| == |order| && forall k :: 0 <= k < |order| ==> all[k] == jobs[order[k]]
      ensures CountStatus(all, s) == |InState(s)|
    {
      CountIsIndices(all, s);
      assert (set k | 0 <= k < |all| && all[k].status == s) == InState(s);
    }

    /** getJobsStats: the number of jobs, and how many are in each state. */
    function GetJobsStats(): (stats: JobsStats)
      reads this, jobs.Values
      requires Valid()
      ensures stats.total == |order|
      ensures stats.total == stats.pending + stats.processing + stats.completed + stats.failed
      ensures stats.pending == |InState(Pending)| && stats.processing == |InState(Processing)|
      ensures stats.completed == |InState(Completed)| && stats.failed == |InState(Failed)|
    {
      var all := GetAllJobs();
      CountsCover(all);
      CountInState(all, Pending);
      CountInState(all, Processing);
      CountInState(all, Completed);
      CountInState(all, Failed);
      JobsStats(|all|, CountStatus(all, Pending), CountStatus(all, Processing), CountStatus(all, Completed),
                CountStatus(all, Failed))
    }

    /** The chapter loop of processGeneration: one request per title, progress raised after each. */
    method GenerateChapters(job: Job, titles: seq<string>, env: Services) returns (contents: seq<string>)
      modifies job
      ensures contents == Chapters(job.request, titles, |titles|, env.chapter)
      ensures job.progressLog == old(job.progressLog) + Ramp(|titles|, |titles|)
      ensures |titles| > 0 ==> job.progress == RampValue(|titles|, |titles| - 1)
      ensures |titles| == 0 ==> job.progress == old(job.progress)
      ensures job.status == old(job.status) && job.statusLog == old(job.statusLog)
      ensures job.endTime == old(job.endTime) && job.result == old(job.result) && job.error == old(job.error)
    {
      contents := [];
      var completed: seq<string> := [];
      for i := 0 to |titles|
        invariant contents == Chapters(job.request, titles, i, env.chapter)
        invariant completed == titles[..i]
        invariant job.progressLog == old(job.progressLog) + Ramp(|titles|, i)
        invariant i > 0 ==> job.progress == RampValue(|titles|, i - 1)
        invariant i == 0 ==> job.progress == old(job.progress)
        invariant job.status == old(job.status) && job.statusLog == old(job.statusLog)
        invariant job.endTime == old(job.endTime) && job.result == old(job.result) && job.error == old(job.error)
      {
        var content := env.chapter(ChapterCall(job.request.topic, titles[i], job.request.complexity, i + 1,
                                               |titles|, completed, Some(titles)));
        contents := contents + [content];
        completed := completed + [titles[i]];
        job.SetProgress(30.0 + ((i + 1) as real / |titles| as real) * 50.0);
      }
    }

    /**
     * processGeneration from the chapter texts on: assemble, validate (a verdict only warns),
     * compile, then mark the job completed with its result. A thrown value stops the steps and
     * is handed back.
     */
    method FinishJob(job: Job, contents: seq<string>, env: Services) returns (thrown: Option<Thrown>)
      modifies job
      ensures var r := Finish(job.request, job.id, contents, env); var w := r.progressWrites;
        && job.progressLog == old(job.progressLog) + w
        && job.progress == w[|w| - 1]
        && (r.Finished? ==>
              && thrown == None && job.status == Completed && job.statusLog == old(job.statusLog) + [Completed]
              && job.endTime == Some(env.now)
              && job.result == Some(JobResult(r.latex, r.pdf.pdfPath, r.pdf.success)) && job.error == old(job.error))
        && (r.Aborted? ==>
              && thrown == Some(r.thrown) && job.status == old(job.status) && job.statusLog == old(job.statusLog)
              && job.endTime == old(job.endTime) && job.result == old(job.result) && job.error == old(job.error))
    {
      thrown := None;
      job.SetProgress(85.0);
      var latexDocument := env.assemble(job.request, contents);
      if latexDocument.Throws? {
        thrown := Some(latexDocument.thrown);
        return;
      }
      job.SetProgress(85.0);
      var validation := env.validate(latexDocument.value);
      if validation.Throws? {
        thrown := Some(validation.thrown);
        return;
      }
      job.SetProgress(90.0);
      var pdfResult := env.compile(latexDocument.value, job.id);
      if pdfResult.Throws? {
        thrown := Some(pdfResult.thrown);
        return;
      }
      job.SetProgress(95.0);
      job.SetProgress(100.0);
      job.SetStatus(Completed);
      job.endTime := Some(env.now);
      job.result := Some(JobResult(latexDocument.value, pdfResult.value.pdfPath, pdfResult.value.success));
    }

    /**
     * processGeneration after its first wait: the connection check, the outline, the chapters,
     * then the remaining steps. A value thrown on the way is caught: the job is marked failed
     * with the caught message and the value is thrown on, as `thrown`.
     */
    method ProcessGeneration(job: Job, env: Services) returns (thrown: Option<Thrown>)
      requires job.status == Processing && job.progress == 10.0
      requires job.endTime == None && job.result == None && job.error == None
      modifies job
      ensures var r := Run(job.request, job.id, env); var w := r.progressWrites;
        && job.progressLog == old(job.progressLog) + w
        && job.progress == ([10.0] + w)[|w|]
        && job.endTime == Some(env.now)
        && (r.Finished? ==>
              && thrown == None && job.status == Completed && job.statusLog == old(job.statusLog) + [Completed]
              && job.result == Some(JobResult(r.latex, r.pdf.pdfPath, r.pdf.success)) && job.error == None)
        && (r.Aborted? ==>
              && thrown == Some(r.thrown) && job.status == Failed && job.statusLog == old(job.statusLog) + [Failed]
              && job.result == None && job.error == Some(CaughtMessage(r.thrown)))
    {
      if !env.connected {
        thrown := Some(ErrorObject(ConnectionFailure));
      } else {
        thrown := GenerateConnected(job, env);
      }
      if thrown.Some? {
        CatchFailure(job, thrown.value, env.now);
      }
    }

    /** The try block of processGeneration once the service answered: outline, chapters, the rest. */
    method GenerateConnected(job: Job, env: Services) returns (thrown: Option<Thrown>)
      requires env.connected
      modifies job
      ensures var r := Run(job.request, job.id, env); var w := r.progressWrites;
        && |w| > 0 && job.progressLog == old(job.progressLog) + w && job.progress == w[|w| - 1]
        && (r.Finished? ==>
              && thrown == None && job.status == Completed && job.statusLog == old(job.statusLog) + [Completed]
              && job.endTime == Some(env.now)
              && job.result == Some(JobResult(r.latex, r.pdf.pdfPath, r.pdf.success)) && job.error == old(job.error))
        && (r.Aborted? ==>
              && thrown == Some(r.thrown) && job.status == old(job.status) && job.statusLog == old(job.statusLog)
              && job.endTime == old(job.endTime) && job.result == old(job.result) && job.error == old(job.error))
    {
      job.SetProgress(20.0);
      var chapterTitles := env.outline(job.request.topic, job.request.complexity, job.request.chapters);
      job.SetProgress(30.0);
      var chapterContents := GenerateChapters(job, chapterTitles, env);
      thrown := FinishJob(job, chapterContents, env);
    }

    /** The catch block of processGeneration: the job is marked failed and records the caught message. */
    method CatchFailure(job: Job, thrown: Thrown, now: int)
      modifies job
      ensures job.status == Failed && job.statusLog == old(job.statusLog) + [Failed]
      ensures job.error == Some(CaughtMessage(thrown)) && job.endTime == Some(now)
      ensures job.progress == old(job.progress) && job.progressLog == old(job.progressLog)
      ensures job.result == old(job.result)
    {
      job.SetStatus(Failed);
      job.error := Some(CaughtMessage(thrown));
      job.endTime := Some(now);
    }

    /**
     * The handler generateDocument attaches to the run: the job is marked failed and takes the
     * thrown value's `message`; for `null` or `undefined` that read throws, so nothing more is written.
     */
    method HandleFailure(job: Job, thrown: Thrown, now: int)
      modifies job
      ensures job.status == Failed && job.statusLog == old(job.statusLog) + [Failed]
      ensures job.progress == old(job.progress) && job.progressLog == old(job.progressLog)
      ensures job.result == old(job.result)
      ensures thrown.Nullish? ==> job.error == old(job.error) && job.endTime == old(job.endTime)
      ensures !thrown.Nullish? ==> job.endTime == Some(now)
      ensures thrown.ErrorObject? ==> job.error == Some(thrown.message)
      ensures thrown.OtherValue? ==> job.error == thrown.messageField
    {
      job.SetStatus(Failed);
      if !thrown.Nullish? {
        job.error := if thrown.ErrorObject? then Some(thrown.message) else thrown.messageField;
        job.endTime := Some(now);
      }
    }

    /** The whole background run of a job returned by GenerateDocument, handler included. */
    method RunJob(job: Job, env: Services)
      requires job.status == Processing && job.progress == 10.0
      requires job.endTime == None && job.result == None && job.error == None
      modifies job
      ensures var o := Outcome(job.request, job.id, env);
        && job.status == o.status && job.result == o.result && job.error == o.error
        && job.statusLog == old(job.statusLog) + o.statusWrites
        && job.progressLog == old(job.progressLog) + o.progressWrites
        && job.progress == ([10.0] + o.progressWrites)[|o.progressWrites|]
        && job.endTime == Some(env.now)
    {
      var thrown := ProcessGeneration(job, env);
      if thrown.Some? {
        HandleFailure(job, thrown.value, env.now);
      }
    }
  }
}
