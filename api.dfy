/**
 * The document-generation endpoint: POST parses a JSON body, rejects it with 400 when a field
 * is missing, the complexity is unknown or the chapter count is out of range, and otherwise
 * registers a job with the shared generator and answers 200; an exception answers 500.
 */
module Api {
  import opened Wrappers
  import opened Text
  import opened Config
  import opened Orchestrator
  import opened JsParse

  // ---------------------------------------------------------------------------
  // JavaScript values of a parsed JSON body

  /** A property of the parsed body, as the handler reads it. */
  datatype JsValue =
    | Undefined             // the body has no such property
    | Null
    | Bool(b: bool)
    | Number(n: int)        // an integral JSON number
    | Str(s: string)
    | Array(text: string)   // an array, with the text `String(...)` renders it as
    | Object                // any other object

  /** JavaScript truthiness, as `!value` tests it. */
  predicate Truthy(v: JsValue) {
    match v
    case Undefined => false
    case Null => false
    case Bool(b) => b
    case Number(n) => n != 0
    case Str(s) => |s| > 0
    case Array(_) => true
    case Object => true
  }

  /** `String(value)`, the conversion `parseInt` applies to its argument first. */
  function ToText(v: JsValue): string {
    match v
    case Undefined => "undefined"
    case Null => "null"
    case Bool(b) => if b then "true" else "false"
    case Number(n) => IntToString(n)
    case Str(s) => s
    case Array(t) => t
    case Object => "[object Object]"
  }

  // ---------------------------------------------------------------------------
  // The decision chain

  /** What `request.json()` produced. A body that is not an object has no properties. */
  datatype RequestBody =
    | Unparsable(syntaxError: string)     // the text is not JSON: the parser's message
    | NullBody                            // the JSON text `null`
    | Fields(topic: JsValue, complexity: JsValue, chapters: JsValue)

  const MissingLead: string := "Missing required fields: "
  const MissingList: string := "topic, complexity, and "
  const MissingTail: string := "chapters are required"
  const MissingFields: string := MissingLead + MissingList + MissingTail

  const ComplexityLead: string := "Invalid complexity level."
  const ComplexityList: string := " Must be one of: "
  const ComplexityNames: string := "beginner, intermediate, "
  const InvalidComplexity: string := ComplexityLead + ComplexityList + ComplexityNames + "advanced"

  const CountLead: string := "Invalid chapter count."
  const CountRange: string := " Must be between "
  const InvalidCount: string := CountLead + CountRange + "3 and 12"

  /** The TypeError a non-string topic raises at `topic.trim()`, in V8's wording. */
  const TrimNotFunction: string := "topic.trim is not a function"
  /** The TypeError destructuring a `null` body raises, in V8's wording. */
  const NullDestructure: string := "Cannot destructure property 'topic' of 'data' as it is null."

  /** Where the handler's chain ends before the job is created. */
  datatype Decision =
    | Reject(error: string)                                   // 400
    | Accept(topic: string, complexity: Complexity, count: int)
    | Throw(message: string)                                  // 500

  /**
   * The checks of POST, in order: all three fields truthy, the complexity one of the accepted
   * names, the parsed count a number within the limits; then `topic.trim()`, which throws for a
   * topic that is not a string.
   */
  function Validate(body: RequestBody): Decision {
    match body
    case Unparsable(m) => Throw(m)
    case NullBody => Throw(NullDestructure)
    case Fields(topic, complexity, chapters) =>
      if !Truthy(topic) || !Truthy(complexity) || !Truthy(chapters) then Reject(MissingFields)
      else if !(complexity.Str? && complexity.s in ComplexityLevels) then Reject(InvalidComplexity)
      else
        var count := ParseInt(ToText(chapters));
        if count.None? || count.value < MinChapters || count.value > MaxChapters then Reject(InvalidCount)
        else if !topic.Str? then Throw(TrimNotFunction)
        else Accept(topic.s, ParseComplexity(complexity.s).value, count.value)
  }

  /** The JSON responses of POST; the 500 body also carries `error: 'Internal server error'`. */
  datatype Reply =
    | BadRequest(error: string)
    | Started(jobId: string, estimatedTime: int, status: Status, progress: real,
              topic: string, complexity: string, chapters: int)
    | ServerError(message: string)

  function StatusCode(r: Reply): (code: int)
    ensures r.BadRequest? <==> code == 400
    ensures r.Started? <==> code == 200
    ensures r.ServerError? <==> code == 500
  {
    match r
    case BadRequest(_) => 400
    case Started(_, _, _, _, _, _, _) => 200
    case ServerError(_) => 500
  }

  /** The response to a body, given the id the generator gives the new job. */
  function Respond(d: Decision, jobId: string): Reply {
    match d
    case Reject(e) => BadRequest(e)
    case Throw(m) => ServerError(m)
    case Accept(topic, c, k) => Started(jobId, k * 3, Processing, 10.0, topic, ComplexityName(c), k)
  }

  /**
   * POST: run the checks; an accepted body registers one job for the trimmed topic and answers
   * with the job's id, state and progress at the moment generateDocument returns, the estimate
   * of three minutes per chapter and the fields as sent. Any other body leaves the jobs alone.
   */
  method Post(gen: DocumentGenerator, body: RequestBody, jobId: string, now: int)
    returns (reply: Reply, job: Option<Job>)
    requires gen.Valid()
    modifies gen
    ensures gen.Valid()
    ensures reply == Respond(Validate(body), jobId)
    ensures var d := Validate(body);
      && (d.Accept? ==>
            && job.Some? && fresh(job.value)
            && gen.jobs == old(gen.jobs)[jobId := job.value]
            && job.value.request == DocumentRequest(Trim(d.topic), d.complexity, d.count)
            && job.value.id == jobId && job.value.status == Processing)
      && (!d.Accept? ==> job == None && gen.jobs == old(gen.jobs) && gen.order == old(gen.order))
  {
    var d := Validate(body);
    match d {
      case Reject(e) =>
        reply := BadRequest(e);
        job := None;
      case Throw(m) =>
        reply := ServerError(m);
        job := None;
      case Accept(topic, c, k) =>
        var created := gen.GenerateDocument(jobId, DocumentRequest(Trim(topic), c, k), now);
        reply := Started(created.id, k * 3, created.status, created.progress, topic, ComplexityName(c), k);
        job := Some(created);
    }
  }

  // ---------------------------------------------------------------------------
  // Properties of the decision chain

  /** The rejection messages list the accepted names and the limits of the configuration. */
  lemma MessagesFollowConfig()
    ensures InvalidComplexity == ComplexityLead + ComplexityList + Join(ComplexityLevels, ", ")
    ensures InvalidCount == CountLead + CountRange + IntToString(MinChapters) + " and " + IntToString(MaxChapters)
  {
  }

  /**
   * A body is accepted exactly when its topic is a non-empty string, its complexity one of the
   * three names, and its chapters a truthy value parseInt reads as a number from 3 to 12; the
   * job then gets that level and count.
   */
  lemma AcceptedExactly(body: RequestBody)
    ensures Validate(body).Accept? <==>
      && body.Fields? && body.topic.Str? && |body.topic.s| > 0
      && body.complexity.Str? && body.complexity.s in ComplexityLevels
      && Truthy(body.chapters)
      && var k := ParseInt(ToText(body.chapters)); k.Some? && MinChapters <= k.value <= MaxChapters
    ensures Validate(body).Accept? ==>
      && Validate(body).topic == body.topic.s
      && ComplexityName(Validate(body).complexity) == body.complexity.s
      && Validate(body).count == ParseInt(ToText(body.chapters)).value
  {
  }

  /**
   * The checks run in order: a missing field is reported whatever else is wrong, an unknown
   * complexity whatever the count, and a body with any bad field never reaches `topic.trim()`.
   */
  lemma ChecksInOrder(topic: JsValue, complexity: JsValue, chapters: JsValue)
    ensures !Truthy(topic) || !Truthy(complexity) || !Truthy(chapters) ==>
      Validate(Fields(topic, complexity, chapters)) == Reject(MissingFields)
    ensures (Truthy(topic) && Truthy(complexity) && Truthy(chapters)
             && !(complexity.Str? && complexity.s in ComplexityLevels)) ==>
      Validate(Fields(topic, complexity, chapters)) == Reject(InvalidComplexity)
    ensures Validate(Fields(topic, complexity, chapters)).Throw? ==>
      Validate(Fields(topic, complexity, chapters)) == Throw(TrimNotFunction)
  {
  }

  /**
   * A count sent as a JSON number is accepted exactly within 3..12; zero is falsy and so is
   * reported as a missing field, not as out of range.
   */
  lemma NumericCount(topic: string, name: string, n: int)
    requires |topic| > 0 && name in ComplexityLevels
    ensures Validate(Fields(Str(topic), Str(name), Number(n))).Accept? <==> MinChapters <= n <= MaxChapters
    ensures n == 0 ==> Validate(Fields(Str(topic), Str(name), Number(0))) == Reject(MissingFields)
    ensures n != 0 && !(MinChapters <= n <= MaxChapters) ==>
      Validate(Fields(Str(topic), Str(name), Number(n))) == Reject(InvalidCount)
  {
    ParseIntOfDecimal(n);
  }

  /**
   * A count sent as text is read past leading blanks and up to its first character that is
   * neither a letter nor a digit: `"7"`, `" 7"` and `"7.9 chapters"` all ask for seven chapters.
   */
  lemma TextCount(topic: string, name: string, n: int, lead: string, rest: string)
    requires |topic| > 0 && name in ComplexityLevels && MinChapters <= n <= MaxChapters
    requires forall k :: 0 <= k < |lead| ==> IsSpace(lead[k])
    requires |rest| > 0 ==> DigitOf(rest[0]) == 36
    ensures Validate(Fields(Str(topic), Str(name), Str(lead + IntToString(n) + rest))).Accept?
    ensures Validate(Fields(Str(topic), Str(name), Str(lead + IntToString(n) + rest))).count == n
  {
    ParseIntPadded(lead, n, rest);
  }

  /**
   * The missing-field check tests truthiness before trimming, so a topic of blanks only is
   * accepted and the job is created for the empty topic.
   */
  lemma BlankTopicAccepted(blanks: string, name: string, n: int)
    requires |blanks| > 0 && forall k :: 0 <= k < |blanks| ==> IsSpace(blanks[k])
    requires name in ComplexityLevels && MinChapters <= n <= MaxChapters
    ensures Validate(Fields(Str(blanks), Str(name), Number(n))).Accept?
    ensures Trim(Validate(Fields(Str(blanks), Str(name), Number(n))).topic) == []
  {
    NumericCount(blanks, name, n);
    var a, b := TrimWindow(blanks);
  }

  /** An accepted request is estimated at three minutes per chapter, so between 9 and 36 minutes. */
  lemma EstimateBounds(body: RequestBody, jobId: string)
    ensures var d := Validate(body);
      d.Accept? ==> Respond(d, jobId).estimatedTime == 3 * d.count && 9 <= Respond(d, jobId).estimatedTime <= 36
  {
  }
}
