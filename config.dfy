/**
 * The generation limits, the complexity levels and the record types shared by the
 * service, the orchestrator and the HTTP endpoint.
 */
module Config {

  import opened Wrappers

  /** Bounds on the number of chapters a request may ask for. */
  const MinChapters: int := 3
  const MaxChapters: int := 12
  const DefaultChapters: int := 6

  datatype Complexity = Beginner | Intermediate | Advanced

  /** The accepted complexity names, in the order the error message lists them. */
  const ComplexityLevels: seq<string> := ["beginner", "intermediate", "advanced"]

  function ComplexityName(c: Complexity): (name: string)
    ensures name in ComplexityLevels
  {
    match c
    case Beginner => "beginner"
    case Intermediate => "intermediate"
    case Advanced => "advanced"
  }

  /** The complexity level a request string names, if it is one of the accepted names. */
  function ParseComplexity(s: string): (r: Option<Complexity>)
    ensures r.Some? <==> s in ComplexityLevels
    ensures r.Some? ==> ComplexityName(r.value) == s
  {
    if s == "beginner" then Some(Beginner)
    else if s == "intermediate" then Some(Intermediate)
    else if s == "advanced" then Some(Advanced)
    else None
  }

  /** Every level's name parses back to that level, so the names are distinct. */
  lemma ComplexityRoundTrip(c: Complexity)
    ensures ParseComplexity(ComplexityName(c)) == Some(c)
  {
  }

  /** The default chapter count lies within the accepted range. */
  lemma DefaultChaptersInRange()
    ensures MinChapters <= DefaultChapters <= MaxChapters
  {
  }

  /** A document request as the endpoint passes it on: trimmed topic, level and chapter count. */
  datatype DocumentRequest = DocumentRequest(topic: string, complexity: Complexity, chapters: int)

  /** The four job states. */
  datatype Status = Pending | Processing | Completed | Failed

  /** What a completed job carries: the LaTeX text and what the compiler reported. */
  datatype JobResult = JobResult(latexContent: string, pdfPath: Option<string>, pdfGenerated: bool)
}
