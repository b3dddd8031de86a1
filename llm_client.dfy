/**
 * The contract of the text-interpretation client (`backend/llm/client.py`).
 * The model call itself is external: its answer is an input (`Reply`), and
 * only what the wrapper does with it is modelled, including the fixed
 * degraded answers it substitutes when the model's text is not JSON.
 */
module LlmClient {
  import opened Prelude
  import opened Json

  /** The model's answer to one call: a decoded JSON object, text that is not
      JSON (or an empty content list), or an exception from the call itself. */
  datatype Reply<+T> = Parsed(value: T) | Unparseable | CallFailed(error: PyError)

  /** The dict returned by `interpret_state_page`; any key may be missing. */
  datatype Interpretation = Interpretation(
    availability: Option<string>,
    similarNames: Option<seq<string>>,
    clarity: Option<string>,
    notes: Option<string>)

  /** What is sent to the model to interpret an ambiguous results page. */
  datatype PageQuery = PageQuery(stateName: string, searchName: string, entityType: string, pageText: string)

  /** The fixed answer used when the model's text cannot be parsed. */
  const DegradedInterpretation := Interpretation(
    Some("unknown"), Some([]), Some("ambiguous"), Some("LLM response could not be parsed."))

  /** `interpret_state_page` (async): an unparseable answer becomes the degraded
      default, but an exception from the call itself propagates to the adapter. */
  function InterpretStatePage(reply: Reply<Interpretation>): (r: Result<Interpretation, PyError>)
    ensures reply.Unparseable? ==> r == Ok(DegradedInterpretation)
    ensures reply.Parsed? ==> r == Ok(reply.value)
    ensures reply.CallFailed? ==> r == Err(reply.error)
  {
    match reply
    case Parsed(i) => Ok(i)
    case Unparseable => Ok(DegradedInterpretation)
    case CallFailed(e) => Err(e)
  }

  /** `interpret_state_page_sync`: every failure, including one of the call
      itself, becomes the degraded default; it never raises. */
  function InterpretStatePageSync(reply: Reply<Interpretation>): (r: Interpretation)
    ensures reply.Parsed? ==> r == reply.value
    ensures !reply.Parsed? ==> r == DegradedInterpretation
  {
    if reply.Parsed? then reply.value else DegradedInterpretation
  }

  /** The dict returned by `analyze_similarity`; any key may be missing. */
  datatype Assessment = Assessment(
    riskLevel: Option<string>,
    conflictingNames: Option<seq<string>>,
    explanation: Option<string>,
    recommendation: Option<string>)

  /** What is sent to the model to assess deceptive similarity. */
  datatype SimilarityQuery = SimilarityQuery(
    searchName: string,
    entityType: string,
    stateName: string,
    similarNames: seq<string>,
    rulesSummary: string)

  /** The fixed assessment used when the model's text cannot be parsed: risk
      `unknown`, and every name sent counts as conflicting. */
  function DegradedAssessment(q: SimilarityQuery): (a: Assessment)
    ensures a.riskLevel == Some("unknown") && a.conflictingNames == Some(q.similarNames)
  {
    Assessment(Some("unknown"), Some(q.similarNames),
      Some("Could not parse similarity analysis."), Some("Review similar names manually."))
  }

  /** `analyze_similarity`: an unparseable answer becomes the degraded
      assessment; an exception from the call propagates. */
  function AnalyzeSimilarity(q: SimilarityQuery, reply: Reply<Assessment>): (r: Result<Assessment, PyError>)
    ensures reply.Unparseable? ==> r == Ok(DegradedAssessment(q))
    ensures reply.Parsed? ==> r == Ok(reply.value)
    ensures reply.CallFailed? ==> r == Err(reply.error)
  {
    match reply
    case Parsed(a) => Ok(a)
    case Unparseable => Ok(DegradedAssessment(q))
    case CallFailed(e) => Err(e)
  }
}
