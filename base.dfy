/**
 * The adapter abstraction of `backend/adapters/base.py`: the match record,
 * the result record with its defaults, and the confidence formula.
 *
 * Confidence is kept in integers. `RawConfidence` is the unrounded weighted
 * sum in ten-thousandths; `BuildConfidence` is `round(sum, 2)` in hundredths,
 * so the stored value 0.89 is 89 and the fixed error value 0.1 is 10.
 */
module Base {

  // Availability verdicts.
  const Available := "available"
  const Taken := "taken"
  const Similar := "similar"
  const Unknown := "unknown"
  const Error := "error"

  // Extraction methods and clarity levels accepted by the weight tables.
  const Primary := "primary"
  const Fallback := "fallback"
  const Llm := "llm"
  const Failed := "failed"
  const Clear := "clear"
  const Inferred := "inferred"
  const Ambiguous := "ambiguous"

  // Source kinds.
  const WebForm := "web_form"
  const Api := "api"

  /** The fixed confidence of every error result (0.1). */
  const ErrorConfidence := 10

  /** One entity found on a registry's result page. */
  datatype EntityMatch = EntityMatch(
    name: string,
    entityType: string,
    status: string,
    fileNumber: string,
    registered: string)

  /** The structured output of one state adapter. `confidence` is in hundredths. */
  datatype AdapterResult = AdapterResult(
    stateCode: string,
    stateName: string,
    availability: string,
    confidence: int,
    rawMatches: seq<EntityMatch>,
    similarNames: seq<string>,
    flags: seq<string>,
    notes: string,
    extractionMethod: string,
    sourceType: string)

  /** `AdapterResult(state_code, state_name, availability, confidence)` with every
      other field left at its declared default. */
  function NewResult(stateCode: string, stateName: string, availability: string, confidence: int): (r: AdapterResult)
    ensures r.stateCode == stateCode && r.stateName == stateName
    ensures r.availability == availability && r.confidence == confidence
    ensures r.rawMatches == [] && r.similarNames == [] && r.flags == [] && r.notes == ""
    ensures r.extractionMethod == Primary && r.sourceType == WebForm
  {
    AdapterResult(stateCode, stateName, availability, confidence, [], [], [], "", Primary, WebForm)
  }

  /** The error result every adapter returns when it catches a failure:
      availability `error`, confidence 0.1, the given note, defaults otherwise. */
  function ErrorResult(stateCode: string, stateName: string, notes: string): (r: AdapterResult)
    ensures r.availability == Error && r.confidence == ErrorConfidence && r.notes == notes
    ensures r.stateCode == stateCode && r.stateName == stateName
    ensures r.rawMatches == [] && r.similarNames == [] && r.flags == []
    ensures r.extractionMethod == Primary && r.sourceType == WebForm
  {
    NewResult(stateCode, stateName, Error, ErrorConfidence).(notes := notes)
  }

  /** The error result for a page element that could not be found: as
      `ErrorResult` but with extraction tier `failed`. */
  function FailedResult(stateCode: string, stateName: string, notes: string): (r: AdapterResult)
    ensures r.availability == Error && r.confidence == ErrorConfidence && r.notes == notes
    ensures r.extractionMethod == Failed && r.sourceType == WebForm
    ensures r.rawMatches == [] && r.similarNames == [] && r.flags == []
  {
    ErrorResult(stateCode, stateName, notes).(extractionMethod := Failed)
  }

  // ---------------------------------------------------------------------
  // Confidence
  // ---------------------------------------------------------------------

  /** Extraction weight in hundredths; an unknown method weighs 0.4. */
  function ExtractionWeight(tier: string): (w: nat)
    ensures w in {100, 70, 40, 10}
    ensures tier !in {Primary, Fallback, Llm, Failed} ==> w == 40
  {
    if tier == Primary then 100
    else if tier == Fallback then 70
    else if tier == Llm then 40
    else if tier == Failed then 10
    else 40
  }

  /** Clarity weight in hundredths; an unknown clarity weighs 0.4. */
  function ClarityWeight(clarity: string): (w: nat)
    ensures w in {100, 70, 40}
    ensures clarity !in {Clear, Inferred, Ambiguous} ==> w == 40
  {
    if clarity == Clear then 100
    else if clarity == Inferred then 70
    else if clarity == Ambiguous then 40
    else 40
  }

  /** The source weight 0.85, in hundredths. It is the same for every adapter. */
  const SourceWeight: nat := 85

  /** `extraction*0.40 + source*0.25 + clarity*0.25 + 1.0*0.10`, in ten-thousandths. */
  function RawConfidence(tier: string, clarity: string): (r: nat)
    ensures 4525 <= r <= 9625
  {
    ExtractionWeight(tier) * 40 + SourceWeight * 25 + ClarityWeight(clarity) * 25 + 100 * 10
  }

  /** `_build_confidence`: the weighted sum rounded to two decimals, in hundredths.
      The sum never ends in exactly half a hundredth, so the result is the unique
      nearest hundredth and no rounding mode or float error can change it. */
  function BuildConfidence(tier: string, clarity: string): (r: nat)
    ensures 45 <= r <= 96
    ensures r * 100 - 50 < RawConfidence(tier, clarity) < r * 100 + 50
  {
    RawRemainder(tier, clarity);
    (RawConfidence(tier, clarity) + 50) / 100
  }

  /** The unrounded sum always ends in 25 or 75 ten-thousandths. */
  lemma RawRemainder(tier: string, clarity: string)
    ensures RawConfidence(tier, clarity) % 100 == 25 || RawConfidence(tier, clarity) % 100 == 75
  {
  }

  /** The twelve values of the formula, for every tier and clarity. */
  lemma ConfidenceTable()
    ensures BuildConfidence(Primary, Clear) == 96 && BuildConfidence(Primary, Inferred) == 89
    ensures BuildConfidence(Primary, Ambiguous) == 81
    ensures BuildConfidence(Fallback, Clear) == 84 && BuildConfidence(Fallback, Inferred) == 77
    ensures BuildConfidence(Fallback, Ambiguous) == 69
    ensures BuildConfidence(Llm, Clear) == 72 && BuildConfidence(Llm, Inferred) == 65
    ensures BuildConfidence(Llm, Ambiguous) == 57
    ensures BuildConfidence(Failed, Clear) == 60 && BuildConfidence(Failed, Inferred) == 53
    ensures BuildConfidence(Failed, Ambiguous) == 45
  {
  }

  /** An unknown tier falls back to weight 0.4: it scores as `llm` would,
      whatever the clarity. */
  lemma UnknownTierDefault(tier: string, clarity: string)
    requires tier !in {Primary, Fallback, Llm, Failed}
    ensures RawConfidence(tier, clarity) == RawConfidence(Llm, clarity)
  {
  }

  /** An unknown clarity falls back to weight 0.4: it scores as `ambiguous`
      would, whatever the tier. */
  lemma UnknownClarityDefault(tier: string, clarity: string)
    requires clarity !in {Clear, Inferred, Ambiguous}
    ensures RawConfidence(tier, clarity) == RawConfidence(tier, Ambiguous)
  {
  }

  /** With the clarity fixed, confidence never increases down the tiers
      primary, fallback, llm, failed; with the tier fixed, never down the
      clarities clear, inferred, ambiguous. */
  lemma ConfidenceMonotone(tier: string, clarity: string)
    ensures RawConfidence(Primary, clarity) > RawConfidence(Fallback, clarity) > RawConfidence(Llm, clarity)
            > RawConfidence(Failed, clarity)
    ensures RawConfidence(tier, Clear) > RawConfidence(tier, Inferred) > RawConfidence(tier, Ambiguous)
    ensures BuildConfidence(Primary, clarity) >= BuildConfidence(Fallback, clarity) >= BuildConfidence(Llm, clarity)
            >= BuildConfidence(Failed, clarity)
    ensures BuildConfidence(tier, Clear) >= BuildConfidence(tier, Inferred) >= BuildConfidence(tier, Ambiguous)
  {
  }
}
