/**
 * What the browser-driven adapters (Delaware, Florida, New Jersey) read from
 * a rendered results page, and the result they build from the
 * text-interpretation fallback. The browser itself is not modelled: a page
 * is a snapshot of its body text and of what each table selector finds.
 */
module Scrape {
  import opened Prelude
  import opened Text
  import opened Base
  import opened Json
  import opened LlmClient

  /** One table row: the `inner_text` of each of its cells, in order, or a row
      whose reading raised inside the browser. */
  datatype Row = Cells(texts: seq<string>) | Unreadable

  /** Reading one of the rows raises. */
  predicate Raises(rows: seq<Row>) {
    exists k :: 0 <= k < |rows| && rows[k].Unreadable?
  }

  /** What one table selector finds on the page: nothing, or a table and its rows. */
  datatype Table = Missing | Present(rows: seq<Row>)

  /** How many characters of page text the fallback sends to the model. */
  const ExcerptLength: nat := 3000

  /** The query `_llm_fallback` sends: the page text cut to `ExcerptLength`. */
  function FallbackQuery(stateName: string, name: string, entityType: string, pageText: string): (q: PageQuery)
    ensures |q.pageText| <= ExcerptLength && |q.pageText| <= |pageText| && q.pageText == pageText[..|q.pageText|]
    ensures |pageText| <= ExcerptLength ==> q.pageText == pageText
    ensures q.stateName == stateName && q.searchName == name && q.entityType == entityType
  {
    PageQuery(stateName, name, entityType, Take(pageText, ExcerptLength))
  }

  /** The result `_llm_fallback` builds from the model's interpretation: the
      model's fields taken verbatim, missing ones defaulted, confidence from
      the `llm` tier, no raw matches. */
  function FallbackResult(stateCode: string, stateName: string, i: Interpretation): (r: AdapterResult)
    ensures r.extractionMethod == Llm && r.sourceType == WebForm
    ensures r.availability == (if i.availability.Some? then i.availability.value else Unknown)
    ensures r.similarNames == (if i.similarNames.Some? then i.similarNames.value else [])
    ensures r.confidence == BuildConfidence(Llm, if i.clarity.Some? then i.clarity.value else Ambiguous)
    ensures 57 <= r.confidence <= 72
    ensures r.rawMatches == [] && r.flags == []
  {
    ConfidenceTable();
    NewResult(stateCode, stateName, i.availability.GetOr(Unknown),
              BuildConfidence(Llm, i.clarity.GetOr(Ambiguous)))
      .(similarNames := i.similarNames.GetOr([]),
        notes := i.notes.GetOr("Result interpreted via LLM fallback."),
        extractionMethod := Llm)
  }

  /** A fallback whose model answer could not be parsed reports `unknown`
      with the lowest llm-tier confidence. */
  lemma DegradedFallback(stateCode: string, stateName: string)
    ensures FallbackResult(stateCode, stateName, DegradedInterpretation).availability == Unknown
    ensures FallbackResult(stateCode, stateName, DegradedInterpretation).confidence == 57
    ensures FallbackResult(stateCode, stateName, DegradedInterpretation).similarNames == []
  {
  }

  /** What waiting for one name-input selector did: it appeared, the wait
      timed out, or the wait raised some other exception. */
  datatype Probe = Appeared | WaitTimedOut | WaitRaised(error: PyError)

  /** How a form-driven browser session went: the 90-second limit expired,
      an exception escaped it, or the form page loaded; then one probe per
      name-input selector, one click outcome per submit selector (`true` when
      the click succeeded) and the page after submitting. */
  datatype Session<Page> =
    | TimedOut
    | Crashed(error: PyError)
    | FormLoaded(inputProbes: seq<Probe>, clicks: seq<bool>, page: Page)

  // ---------------------------------------------------------------------
  // Filling the form: the selector loops of `_fill_and_extract` (Florida, New Jersey)
  // ---------------------------------------------------------------------

  /** The index of the first name-input selector that appeared, `None` when
      every wait timed out, or the exception a wait raised first. */
  function FirstInput(probes: seq<Probe>): (r: Result<Option<nat>, PyError>)
    ensures r.Ok? && r.value.Some? ==> r.value.value < |probes| && probes[r.value.value].Appeared?
    ensures r.Err? ==> WaitRaised(r.error) in probes
  {
    if probes == [] then Ok(None)
    else match probes[0]
      case Appeared => Ok(Some(0))
      case WaitRaised(e) => Err(e)
      case WaitTimedOut =>
        match FirstInput(probes[1..])
        case Ok(Some(k)) => Ok(Some(k + 1))
        case Ok(None) => Ok(None)
        case Err(e) => Err(e)
  }

  /** The input loop: a timed-out wait moves on to the next selector, any
      other exception leaves the loop. */
  method FindInput(probes: seq<Probe>) returns (r: Result<Option<nat>, PyError>)
    ensures r == FirstInput(probes)
  {
    var i := 0;
    while i < |probes|
      invariant 0 <= i <= |probes|
      invariant forall j :: 0 <= j < i ==> probes[j].WaitTimedOut?
    {
      if probes[i].Appeared? {
        FirstInputAt(probes, i);
        return Ok(Some(i));
      } else if probes[i].WaitRaised? {
        FirstInputAt(probes, i);
        return Err(probes[i].error);
      }
      i := i + 1;
    }
    FirstInputAt(probes, |probes|);
    return Ok(None);
  }

  /** After `i` timed-out waits the outcome is decided by the probe at `i`. */
  lemma {:induction false} FirstInputAt(probes: seq<Probe>, i: nat)
    requires i <= |probes|
    requires forall j :: 0 <= j < i ==> probes[j].WaitTimedOut?
    ensures i == |probes| ==> FirstInput(probes) == Ok(None)
    ensures i < |probes| && probes[i].Appeared? ==> FirstInput(probes) == Ok(Some(i))
    ensures i < |probes| && probes[i].WaitRaised? ==> FirstInput(probes) == Err(probes[i].error)
  {
    if i > 0 {
      var rest := probes[1..];
      forall j | 0 <= j < i - 1
        ensures rest[j].WaitTimedOut?
      {
        assert rest[j] == probes[j + 1];
      }
      FirstInputAt(rest, i - 1);
    }
  }

  /** No name input is found exactly when every wait timed out; a found
      input is the first selector that appeared, after timed-out waits only. */
  lemma {:induction false} FirstInputMeaning(probes: seq<Probe>)
    ensures FirstInput(probes) == Ok(None) <==> forall j :: 0 <= j < |probes| ==> probes[j].WaitTimedOut?
    ensures FirstInput(probes).Ok? && FirstInput(probes).value.Some? ==>
      forall j :: 0 <= j < FirstInput(probes).value.value ==> probes[j].WaitTimedOut?
  {
    if probes != [] {
      var rest := probes[1..];
      FirstInputMeaning(rest);
      assert forall j :: 1 <= j < |probes| ==> probes[j] == rest[j - 1];
    }
  }

  /** The submit loop: any exception from a click moves on to the next
      selector; the form is submitted once a click succeeds. */
  method Submit(clicks: seq<bool>) returns (submitted: bool)
    ensures submitted <==> true in clicks
  {
    submitted := false;
    var i := 0;
    while i < |clicks|
      invariant 0 <= i <= |clicks|
      invariant !submitted && true !in clicks[..i]
    {
      if clicks[i] {
        submitted := true;
        break;
      }
      assert clicks[..i + 1] == clicks[..i] + [clicks[i]];
      i := i + 1;
    }
    assert submitted || clicks[..i] == clicks;
  }
}
