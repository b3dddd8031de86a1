/**
 * The Washington adapter (`backend/adapters/states/wa.py`): a stub that
 * performs no search and points the user to the state's manual search page.
 */
module Washington {
  import opened Text
  import opened Base

  const StateCode := "WA"
  const StateName := "Washington"
  const ManualSearchUrl := "https://ccfs.sos.wa.gov/#/AdvancedSearch"

  const Lead := "Automated Washington search is temporarily unavailable — the CCFS portal uses an Angular SPA with no accessible API. Search manually at "

  /** The note: why there is no automated search, the manual-search page,
      and the name to search for, in double quotes. */
  function ManualNote(name: string): string {
    Lead + ManualSearchUrl + " using the name: \"" + name + "\"."
  }

  /** `search`: whatever the name and entity type, the answer is `unknown`. */
  function Search(name: string, entityType: string): (r: AdapterResult)
  {
    NewResult(StateCode, StateName, Unknown, 0)
      .(notes := ManualNote(name), extractionMethod := Failed, sourceType := WebForm)
  }

  /** For every input the stub reports `unknown` with confidence 0 (below
      every value the confidence formula produces), the `failed` tier, no
      matches, and a note carrying the manual-search page and the searched
      name verbatim. */
  lemma ManualStub(name: string, entityType: string, tier: string, clarity: string)
    ensures var r := Search(name, entityType);
      && r.stateCode == StateCode && r.availability == Unknown
      && r.confidence == 0 && r.confidence < BuildConfidence(tier, clarity)
      && r.extractionMethod == Failed && r.sourceType == WebForm
      && r.rawMatches == [] && r.similarNames == [] && r.flags == []
      && Contains(r.notes, ManualSearchUrl) && Contains(r.notes, name)
  {
    var tail := " using the name: \"" + name + "\".";
    assert ManualNote(name) == Lead + ManualSearchUrl + tail;
    ContainsInfix(Lead, ManualSearchUrl, tail);
    var head := Lead + ManualSearchUrl + " using the name: \"";
    assert ManualNote(name) == head + name + "\".";
    ContainsInfix(head, name, "\".");
  }
}
