/**
 * The Delaware adapter (`backend/adapters/states/de.py`): a name search on
 * the Division of Corporations' web form. The browser session is not
 * modelled; its outcome is an input (`Navigation`), and a rendered results
 * page is a snapshot (`Page`). The text-interpretation model is an oracle
 * from the query it is sent to its reply.
 */
module Delaware {
  import opened Prelude
  import opened Text
  import opened Json
  import opened Base
  import opened Matching
  import opened LlmClient
  import opened Scrape

  const StateCode := "DE"
  const StateName := "Delaware"

  /** Phrases whose presence in the lower-cased page text means "no hits". */
  const NoResultsText := ["no entity", "no records", "not found", "0 records", "no results"]

  /** A rendered results page: its body text, whether `#tblResults` is on it,
      and the rows of that table. */
  datatype Page = Page(body: string, hasResultsTable: bool, rows: seq<Row>)

  /** How the browser session ended: the 90-second limit expired, an
      exception escaped the session, the name input never appeared, or the
      results page was rendered (after waiting at most for network idle). */
  datatype Navigation = TimedOut | Crashed(error: PyError) | NameInputMissing | Rendered(page: Page)

  const NoMatchesNote := "No matching entities found in Delaware registry."
  const TimeoutNote := "Search timed out after 90 seconds."
  const NoInputNote := "Name input field not found — Delaware site structure may have changed."

  // ---------------------------------------------------------------------
  // Table rows: `_parse_table_rows`
  // ---------------------------------------------------------------------

  /** A row of the results table that is the header. */
  predicate IsHeader(fileNumber: string, entityName: string) {
    Upper(entityName) == "ENTITY NAME" || Upper(fileNumber) == "FILE NUMBER"
  }

  /** The match a readable row yields: at least two cells, not the header,
      a non-blank name in cell 1; the file number is cell 0. */
  function RowMatch(cells: seq<string>): (r: Option<EntityMatch>)
    ensures r.Some? ==> r.value.name != "" && r.value.status == Unknown && r.value.entityType == ""
  {
    if |cells| < 2 then None
    else
      var fileNumber := Strip(cells[0]);
      var entityName := Strip(cells[1]);
      if IsHeader(fileNumber, entityName) || entityName == "" then None
      else Some(EntityMatch(entityName, "", Unknown, fileNumber, ""))
  }

  /** The matches of the table read top to bottom; reading stops at the
      first row whose reading raises, keeping what was collected. */
  function TableMatches(rows: seq<Row>): (r: seq<EntityMatch>)
    ensures |r| <= |rows|
  {
    if rows == [] || rows[0].Unreadable? then []
    else
      (match RowMatch(rows[0].texts) case Some(m) => [m] case None => [])
      + TableMatches(rows[1..])
  }

  /** `_parse_table_rows`: walks the rows, skipping short rows, the header
      and nameless rows; an exception ends the walk with the matches so far. */
  method ParseTableRows(rows: seq<Row>) returns (matches: seq<EntityMatch>)
    ensures matches == TableMatches(rows)
  {
    matches := [];
    var i := 0;
    assert rows[i..] == rows;
    while i < |rows|
      invariant 0 <= i <= |rows|
      invariant matches + TableMatches(rows[i..]) == TableMatches(rows)
    {
      if rows[i].Unreadable? {
        return;
      }
      var cells := rows[i].texts;
      RowDecision(cells);
      i := i + 1;
      if |cells| < 2 {
        RowSkipped(rows, i - 1);
        continue;
      }
      var fileNumber := Strip(cells[0]);
      var entityName := Strip(cells[1]);
      if IsHeader(fileNumber, entityName) {
        RowSkipped(rows, i - 1);
        continue;
      }
      if entityName == "" {
        RowSkipped(rows, i - 1);
        continue;
      }
      var m := EntityMatch(entityName, "", Unknown, fileNumber, "");
      RowKept(rows, i - 1, m);
      assert (matches + [m]) + TableMatches(rows[i..]) == matches + ([m] + TableMatches(rows[i..]));
      matches := matches + [m];
    }
  }

  /** The cases of `RowMatch`, one per branch of the walk. */
  lemma RowDecision(cells: seq<string>)
    ensures |cells| < 2 ==> RowMatch(cells) == None
    ensures |cells| >= 2 && (IsHeader(Strip(cells[0]), Strip(cells[1])) || Strip(cells[1]) == "") ==>
      RowMatch(cells) == None
    ensures |cells| >= 2 && !IsHeader(Strip(cells[0]), Strip(cells[1])) && Strip(cells[1]) != "" ==>
      RowMatch(cells) == Some(EntityMatch(Strip(cells[1]), "", Unknown, Strip(cells[0]), ""))
  {
  }

  /** A readable row yielding no match leaves the rest of the walk as it is. */
  lemma RowSkipped(rows: seq<Row>, i: nat)
    requires i < |rows| && rows[i].Cells? && RowMatch(rows[i].texts) == None
    ensures TableMatches(rows[i..]) == TableMatches(rows[i + 1..])
  {
    assert rows[i..][1..] == rows[i + 1..];
  }

  /** A readable row yielding a match puts it ahead of the rest of the walk. */
  lemma RowKept(rows: seq<Row>, i: nat, m: EntityMatch)
    requires i < |rows| && rows[i].Cells? && RowMatch(rows[i].texts) == Some(m)
    ensures TableMatches(rows[i..]) == [m] + TableMatches(rows[i + 1..])
  {
    assert rows[i..][1..] == rows[i + 1..];
  }

  /** An exception at row `k` returns exactly the matches of the rows before it. */
  lemma {:induction false} PartialTable(rows: seq<Row>, k: nat)
    requires k < |rows| && rows[k].Unreadable?
    requires forall j :: 0 <= j < k ==> rows[j].Cells?
    ensures TableMatches(rows) == TableMatches(rows[..k])
  {
    if k > 0 {
      var rest := rows[1..];
      forall j | 0 <= j < k - 1
        ensures rest[j].Cells?
      {
        assert rest[j] == rows[j + 1];
      }
      PartialTable(rest, k - 1);
      assert rows[..k][1..] == rest[..k - 1];
    } else {
      assert rows[..0] == [];
    }
  }

  /** Every parsed match is a data row of the table: a readable row with a
      non-blank name that is not the header. */
  lemma {:induction false} TableMatchesFromRows(rows: seq<Row>, m: EntityMatch)
    requires m in TableMatches(rows)
    ensures m.status == Unknown && m.entityType == "" && m.name != ""
    ensures exists row :: row in rows && row.Cells? && RowMatch(row.texts) == Some(m)
  {
    if RowMatch(rows[0].texts) == Some(m) {
      assert rows[0] in rows;
    } else {
      TableMatchesFromRows(rows[1..], m);
      var row :| row in rows[1..] && row.Cells? && RowMatch(row.texts) == Some(m);
      assert row in rows;
    }
  }

  // ---------------------------------------------------------------------
  // Classification: `_classify`
  // ---------------------------------------------------------------------

  /** The adapter compares `upper().strip()`, which is the shared name key. */
  lemma UpperThenStripIsNameKey(s: string)
    ensures Strip(Upper(s)) == NameKey(s)
  {
    UpperStripCommute(s);
  }

  function Classify(matches: seq<EntityMatch>, searchName: string): (r: AdapterResult)
    ensures r.stateCode == StateCode && r.sourceType == WebForm && r.extractionMethod == Primary
  {
    var exact := ExactMatches(matches, NameKey(searchName));
    if exact != [] then
      NewResult(StateCode, StateName, Taken, BuildConfidence(Primary, Clear))
        .(rawMatches := exact, similarNames := Names(Without(matches, exact)),
          notes := "Exact match found: '" + exact[0].name + "'")
    else
      NewResult(StateCode, StateName, Similar, BuildConfidence(Primary, Inferred))
        .(rawMatches := matches, similarNames := Names(matches),
          notes := IntToString(|matches|) + " similar name(s) found. No exact match. Review for deceptive similarity.")
  }

  /** `taken` exactly when some match has the searched name (trimmed,
      upper-cased), with the exact matches as raw matches and the others as
      similar names; otherwise `similar` with every name in order. */
  lemma ClassifyVerdict(matches: seq<EntityMatch>, searchName: string)
    ensures var r := Classify(matches, searchName);
      var key := NameKey(searchName);
      && (r.availability == Taken <==> HasExact(matches, key))
      && (r.availability == Similar <==> !HasExact(matches, key))
      && r.confidence == (if r.availability == Taken then 96 else 89)
      && (r.availability == Taken ==>
            r.rawMatches == ExactMatches(matches, key)
            && r.similarNames == Names(NonExactMatches(matches, key)))
      && (r.availability == Similar ==> r.rawMatches == matches && r.similarNames == Names(matches))
  {
    ExactNonEmpty(matches, NameKey(searchName));
    ExactPartition(matches, NameKey(searchName));
    ConfidenceTable();
  }

  // ---------------------------------------------------------------------
  // The extraction cascade: `_parse_results`
  // ---------------------------------------------------------------------

  /** `_llm_fallback`: the page text, cut to 3000 characters, goes to the
      model through the synchronous client, which never raises. */
  function LlmFallback(pageText: string, name: string, entityType: string,
                       interpret: PageQuery -> Reply<Interpretation>): AdapterResult
  {
    FallbackResult(StateCode, StateName,
      InterpretStatePageSync(interpret(FallbackQuery(StateName, name, entityType, pageText))))
  }

  /** The table is missing or a no-results phrase occurs in the page text. */
  predicate ShowsNoResults(page: Page) {
    !page.hasResultsTable || ContainsAny(Lower(page.body), NoResultsText)
  }

  function ParseResults(page: Page, name: string, entityType: string,
                        interpret: PageQuery -> Reply<Interpretation>): (r: AdapterResult)
    ensures r.stateCode == StateCode
  {
    var pageText := Lower(page.body);
    if ShowsNoResults(page) then
      NewResult(StateCode, StateName, Available, BuildConfidence(Primary, Clear)).(notes := NoMatchesNote)
    else
      var matches := TableMatches(page.rows);
      if matches == [] then LlmFallback(pageText, name, entityType, interpret)
      else Classify(matches, name)
  }

  /** The cascade: a page showing no results is `available` at 0.96 by the
      primary tier; a table with no parsable row goes to the model with at
      most 3000 characters of the lower-cased page text and is reported by
      the `llm` tier; otherwise the parsed matches are classified. */
  lemma Cascade(page: Page, name: string, entityType: string, interpret: PageQuery -> Reply<Interpretation>)
    ensures var r := ParseResults(page, name, entityType, interpret);
      && (ShowsNoResults(page) ==>
            r.availability == Available && r.confidence == 96 && r.extractionMethod == Primary)
      && (!ShowsNoResults(page) && TableMatches(page.rows) == [] ==>
            var q := FallbackQuery(StateName, name, entityType, Lower(page.body));
            && |q.pageText| <= ExcerptLength && q.pageText == Lower(page.body)[..|q.pageText|]
            && r == FallbackResult(StateCode, StateName, InterpretStatePageSync(interpret(q)))
            && r.extractionMethod == Llm)
      && (!ShowsNoResults(page) && TableMatches(page.rows) != [] ==>
            r == Classify(TableMatches(page.rows), name) && r.extractionMethod == Primary)
      && (r.extractionMethod == Llm <==> !ShowsNoResults(page) && TableMatches(page.rows) == [])
  {
    ConfidenceTable();
  }

  /** An unparseable model reply on the fallback path reports `unknown` at 0.57. */
  lemma DegradedFallbackPath(page: Page, name: string, entityType: string,
                             interpret: PageQuery -> Reply<Interpretation>)
    requires !ShowsNoResults(page) && TableMatches(page.rows) == []
    requires !interpret(FallbackQuery(StateName, name, entityType, Lower(page.body))).Parsed?
    ensures ParseResults(page, name, entityType, interpret).availability == Unknown
    ensures ParseResults(page, name, entityType, interpret).confidence == 57
  {
    DegradedFallback(StateCode, StateName);
  }

  // ---------------------------------------------------------------------
  // Search
  // ---------------------------------------------------------------------

  /** `search`: the failure paths of the browser session, then the cascade. */
  function Search(nav: Navigation, name: string, entityType: string,
                  interpret: PageQuery -> Reply<Interpretation>): (r: AdapterResult)
    ensures r.stateCode == StateCode && r.stateName == StateName
  {
    match nav
    case TimedOut => ErrorResult(StateCode, StateName, TimeoutNote)
    case Crashed(e) => ErrorResult(StateCode, StateName, "Unexpected error: " + e.Describe())
    case NameInputMissing => FailedResult(StateCode, StateName, NoInputNote)
    case Rendered(page) => ParseResults(page, name, entityType, interpret)
  }

  /** A session that did not render a results page gives `error` at 0.1, with
      the `failed` tier exactly when the name input was missing. */
  lemma SearchFailures(nav: Navigation, name: string, entityType: string,
                       interpret: PageQuery -> Reply<Interpretation>)
    requires !nav.Rendered?
    ensures var r := Search(nav, name, entityType, interpret);
      && r.availability == Error && r.confidence == ErrorConfidence
      && (r.extractionMethod == Failed <==> nav.NameInputMissing?)
      && (nav.TimedOut? ==> r.notes == TimeoutNote)
  {
  }
}
