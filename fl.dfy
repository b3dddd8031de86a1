/**
 * The Florida adapter (`backend/adapters/states/fl.py`): a name search on
 * the Sunbiz form. The browser session is an input (`Session`): what each
 * name-input probe and each submit click did, and a snapshot of the
 * results page. The text-interpretation model is an oracle from the query
 * it is sent to its reply; this adapter uses the asynchronous client, whose
 * failures propagate.
 */
module Florida {
  import opened Prelude
  import opened Text
  import opened Json
  import opened Base
  import opened Matching
  import opened LlmClient
  import opened Scrape

  const StateCode := "FL"
  const StateName := "Florida"

  /** Sunbiz status codes of entities that are no longer active. */
  const InactiveStatuses: set<string> := {
    "inact", "inactive", "cross rf", "dissolved", "revoked",
    "cancelled", "canceled", "merged", "converted", "withdrawn"
  }

  const NoResultsText := ["no filings", "no matching", "no records", "no results", "0 results", "not found"]

  const NoMatchesNote := "No matching entities found in Florida registry."
  const TimeoutNote := "FL search timed out after 90 seconds."
  const NoFormNote := "FL search form not found — Sunbiz site structure may have changed."
  const NoSubmitNote := "FL search submit button not found."

  /** The results page: its body text and what each of the three table
      selectors (`table`, `#search-results table`, `.sr-voyager`) finds. */
  datatype Page = Page(body: string, table: Table, resultsTable: Table, voyager: Table)

  /** The tables in the order `_parse_table` tries their selectors. */
  function Tables(page: Page): (ts: seq<Table>)
    ensures |ts| == 3 && ts[0] == page.table
  {
    [page.table, page.resultsTable, page.voyager]
  }

  // ---------------------------------------------------------------------
  // Table rows: `_parse_table`
  // ---------------------------------------------------------------------

  /** The match a readable row yields: at least two cells and a non-blank
      name in cell 0; the document number is cell 1, the status cell 2 when
      there is one. */
  function RowMatch(cells: seq<string>): (r: Option<EntityMatch>)
    ensures r.Some? <==> |cells| >= 2 && Strip(cells[0]) != ""
    ensures r.Some? ==> r.value.name != "" && r.value.entityType == "" && r.value.registered == ""
  {
    if |cells| < 2 then None
    else
      var entityName := Strip(cells[0]);
      if entityName == "" then None
      else
        var docNumber := Strip(cells[1]);
        var status := if |cells| > 2 then Strip(cells[2]) else Unknown;
        Some(EntityMatch(entityName, "", status, docNumber, ""))
  }

  /** The matches of one table's rows, read top to bottom up to the first
      row whose reading raises. */
  function RowsMatches(rows: seq<Row>): (r: seq<EntityMatch>)
    ensures |r| <= |rows|
  {
    if rows == [] || rows[0].Unreadable? then []
    else
      (match RowMatch(rows[0].texts) case Some(m) => [m] case None => [])
      + RowsMatches(rows[1..])
  }

  /** The inner loop of `_parse_table`: appends each table row's match to
      `found`, and reports whether reading a row raised. */
  method ReadRows(rows: seq<Row>, found: seq<EntityMatch>) returns (matches: seq<EntityMatch>, raised: bool)
    ensures matches == found + RowsMatches(rows)
    ensures raised == Raises(rows)
  {
    matches := found;
    var i := 0;
    assert rows[i..] == rows;
    while i < |rows|
      invariant 0 <= i <= |rows|
      invariant matches + RowsMatches(rows[i..]) == found + RowsMatches(rows)
      invariant forall j :: 0 <= j < i ==> rows[j].Cells?
    {
      if rows[i].Unreadable? {
        assert rows[i..][0].Unreadable?;
        assert RowsMatches(rows[i..]) == [];
        return matches, true;
      }
      var row := ReadRow(rows[i].texts);
      if row.None? {
        RowSkipped(rows, i);
      } else {
        var m := row.value;
        var rest := RowsMatches(rows[i + 1..]);
        RowKept(rows, i, m);
        assert (matches + [m]) + rest == matches + ([m] + rest);
        matches := matches + [m];
      }
      i := i + 1;
    }
    assert rows[i..] == [];
    return matches, false;
  }

  /** The body of the row loop for one row's cell texts: short rows and
      rows with a blank name are skipped. */
  method ReadRow(cells: seq<string>) returns (m: Option<EntityMatch>)
    ensures m == RowMatch(cells)
  {
    if |cells| < 2 {
      return None;
    }
    var entityName := Strip(cells[0]);
    if entityName == "" {
      return None;
    }
    var docNumber := Strip(cells[1]);
    var status := if |cells| > 2 then Strip(cells[2]) else Unknown;
    return Some(EntityMatch(entityName, "", status, docNumber, ""));
  }

  lemma RowSkipped(rows: seq<Row>, i: nat)
    requires i < |rows| && rows[i].Cells? && RowMatch(rows[i].texts) == None
    ensures RowsMatches(rows[i..]) == RowsMatches(rows[i + 1..])
  {
    assert rows[i..][1..] == rows[i + 1..];
  }

  lemma RowKept(rows: seq<Row>, i: nat, m: EntityMatch)
    requires i < |rows| && rows[i].Cells? && RowMatch(rows[i].texts) == Some(m)
    ensures RowsMatches(rows[i..]) == [m] + RowsMatches(rows[i + 1..])
  {
    assert rows[i..][1..] == rows[i + 1..];
  }

  /** The outer loop of `_parse_table` over the table selectors, from the
      matches `found` so far: a missing table or one without rows is
      skipped; otherwise its rows are read, and the search stops once a
      table was read without an exception and matches were found. An
      exception skips the stop test but keeps the matches read before it. */
  function Collect(tables: seq<Table>, found: seq<EntityMatch>): seq<EntityMatch>
  {
    if tables == [] then found
    else match tables[0]
      case Missing => Collect(tables[1..], found)
      case Present(rows) =>
        if rows == [] then Collect(tables[1..], found)
        else
          var next := found + RowsMatches(rows);
          if !Raises(rows) && next != [] then next else Collect(tables[1..], next)
  }

  /** `_parse_table(page)` */
  function TableMatches(page: Page): seq<EntityMatch> {
    Collect(Tables(page), [])
  }

  method ParseTable(tables: seq<Table>) returns (matches: seq<EntityMatch>)
    ensures matches == Collect(tables, [])
  {
    matches := [];
    var i := 0;
    assert tables[i..] == tables;
    while i < |tables|
      invariant 0 <= i <= |tables|
      invariant Collect(tables[i..], matches) == Collect(tables, [])
    {
      assert tables[i..][1..] == tables[i + 1..];
      var table := tables[i];
      i := i + 1;
      if table.Missing? {
        continue;
      }
      var rows := table.rows;
      if rows == [] {
        continue;
      }
      var raised;
      matches, raised := ReadRows(rows, matches);
      if raised {
        continue;
      }
      if matches != [] {
        return;
      }
    }
  }

  /** The matches found earlier are never dropped. */
  lemma {:induction false} CollectExtends(tables: seq<Table>, found: seq<EntityMatch>)
    ensures |found| <= |Collect(tables, found)| && Collect(tables, found)[..|found|] == found
  {
    if tables != [] {
      match tables[0]
      case Missing => CollectExtends(tables[1..], found);
      case Present(rows) =>
        var next := found + RowsMatches(rows);
        assert next[..|found|] == found;
        if rows == [] {
          CollectExtends(tables[1..], found);
        } else if !(!Raises(rows) && next != []) {
          CollectExtends(tables[1..], next);
        }
    }
  }

  /** No match is found exactly when no selector's table yields one. */
  lemma {:induction false} CollectEmpty(tables: seq<Table>)
    ensures Collect(tables, []) == [] <==>
      forall k :: 0 <= k < |tables| && tables[k].Present? ==> RowsMatches(tables[k].rows) == []
  {
    if tables != [] {
      var rest := tables[1..];
      CollectEmpty(rest);
      assert forall k :: 1 <= k < |tables| ==> tables[k] == rest[k - 1];
      if tables[0].Present? && tables[0].rows != [] {
        var next := RowsMatches(tables[0].rows);
        assert [] + next == next;
        if next != [] {
          CollectExtends(rest, next);
          assert Collect(tables, []) != [];
        } else {
          assert Collect(tables, []) == Collect(rest, []);
        }
      } else {
        assert Collect(tables, []) == Collect(rest, []);
      }
    }
  }

  /** A table read without an exception that yields matches ends the search:
      the first selector's table wins and the later ones are not read. */
  lemma FirstSelectorWins(page: Page)
    requires page.table.Present? && !Raises(page.table.rows) && RowsMatches(page.table.rows) != []
    ensures TableMatches(page) == RowsMatches(page.table.rows)
  {
    assert [] + RowsMatches(page.table.rows) == RowsMatches(page.table.rows);
  }

  /** A table whose reading raised keeps the matches read before the
      exception and passes on to the next selector without the stop test;
      the later selectors' matches come after them. */
  lemma ExceptionSkipsSelector(tables: seq<Table>)
    requires tables != [] && tables[0].Present? && Raises(tables[0].rows)
    ensures var kept := RowsMatches(tables[0].rows);
      && Collect(tables, []) == Collect(tables[1..], kept)
      && |kept| <= |Collect(tables, [])| && Collect(tables, [])[..|kept|] == kept
  {
    var kept := RowsMatches(tables[0].rows);
    assert [] + kept == kept;
    CollectExtends(tables[1..], kept);
  }

  // ---------------------------------------------------------------------
  // Classification: `_classify`
  // ---------------------------------------------------------------------

  function Classify(matches: seq<EntityMatch>, searchName: string): (r: AdapterResult)
    ensures r.stateCode == StateCode && r.sourceType == WebForm && r.extractionMethod == Primary
  {
    var exact := ExactMatches(matches, NameKey(searchName));
    if exact != [] then
      NewResult(StateCode, StateName, Taken, BuildConfidence(Primary, Clear))
        .(rawMatches := exact, similarNames := Names(Without(matches, exact)),
          notes := ExactNote(exact, InactiveStatuses))
    else
      NewResult(StateCode, StateName, Similar, BuildConfidence(Primary, Inferred))
        .(rawMatches := matches, similarNames := Names(matches),
          notes := IntToString(|matches|) + " similar name(s) found in Florida registry. No exact match.")
  }

  /** `taken` exactly when some match has the searched name after trimming
      and upper-casing, even when every such match is inactive: inactivity
      only appends the advisory to the note. Otherwise `similar` with every
      name in order. */
  lemma ClassifyVerdict(matches: seq<EntityMatch>, searchName: string)
    ensures var r := Classify(matches, searchName);
      var key := NameKey(searchName);
      && (r.availability == Taken <==> HasExact(matches, key))
      && (r.availability == Similar <==> !HasExact(matches, key))
      && r.confidence == (if r.availability == Taken then 96 else 89)
      && (r.availability == Taken ==>
            r.rawMatches == ExactMatches(matches, key) && r.rawMatches != []
            && r.similarNames == Names(NonExactMatches(matches, key))
            && StartsWith(r.notes, "Exact match found: '" + r.rawMatches[0].name)
            && (EndsWithAdvisory(r.notes) <==> AllInactive(r.rawMatches, InactiveStatuses)))
      && (r.availability == Similar ==> r.rawMatches == matches && r.similarNames == Names(matches))
  {
    var key := NameKey(searchName);
    ExactNonEmpty(matches, key);
    ExactPartition(matches, key);
    ConfidenceTable();
    if HasExact(matches, key) {
      ExactNoteShape(ExactMatches(matches, key), InactiveStatuses);
    }
  }

  // ---------------------------------------------------------------------
  // The extraction cascade: `_parse_results`
  // ---------------------------------------------------------------------

  /** `_llm_fallback`: the page text, cut to 3000 characters, goes to the
      model; a failed call raises out of the adapter. */
  function LlmFallback(pageText: string, name: string, entityType: string,
                       interpret: PageQuery -> Reply<Interpretation>): Result<AdapterResult, PyError>
  {
    match InterpretStatePage(interpret(FallbackQuery(StateName, name, entityType, pageText)))
    case Ok(i) => Ok(FallbackResult(StateCode, StateName, i))
    case Err(e) => Err(e)
  }

  function ParseResults(page: Page, name: string, entityType: string,
                        interpret: PageQuery -> Reply<Interpretation>): (r: Result<AdapterResult, PyError>)
    ensures r.Ok? ==> r.value.stateCode == StateCode && r.value.stateName == StateName
    ensures r.Ok? ==> r.value.extractionMethod == Primary || r.value.extractionMethod == Llm
  {
    var pageText := Lower(page.body);
    var available := NewResult(StateCode, StateName, Available, BuildConfidence(Primary, Clear))
      .(notes := NoMatchesNote);
    if ContainsAny(pageText, NoResultsText) then Ok(available)
    else
      var matches := TableMatches(page);
      if matches == [] then
        if page.table.Present? then Ok(available)
        else LlmFallback(pageText, name, entityType, interpret)
      else Ok(Classify(matches, name))
  }

  /** The cascade: a no-results phrase, or a table without parsable rows,
      is `available` at 0.96 without asking the model; the model is asked,
      with at most 3000 characters of the lower-cased page text, only when
      the page has no table at all; parsed matches are classified. Only the
      model call can fail. */
  lemma Cascade(page: Page, name: string, entityType: string, interpret: PageQuery -> Reply<Interpretation>)
    ensures var r := ParseResults(page, name, entityType, interpret);
      var q := FallbackQuery(StateName, name, entityType, Lower(page.body));
      var asked := !ContainsAny(Lower(page.body), NoResultsText) && TableMatches(page) == [] && page.table.Missing?;
      && (ContainsAny(Lower(page.body), NoResultsText) ==>
            r.Ok? && r.value.availability == Available && r.value.confidence == 96)
      && (!ContainsAny(Lower(page.body), NoResultsText) && TableMatches(page) == [] && page.table.Present? ==>
            r.Ok? && r.value.availability == Available && r.value.confidence == 96
            && r.value.extractionMethod == Primary)
      && (asked ==>
            |q.pageText| <= ExcerptLength
            && (r.Err? <==> interpret(q).CallFailed?)
            && (r.Ok? ==> r.value == FallbackResult(StateCode, StateName, InterpretStatePage(interpret(q)).value)))
      && (!ContainsAny(Lower(page.body), NoResultsText) && TableMatches(page) != [] ==>
            r == Ok(Classify(TableMatches(page), name)))
      && (r.Err? ==> asked)
      && (r.Ok? ==> (r.value.extractionMethod == Llm <==> asked))
  {
    ConfidenceTable();
  }

  // ---------------------------------------------------------------------
  // Search
  // ---------------------------------------------------------------------

  function Unexpected(e: PyError): (r: AdapterResult)
    ensures r.availability == Error && r.confidence == ErrorConfidence && r.extractionMethod == Primary
  {
    ErrorResult(StateCode, StateName, "Unexpected error: " + e.Describe())
  }

  /** `search`: the session's failure paths, the form-filling loops, then
      the cascade; anything raised becomes an `error` result. */
  function Search(session: Session<Page>, name: string, entityType: string,
                  interpret: PageQuery -> Reply<Interpretation>): (r: AdapterResult)
    ensures r.stateCode == StateCode && r.stateName == StateName
  {
    match session
    case TimedOut => ErrorResult(StateCode, StateName, TimeoutNote)
    case Crashed(e) => Unexpected(e)
    case FormLoaded(probes, clicks, page) =>
      match FirstInput(probes)
      case Err(e) => Unexpected(e)
      case Ok(None) => FailedResult(StateCode, StateName, NoFormNote)
      case Ok(Some(_)) =>
        if true !in clicks then FailedResult(StateCode, StateName, NoSubmitNote)
        else
          match ParseResults(page, name, entityType, interpret)
          case Ok(result) => result
          case Err(e) => Unexpected(e)
  }

  /** When every name-input wait timed out the search fails with `error`
      at 0.1 and the form-not-found note. */
  lemma NoInputFound(probes: seq<Probe>, clicks: seq<bool>, page: Page, name: string, entityType: string,
                     interpret: PageQuery -> Reply<Interpretation>)
    requires forall j :: 0 <= j < |probes| ==> probes[j].WaitTimedOut?
    ensures Search(FormLoaded(probes, clicks, page), name, entityType, interpret)
      == FailedResult(StateCode, StateName, NoFormNote)
  {
    FirstInputMeaning(probes);
  }

  /** When an input was found but no submit click succeeded the search fails
      with `error` at 0.1 and the submit-not-found note. */
  lemma NoSubmitFound(probes: seq<Probe>, clicks: seq<bool>, page: Page, name: string, entityType: string,
                      interpret: PageQuery -> Reply<Interpretation>)
    requires FirstInput(probes).Ok? && FirstInput(probes).value.Some? && true !in clicks
    ensures Search(FormLoaded(probes, clicks, page), name, entityType, interpret)
      == FailedResult(StateCode, StateName, NoSubmitNote)
  {
  }

  /** The `failed` tier is reported exactly when no name input was found or
      no submit click succeeded. */
  lemma FailedTier(probes: seq<Probe>, clicks: seq<bool>, page: Page, name: string, entityType: string,
                   interpret: PageQuery -> Reply<Interpretation>)
    ensures Search(FormLoaded(probes, clicks, page), name, entityType, interpret).extractionMethod == Failed
      <==> FirstInput(probes) == Ok(None)
           || (FirstInput(probes).Ok? && FirstInput(probes).value.Some? && true !in clicks)
  {
    var r := Search(FormLoaded(probes, clicks, page), name, entityType, interpret);
    match FirstInput(probes)
    case Err(e) =>
      assert r == Unexpected(e);
    case Ok(None) =>
    case Ok(Some(_)) =>
      if true in clicks {
        var parsed := ParseResults(page, name, entityType, interpret);
        if parsed.Ok? {
          assert r == parsed.value;
        } else {
          assert r == Unexpected(parsed.error);
        }
      }
  }

  /** A timeout or an escaped exception gives `error` at 0.1. */
  lemma SessionFailures(session: Session<Page>, name: string, entityType: string,
                        interpret: PageQuery -> Reply<Interpretation>)
    requires !session.FormLoaded?
    ensures Search(session, name, entityType, interpret).availability == Error
    ensures Search(session, name, entityType, interpret).confidence == ErrorConfidence
    ensures session.TimedOut? ==> Search(session, name, entityType, interpret).notes == TimeoutNote
  {
  }
}
