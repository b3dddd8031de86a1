/**
 * The New Jersey adapter (`backend/adapters/states/nj.py`): a prefix name
 * search on the business-name portal. The browser session is an input
 * (`Session`), the results page a snapshot (`Page`), and the
 * text-interpretation model an oracle; this adapter uses the asynchronous
 * client, whose failures propagate.
 *
 * A table's rows are given as in `Scrape`: the first row's texts are its
 * `th, td` cells (the header), every later row's texts its `td` cells. A
 * cell whose `inner_text` raises is read by `_cell` as "", so it is given
 * here with the empty text.
 */
module NewJersey {
  import opened Prelude
  import opened Text
  import opened Json
  import opened Base
  import opened Matching
  import opened LlmClient
  import opened Scrape

  const StateCode := "NJ"
  const StateName := "New Jersey"

  const NoResultsText := ["no results", "no records", "not found", "no entities", "no businesses", "0 results", "0 records"]

  const NoMatchesNote := "No matching entities found in New Jersey registry."
  const TimeoutNote := "NJ search timed out after 90 seconds."
  const NoFormNote := "NJ search form not found — site structure may have changed."
  const NoSubmitNote := "NJ search submit button not found."

  /** The results page: its body text and what each of the four table
      selectors (`table.table`, `#searchResults table`,
      `.search-results table`, `table`) finds. */
  datatype Page = Page(body: string, styledTable: Table, resultsById: Table, resultsByClass: Table, anyTable: Table)

  /** The tables in the order `_parse_table` tries their selectors. */
  function Tables(page: Page): (ts: seq<Table>)
    ensures |ts| == 4 && ts[0] == page.styledTable && ts[3] == page.anyTable
  {
    [page.styledTable, page.resultsById, page.resultsByClass, page.anyTable]
  }

  // ---------------------------------------------------------------------
  // Column detection: `_col_index`
  // ---------------------------------------------------------------------

  const NameWords := ["business name", "entity name", "name"]
  const IdWords := ["entity id", "entity number", "file", "id"]
  const TypeWords := ["type", "entity type", "business type"]
  const StatusWords := ["status"]
  const DateWords := ["date", "incorporated", "formed", "registered"]

  /** The column a header (trimmed, lower-cased) claims: the first group, in
      the order name, id, type, status, date, one of whose keywords it
      contains; a header claims at most one column. */
  function Claim(header: string): (r: Option<string>)
    ensures r.Some? ==> r.value in {"name", "id", "type", "status", "date"}
    ensures ContainsAny(header, NameWords) ==> r == Some("name")
  {
    if ContainsAny(header, NameWords) then Some("name")
    else if ContainsAny(header, IdWords) then Some("id")
    else if ContainsAny(header, TypeWords) then Some("type")
    else if ContainsAny(header, StatusWords) then Some("status")
    else if ContainsAny(header, DateWords) then Some("date")
    else None
  }

  /** The column map of a header row, built left to right with `setdefault`:
      each column gets the index of the first header claiming it. */
  function Columns(headers: seq<string>): map<string, int>
    decreases |headers|
  {
    if headers == [] then map[]
    else
      var columns := Columns(headers[..|headers| - 1]);
      var i := |headers| - 1;
      match Claim(headers[i])
      case Some(column) => if column in columns then columns else columns[column := i]
      case None => columns
  }

  /** `_col_index`: one pass over the headers, first claim wins. */
  method ColIndex(headers: seq<string>) returns (mapping: map<string, int>)
    ensures mapping == Columns(headers)
  {
    mapping := map[];
    var i := 0;
    while i < |headers|
      invariant 0 <= i <= |headers|
      invariant mapping == Columns(headers[..i])
    {
      var h := headers[i];
      assert headers[..i + 1][..i] == headers[..i];
      if ContainsAny(h, NameWords) {
        if "name" !in mapping { mapping := mapping["name" := i]; }
      } else if ContainsAny(h, IdWords) {
        if "id" !in mapping { mapping := mapping["id" := i]; }
      } else if ContainsAny(h, TypeWords) {
        if "type" !in mapping { mapping := mapping["type" := i]; }
      } else if ContainsAny(h, StatusWords) {
        if "status" !in mapping { mapping := mapping["status" := i]; }
      } else if ContainsAny(h, DateWords) {
        if "date" !in mapping { mapping := mapping["date" := i]; }
      }
      i := i + 1;
    }
    assert headers[..i] == headers;
  }

  /** A column is mapped exactly when some header claims it, and then to the
      index of the first header that does. */
  lemma {:induction false} ColumnsMeaning(headers: seq<string>, column: string)
    ensures column in Columns(headers) <==> exists i :: 0 <= i < |headers| && Claim(headers[i]) == Some(column)
    ensures column in Columns(headers) ==>
      var c := Columns(headers)[column];
      && 0 <= c < |headers| && Claim(headers[c]) == Some(column)
      && forall j :: 0 <= j < c ==> Claim(headers[j]) != Some(column)
  {
    if headers != [] {
      var init := headers[..|headers| - 1];
      ColumnsMeaning(init, column);
      assert forall j :: 0 <= j < |init| ==> init[j] == headers[j];
    }
  }

  /** Different columns never share a header. */
  lemma ColumnsDistinct(headers: seq<string>, a: string, b: string)
    requires a in Columns(headers) && b in Columns(headers) && a != b
    ensures Columns(headers)[a] != Columns(headers)[b]
  {
    ColumnsMeaning(headers, a);
    ColumnsMeaning(headers, b);
  }

  /** The header row's texts as `_parse_table` collects them: trimmed and
      lower-cased. */
  function HeaderKeys(texts: seq<string>): (r: seq<string>)
    ensures |r| == |texts|
    ensures forall i :: 0 <= i < |texts| ==> r[i] == Lower(Strip(texts[i]))
  {
    seq(|texts|, i requires 0 <= i < |texts| => Lower(Strip(texts[i])))
  }

  /** The header loop of `_parse_table`. */
  method ReadHeader(texts: seq<string>) returns (headerTexts: seq<string>)
    ensures headerTexts == HeaderKeys(texts)
  {
    headerTexts := [];
    var i := 0;
    while i < |texts|
      invariant 0 <= i <= |texts|
      invariant |headerTexts| == i
      invariant forall j :: 0 <= j < i ==> headerTexts[j] == Lower(Strip(texts[j]))
    {
      headerTexts := headerTexts + [Lower(Strip(texts[i]))];
      i := i + 1;
    }
  }

  // ---------------------------------------------------------------------
  // Cells and rows
  // ---------------------------------------------------------------------

  /** `col.get(column, default)` */
  function ColumnOr(columns: map<string, int>, column: string, default: int): int {
    if column in columns then columns[column] else default
  }

  /** `_cell`: the trimmed text of the cell at `index`, or "" when the index
      is out of range. */
  function Cell(cells: seq<string>, index: int): (r: string)
    ensures index < 0 || index >= |cells| ==> r == ""
    ensures 0 <= index < |cells| ==> r == Strip(cells[index])
    ensures r == [] || (!IsSpace(r[0]) && !IsSpace(r[|r| - 1]))
  {
    if index < 0 || index >= |cells| then "" else Strip(cells[index])
  }

  /** The match a data row yields: it has a `td` and a non-blank name in the
      name column (column 0 when no header claims it); the other fields come
      from their columns, "" when unmapped, and a blank status is "unknown". */
  function RowMatch(columns: map<string, int>, cells: seq<string>): (r: Option<EntityMatch>)
    ensures r.Some? <==> cells != [] && Cell(cells, ColumnOr(columns, "name", 0)) != ""
    ensures r.Some? ==> r.value.name != "" && r.value.status != ""
  {
    if cells == [] then None
    else
      var entityName := Cell(cells, ColumnOr(columns, "name", 0));
      if entityName == "" then None
      else
        var status := Cell(cells, ColumnOr(columns, "status", -1));
        Some(EntityMatch(entityName, Cell(cells, ColumnOr(columns, "type", -1)),
                         if status == "" then Unknown else status,
                         Cell(cells, ColumnOr(columns, "id", -1)),
                         Cell(cells, ColumnOr(columns, "date", -1))))
  }

  /** Without a header claiming a column, its field is "" (or "unknown"). */
  lemma UnmappedColumnsAreBlank(columns: map<string, int>, cells: seq<string>)
    requires RowMatch(columns, cells).Some?
    ensures "type" !in columns ==> RowMatch(columns, cells).value.entityType == ""
    ensures "id" !in columns ==> RowMatch(columns, cells).value.fileNumber == ""
    ensures "date" !in columns ==> RowMatch(columns, cells).value.registered == ""
    ensures "status" !in columns ==> RowMatch(columns, cells).value.status == Unknown
    ensures "name" !in columns ==> RowMatch(columns, cells).value.name == Strip(cells[0])
  {
  }

  /** The matches of the data rows, read top to bottom up to the first row
      whose reading raises. */
  function DataMatches(columns: map<string, int>, rows: seq<Row>): (r: seq<EntityMatch>)
    ensures |r| <= |rows|
  {
    if rows == [] || rows[0].Unreadable? then []
    else
      (match RowMatch(columns, rows[0].texts) case Some(m) => [m] case None => [])
      + DataMatches(columns, rows[1..])
  }

  /** The body of the data-row loop for one row's `td` texts. */
  method ReadRow(columns: map<string, int>, cells: seq<string>) returns (m: Option<EntityMatch>)
    ensures m == RowMatch(columns, cells)
  {
    if cells == [] {
      return None;
    }
    var entityName := Cell(cells, ColumnOr(columns, "name", 0));
    if entityName == "" {
      return None;
    }
    var entityType := Cell(cells, ColumnOr(columns, "type", -1));
    var statusText := Cell(cells, ColumnOr(columns, "status", -1));
    var status := if statusText == "" then Unknown else statusText;
    var fileNumber := Cell(cells, ColumnOr(columns, "id", -1));
    var registered := Cell(cells, ColumnOr(columns, "date", -1));
    m := Some(EntityMatch(entityName, entityType, status, fileNumber, registered));
  }

  lemma RowSkipped(columns: map<string, int>, rows: seq<Row>, i: nat)
    requires i < |rows| && rows[i].Cells? && RowMatch(columns, rows[i].texts) == None
    ensures DataMatches(columns, rows[i..]) == DataMatches(columns, rows[i + 1..])
  {
    assert rows[i..][1..] == rows[i + 1..];
  }

  lemma RowKept(columns: map<string, int>, rows: seq<Row>, i: nat, m: EntityMatch)
    requires i < |rows| && rows[i].Cells? && RowMatch(columns, rows[i].texts) == Some(m)
    ensures DataMatches(columns, rows[i..]) == [m] + DataMatches(columns, rows[i + 1..])
  {
    assert rows[i..][1..] == rows[i + 1..];
  }

  /** The data-row loop of `_parse_table`: appends each row's match to
      `found`, and reports whether reading a row raised. */
  method ReadDataRows(columns: map<string, int>, rows: seq<Row>, found: seq<EntityMatch>)
    returns (matches: seq<EntityMatch>, raised: bool)
    ensures matches == found + DataMatches(columns, rows)
    ensures raised == Raises(rows)
  {
    matches := found;
    var i := 0;
    assert rows[i..] == rows;
    while i < |rows|
      invariant 0 <= i <= |rows|
      invariant matches + DataMatches(columns, rows[i..]) == found + DataMatches(columns, rows)
      invariant forall j :: 0 <= j < i ==> rows[j].Cells?
    {
      if rows[i].Unreadable? {
        assert rows[i..][0].Unreadable?;
        assert DataMatches(columns, rows[i..]) == [];
        return matches, true;
      }
      var row := ReadRow(columns, rows[i].texts);
      if row.None? {
        RowSkipped(columns, rows, i);
      } else {
        var m := row.value;
        var rest := DataMatches(columns, rows[i + 1..]);
        RowKept(columns, rows, i, m);
        assert (matches + [m]) + rest == matches + ([m] + rest);
        matches := matches + [m];
      }
      i := i + 1;
    }
    assert rows[i..] == [];
    return matches, false;
  }

  // ---------------------------------------------------------------------
  // Tables: `_parse_table`
  // ---------------------------------------------------------------------

  /** A table `_parse_table` reads: at least a header and one data row, and a
      header whose reading does not raise. */
  predicate Readable(rows: seq<Row>) {
    |rows| >= 2 && rows[0].Cells?
  }

  /** The column map of a readable table's header. */
  function TableColumns(rows: seq<Row>): map<string, int>
    requires Readable(rows)
  {
    Columns(HeaderKeys(rows[0].texts))
  }

  /** The outer loop of `_parse_table` from the matches `found` so far: a
      missing table, one without a data row, or one whose header raises is
      skipped; otherwise its data rows are read, and the search stops once
      they were read without an exception and matches were found. */
  function Collect(tables: seq<Table>, found: seq<EntityMatch>): seq<EntityMatch>
  {
    if tables == [] then found
    else match tables[0]
      case Missing => Collect(tables[1..], found)
      case Present(rows) =>
        if !Readable(rows) then Collect(tables[1..], found)
        else
          var next := found + DataMatches(TableColumns(rows), rows[1..]);
          if !Raises(rows[1..]) && next != [] then next else Collect(tables[1..], next)
  }

  /** `_parse_table(page)` */
  function TableMatches(page: Page): seq<EntityMatch> {
    Collect(Tables(page), [])
  }

  method ParseTable(tables: seq<Table>) returns (matches: seq<EntityMatch>)
    ensures matches == Collect(tables, [])
  {
    matches := [];
    var i := 0;
    assert tables[i..] == tables;
    while i < |tables|
      invariant 0 <= i <= |tables|
      invariant Collect(tables[i..], matches) == Collect(tables, [])
    {
      assert tables[i..][1..] == tables[i + 1..];
      var table := tables[i];
      i := i + 1;
      if table.Missing? {
        continue;
      }
      var rows := table.rows;
      if |rows| < 2 {
        continue;
      }
      if rows[0].Unreadable? {
        continue;
      }
      var headerTexts := ReadHeader(rows[0].texts);
      var columns := ColIndex(headerTexts);
      var raised;
      matches, raised := ReadDataRows(columns, rows[1..], matches);
      if raised {
        continue;
      }
      if matches != [] {
        return;
      }
    }
  }

  /** The matches found earlier are never dropped. */
  lemma {:induction false} CollectExtends(tables: seq<Table>, found: seq<EntityMatch>)
    ensures |found| <= |Collect(tables, found)| && Collect(tables, found)[..|found|] == found
  {
    if tables != [] {
      match tables[0]
      case Missing => CollectExtends(tables[1..], found);
      case Present(rows) =>
        if !Readable(rows) {
          CollectExtends(tables[1..], found);
        } else {
          var next := found + DataMatches(TableColumns(rows), rows[1..]);
          assert next[..|found|] == found;
          if !(!Raises(rows[1..]) && next != []) {
            CollectExtends(tables[1..], next);
          }
        }
    }
  }

  /** No match is found exactly when no readable table yields one. */
  lemma {:induction false} CollectEmpty(tables: seq<Table>)
    ensures Collect(tables, []) == [] <==>
      forall k :: 0 <= k < |tables| && tables[k].Present? && Readable(tables[k].rows) ==>
        DataMatches(TableColumns(tables[k].rows), tables[k].rows[1..]) == []
  {
    if tables != [] {
      var rest := tables[1..];
      CollectEmpty(rest);
      assert forall k :: 1 <= k < |tables| ==> tables[k] == rest[k - 1];
      if tables[0].Present? && Readable(tables[0].rows) {
        var rows := tables[0].rows;
        var next := DataMatches(TableColumns(rows), rows[1..]);
        assert [] + next == next;
        if next != [] {
          CollectExtends(rest, next);
          assert Collect(tables, []) != [];
        } else {
          assert Collect(tables, []) == Collect(rest, []);
        }
      } else {
        assert Collect(tables, []) == Collect(rest, []);
      }
    }
  }

  /** When the first selector's table is read without an exception and
      yields matches, it is the answer; later selectors are not read. */
  lemma FirstSelectorWins(tables: seq<Table>)
    requires tables != [] && tables[0].Present? && Readable(tables[0].rows)
    requires !Raises(tables[0].rows[1..])
    requires DataMatches(TableColumns(tables[0].rows), tables[0].rows[1..]) != []
    ensures Collect(tables, []) == DataMatches(TableColumns(tables[0].rows), tables[0].rows[1..])
  {
    var found := DataMatches(TableColumns(tables[0].rows), tables[0].rows[1..]);
    assert [] + found == found;
  }

  /** The table of any selector is the answer when it is read without an
      exception and yields matches, and every earlier readable table yielded
      none: nothing was collected before it and the loop stops there. */
  lemma {:induction false} FirstProductiveSelectorWins(tables: seq<Table>, k: nat)
    requires k < |tables| && tables[k].Present? && Readable(tables[k].rows)
    requires !Raises(tables[k].rows[1..])
    requires DataMatches(TableColumns(tables[k].rows), tables[k].rows[1..]) != []
    requires forall j :: 0 <= j < k && tables[j].Present? && Readable(tables[j].rows) ==>
      DataMatches(TableColumns(tables[j].rows), tables[j].rows[1..]) == []
    ensures Collect(tables, []) == DataMatches(TableColumns(tables[k].rows), tables[k].rows[1..])
  {
    if k == 0 {
      FirstSelectorWins(tables);
    } else {
      var rest := tables[1..];
      assert forall j :: 1 <= j < |tables| ==> tables[j] == rest[j - 1];
      if tables[0].Present? && Readable(tables[0].rows) {
        assert [] + DataMatches(TableColumns(tables[0].rows), tables[0].rows[1..]) == [];
      }
      assert Collect(tables, []) == Collect(rest, []);
      FirstProductiveSelectorWins(rest, k - 1);
    }
  }

  // ---------------------------------------------------------------------
  // Classification: `_classify`
  // ---------------------------------------------------------------------

  function Classify(matches: seq<EntityMatch>, searchName: string): (r: AdapterResult)
    ensures r.stateCode == StateCode && r.sourceType == WebForm && r.extractionMethod == Primary
  {
    var exact := ExactMatches(matches, NameKey(searchName));
    if exact != [] then
      NewResult(StateCode, StateName, Taken, BuildConfidence(Primary, Clear))
        .(rawMatches := exact, similarNames := Names(Without(matches, exact)),
          notes := "Exact match found: '" + exact[0].name + "'")
    else
      NewResult(StateCode, StateName, Similar, BuildConfidence(Primary, Inferred))
        .(rawMatches := matches, similarNames := Names(matches),
          notes := IntToString(|matches|) + " similar name(s) found in NJ registry. No exact match.")
  }

  /** `taken` exactly when some match equals the searched name after trimming
      and upper-casing; the exact and the other matches then partition the
      input in order. Otherwise `similar` with every name, at 0.89. */
  lemma ClassifyVerdict(matches: seq<EntityMatch>, searchName: string)
    ensures var r := Classify(matches, searchName);
      var key := NameKey(searchName);
      && (r.availability == Taken <==> HasExact(matches, key))
      && (r.availability == Similar <==> !HasExact(matches, key))
      && r.confidence == (if r.availability == Taken then 96 else 89)
      && (r.availability == Taken ==>
            r.rawMatches == ExactMatches(matches, key)
            && r.similarNames == Names(NonExactMatches(matches, key))
            && |r.rawMatches| + |r.similarNames| == |matches|)
      && (r.availability == Similar ==> r.rawMatches == matches && r.similarNames == Names(matches))
  {
    var key := NameKey(searchName);
    ExactNonEmpty(matches, key);
    ExactPartition(matches, key);
    ConfidenceTable();
  }

  // ---------------------------------------------------------------------
  // The extraction cascade: `_parse_results`
  // ---------------------------------------------------------------------

  /** `_llm_fallback`: the page text, cut to 3000 characters, goes to the
      model; a failed call raises out of the adapter. */
  function LlmFallback(pageText: string, name: string, entityType: string,
                       interpret: PageQuery -> Reply<Interpretation>): Result<AdapterResult, PyError>
  {
    match InterpretStatePage(interpret(FallbackQuery(StateName, name, entityType, pageText)))
    case Ok(i) => Ok(FallbackResult(StateCode, StateName, i))
    case Err(e) => Err(e)
  }

  function ParseResults(page: Page, name: string, entityType: string,
                        interpret: PageQuery -> Reply<Interpretation>): (r: Result<AdapterResult, PyError>)
    ensures r.Ok? ==> r.value.stateCode == StateCode && r.value.stateName == StateName
    ensures r.Ok? ==> r.value.extractionMethod == Primary || r.value.extractionMethod == Llm
  {
    var pageText := Lower(page.body);
    if ContainsAny(pageText, NoResultsText) then
      Ok(NewResult(StateCode, StateName, Available, BuildConfidence(Primary, Clear)).(notes := NoMatchesNote))
    else
      var matches := TableMatches(page);
      if matches == [] then LlmFallback(pageText, name, entityType, interpret)
      else Ok(Classify(matches, name))
  }

  /** The cascade: a no-results phrase is `available` at 0.96; with no phrase
      and no parsed match (whether or not a table is on the page) the model
      is asked with at most 3000 characters of the lower-cased page text;
      parsed matches are classified. Only the model call can fail. */
  lemma Cascade(page: Page, name: string, entityType: string, interpret: PageQuery -> Reply<Interpretation>)
    ensures var r := ParseResults(page, name, entityType, interpret);
      var q := FallbackQuery(StateName, name, entityType, Lower(page.body));
      var asked := !ContainsAny(Lower(page.body), NoResultsText) && TableMatches(page) == [];
      && (ContainsAny(Lower(page.body), NoResultsText) ==>
            r.Ok? && r.value.availability == Available && r.value.confidence == 96)
      && (asked ==>
            |q.pageText| <= ExcerptLength
            && (r.Err? <==> interpret(q).CallFailed?)
            && (r.Ok? ==> r.value == FallbackResult(StateCode, StateName, InterpretStatePage(interpret(q)).value)))
      && (!ContainsAny(Lower(page.body), NoResultsText) && TableMatches(page) != [] ==>
            r == Ok(Classify(TableMatches(page), name)))
      && (r.Err? ==> asked)
      && (r.Ok? ==> (r.value.extractionMethod == Llm <==> asked))
  {
    ConfidenceTable();
  }

  // ---------------------------------------------------------------------
  // Search
  // ---------------------------------------------------------------------

  function Unexpected(e: PyError): (r: AdapterResult)
    ensures r.availability == Error && r.confidence == ErrorConfidence && r.extractionMethod == Primary
  {
    ErrorResult(StateCode, StateName, "Unexpected error: " + e.Describe())
  }

  /** `search`: the session's failure paths, the form-filling loops, then
      the cascade; anything raised becomes an `error` result. */
  function Search(session: Session<Page>, name: string, entityType: string,
                  interpret: PageQuery -> Reply<Interpretation>): (r: AdapterResult)
    ensures r.stateCode == StateCode && r.stateName == StateName
  {
    match session
    case TimedOut => ErrorResult(StateCode, StateName, TimeoutNote)
    case Crashed(e) => Unexpected(e)
    case FormLoaded(probes, clicks, page) =>
      match FirstInput(probes)
      case Err(e) => Unexpected(e)
      case Ok(None) => FailedResult(StateCode, StateName, NoFormNote)
      case Ok(Some(_)) =>
        if true !in clicks then FailedResult(StateCode, StateName, NoSubmitNote)
        else
          match ParseResults(page, name, entityType, interpret)
          case Ok(result) => result
          case Err(e) => Unexpected(e)
  }

  /** When every name-input wait timed out the search fails with `error`
      at 0.1 and the form-not-found note. */
  lemma NoInputFound(probes: seq<Probe>, clicks: seq<bool>, page: Page, name: string, entityType: string,
                     interpret: PageQuery -> Reply<Interpretation>)
    requires forall j :: 0 <= j < |probes| ==> probes[j].WaitTimedOut?
    ensures Search(FormLoaded(probes, clicks, page), name, entityType, interpret)
      == FailedResult(StateCode, StateName, NoFormNote)
  {
    FirstInputMeaning(probes);
  }

  /** The `failed` tier is reported exactly when no name input was found or
      no submit click succeeded. */
  lemma FailedTier(probes: seq<Probe>, clicks: seq<bool>, page: Page, name: string, entityType: string,
                   interpret: PageQuery -> Reply<Interpretation>)
    ensures Search(FormLoaded(probes, clicks, page), name, entityType, interpret).extractionMethod == Failed
      <==> FirstInput(probes) == Ok(None)
           || (FirstInput(probes).Ok? && FirstInput(probes).value.Some? && true !in clicks)
  {
    var r := Search(FormLoaded(probes, clicks, page), name, entityType, interpret);
    match FirstInput(probes)
    case Err(e) =>
      assert r == Unexpected(e);
    case Ok(None) =>
    case Ok(Some(_)) =>
      if true in clicks {
        var parsed := ParseResults(page, name, entityType, interpret);
        if parsed.Ok? {
          assert r == parsed.value;
        } else {
          assert r == Unexpected(parsed.error);
        }
      }
  }

  /** A timeout or an escaped exception gives `error` at 0.1. */
  lemma SessionFailures(session: Session<Page>, name: string, entityType: string,
                        interpret: PageQuery -> Reply<Interpretation>)
    requires !session.FormLoaded?
    ensures Search(session, name, entityType, interpret).availability == Error
    ensures Search(session, name, entityType, interpret).confidence == ErrorConfidence
    ensures session.TimedOut? ==> Search(session, name, entityType, interpret).notes == TimeoutNote
  {
  }
}
