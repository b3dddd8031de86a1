/**
 * The New York adapter (`backend/adapters/states/ny.py`): three queries
 * against the state's Open Data (SODA) dataset of active corporations —
 * two exact-name queries and one prefix query — and the classification of
 * their rows. The Open Data API returns every column as a JSON string, so a
 * row is a dict from column names to strings. The HTTP exchange is an
 * input: one `Response` per request, in request order.
 */
module NewYork {
  import opened Prelude
  import opened Text
  import opened Json
  import opened Base
  import opened Matching

  const StateCode := "NY"
  const StateName := "New York"

  /** Rows per exact query and per prefix query. */
  const ExactLimit: nat := 10
  const PrefixLimit: nat := 100

  type Row = map<string, string>

  // ---------------------------------------------------------------------
  // Query construction: `_esc` and the `$where` clauses
  // ---------------------------------------------------------------------

  /** `s.replace("'", "''")`: doubles every single quote. */
  function Esc(s: string): (r: string)
    ensures |r| >= |s|
  {
    if s == [] then []
    else (if s[0] == '\'' then "''" else [s[0]]) + Esc(s[1..])
  }

  /** Reads a quoted SODA literal back: every `''` becomes `'`. */
  function Unescape(t: string): string
    decreases |t|
  {
    if t == [] then []
    else if |t| >= 2 && t[0] == '\'' && t[1] == '\'' then "'" + Unescape(t[2..])
    else [t[0]] + Unescape(t[1..])
  }

  /** Quotes in `t` come in adjacent pairs, so `t` cannot close the
      surrounding literal. */
  predicate QuotesPaired(t: string)
    decreases |t|
  {
    t == []
    || (t[0] != '\'' && QuotesPaired(t[1..]))
    || (|t| >= 2 && t[0] == '\'' && t[1] == '\'' && QuotesPaired(t[2..]))
  }

  /** The number of single quotes in `s`. */
  function Quotes(s: string): nat {
    if s == [] then 0 else (if s[0] == '\'' then 1 else 0) + Quotes(s[1..])
  }

  /** Escaping can be undone, adds exactly one character per quote, and
      leaves no lone quote. */
  lemma {:induction false} EscRoundTrip(s: string)
    ensures Unescape(Esc(s)) == s
    ensures |Esc(s)| == |s| + Quotes(s)
    ensures QuotesPaired(Esc(s))
  {
    if s != [] {
      EscRoundTrip(s[1..]);
      var t := Esc(s);
      if s[0] == '\'' {
        assert t == "''" + Esc(s[1..]);
        assert t[2..] == Esc(s[1..]);
      } else {
        assert t == [s[0]] + Esc(s[1..]);
        assert t[1..] == Esc(s[1..]);
      }
      assert s == [s[0]] + s[1..];
    }
  }

  /** A `$where`, `$limit` and `$order` request to the dataset. */
  datatype Request = Request(where: string, limit: nat, order: Option<string>)

  function ExactClause(value: string): string {
    "upper(current_entity_name)='" + Esc(value) + "'"
  }

  function PrefixClause(value: string): string {
    "upper(current_entity_name) like '" + Esc(value) + "%'"
  }

  /** The three requests `search` makes, in order: the bare name, the name
      followed by the upper-cased entity type, and the name as a prefix. */
  function Requests(name: string, entityType: string): (r: seq<Request>)
    ensures |r| == 3
    ensures r[0].where == ExactClause(NameKey(name)) && r[0].limit == ExactLimit
    ensures r[1].where == ExactClause(NameKey(name) + " " + Upper(entityType)) && r[1].limit == ExactLimit
    ensures r[2].where == PrefixClause(NameKey(name)) && r[2].limit == PrefixLimit
    ensures r[2].order == Some("current_entity_name")
  {
    var nameUpper := NameKey(name);
    [Request(ExactClause(nameUpper), ExactLimit, None),
     Request(ExactClause(nameUpper + " " + Upper(entityType)), ExactLimit, None),
     Request(PrefixClause(nameUpper), PrefixLimit, Some("current_entity_name"))]
  }

  /** The literal of each exact clause reads back as the name searched for. */
  lemma ExactLiterals(name: string, entityType: string)
    ensures var r := Requests(name, entityType);
      && Unescape(r[0].where[|"upper(current_entity_name)='"|..|r[0].where| - 1]) == NameKey(name)
      && Unescape(r[1].where[|"upper(current_entity_name)='"|..|r[1].where| - 1])
         == NameKey(name) + " " + Upper(entityType)
  {
    var p := "upper(current_entity_name)='";
    var a := NameKey(name);
    var b := NameKey(name) + " " + Upper(entityType);
    EscRoundTrip(a);
    EscRoundTrip(b);
    assert ExactClause(a)[|p|..|ExactClause(a)| - 1] == Esc(a);
    assert ExactClause(b)[|p|..|ExactClause(b)| - 1] == Esc(b);
  }

  // ---------------------------------------------------------------------
  // Rows: `_to_match`
  // ---------------------------------------------------------------------

  /** `row.get(column, "")` */
  function Column(row: Row, column: string): string {
    if column in row then row[column] else ""
  }

  /** `_to_match`: every row of the dataset is an active entity; the filing
      date keeps its first ten characters (the ISO date). */
  function ToMatch(row: Row): (m: EntityMatch)
    ensures m.status == "active"
    ensures m.name == Column(row, "current_entity_name")
    ensures m.fileNumber == Column(row, "dos_id") && m.entityType == Column(row, "entity_type")
    ensures |m.registered| <= 10 && StartsWith(Column(row, "initial_dos_filing_date"), m.registered)
    ensures |Column(row, "initial_dos_filing_date")| >= 10 ==> |m.registered| == 10
    ensures "initial_dos_filing_date" !in row ==> m.registered == ""
  {
    var filed := Column(row, "initial_dos_filing_date");
    EntityMatch(
      Column(row, "current_entity_name"),
      Column(row, "entity_type"),
      "active",
      Column(row, "dos_id"),
      if filed != "" then Take(filed, 10) else "")
  }

  function ToMatches(rows: seq<Row>): (r: seq<EntityMatch>)
    ensures |r| == |rows|
    ensures forall i :: 0 <= i < |rows| ==> r[i] == ToMatch(rows[i])
  {
    if rows == [] then [] else [ToMatch(rows[0])] + ToMatches(rows[1..])
  }

  // ---------------------------------------------------------------------
  // Classification: `_classify`
  // ---------------------------------------------------------------------

  /** `{m.name.upper() for m in exact}` */
  function UpperNames(ms: seq<EntityMatch>): (r: set<string>)
    ensures forall m :: m in ms ==> Upper(m.name) in r
    ensures forall n :: n in r ==> exists m :: m in ms && Upper(m.name) == n
  {
    set m | m in ms :: Upper(m.name)
  }

  /** `[m for m in all_entity if m.name.upper() not in exact_names]` */
  function SimilarOnly(ms: seq<EntityMatch>, exactNames: set<string>): (r: seq<EntityMatch>)
    ensures |r| <= |ms|
  {
    if ms == [] then []
    else (if Upper(ms[0].name) !in exactNames then [ms[0]] else []) + SimilarOnly(ms[1..], exactNames)
  }

  const NoMatchesNote := "No matching active entities found in NY registry."

  function Classify(exactRows: seq<Row>, allRows: seq<Row>): (r: AdapterResult)
    ensures r.stateCode == StateCode && r.sourceType == Api && r.extractionMethod == Primary
  {
    var exact := ToMatches(exactRows);
    var allEntity := ToMatches(allRows);
    var similarOnly := SimilarOnly(allEntity, UpperNames(exact));
    if exact != [] then
      NewResult(StateCode, StateName, Taken, BuildConfidence(Primary, Clear))
        .(rawMatches := exact, similarNames := Names(similarOnly),
          notes := "Exact match found: '" + exact[0].name + "'", sourceType := Api)
    else if allEntity != [] then
      NewResult(StateCode, StateName, Similar, BuildConfidence(Primary, Inferred))
        .(rawMatches := allEntity, similarNames := Names(allEntity),
          notes := IntToString(|allEntity|) + " similar active NY entity name(s) found. No exact match.",
          sourceType := Api)
    else
      NewResult(StateCode, StateName, Available, BuildConfidence(Primary, Clear))
        .(notes := NoMatchesNote, sourceType := Api)
  }

  lemma {:induction false} SimilarOnlyMembers(ms: seq<EntityMatch>, exactNames: set<string>, m: EntityMatch)
    ensures m in SimilarOnly(ms, exactNames) <==> m in ms && Upper(m.name) !in exactNames
  {
    if ms != [] {
      SimilarOnlyMembers(ms[1..], exactNames, m);
      assert m in ms <==> m == ms[0] || m in ms[1..];
    }
  }

  /** The verdict depends only on which lists are empty: `taken` exactly when
      the exact queries returned a row, whatever the prefix query returned;
      `similar` when only the prefix query did; `available` when neither did. */
  lemma ClassifyVerdict(exactRows: seq<Row>, allRows: seq<Row>)
    ensures var r := Classify(exactRows, allRows);
      && (r.availability == Taken <==> exactRows != [])
      && (r.availability == Similar <==> exactRows == [] && allRows != [])
      && (r.availability == Available <==> exactRows == [] && allRows == [])
      && r.confidence == (if r.availability == Similar then 89 else 96)
  {
    ConfidenceTable();
  }

  /** In a taken result the raw matches are the exact rows, and a prefix
      result is listed as a similar name exactly when its upper-cased name
      differs from every exact match's upper-cased name. */
  lemma ClassifyTaken(exactRows: seq<Row>, allRows: seq<Row>, m: EntityMatch)
    requires exactRows != []
    ensures var r := Classify(exactRows, allRows);
      && r.rawMatches == ToMatches(exactRows)
      && (m in SimilarOnly(ToMatches(allRows), UpperNames(r.rawMatches)) <==>
            m in ToMatches(allRows) && forall e :: e in r.rawMatches ==> Upper(e.name) != Upper(m.name))
      && |r.similarNames| <= |allRows|
  {
    var exact := ToMatches(exactRows);
    SimilarOnlyMembers(ToMatches(allRows), UpperNames(exact), m);
  }

  /** No listed similar name of a taken result equals an exact match's name
      once upper-cased. */
  lemma TakenExcludesExactNames(exactRows: seq<Row>, allRows: seq<Row>, i: nat)
    requires exactRows != []
    requires i < |Classify(exactRows, allRows).similarNames|
    ensures forall e :: e in ToMatches(exactRows) ==>
              Upper(e.name) != Upper(Classify(exactRows, allRows).similarNames[i])
  {
    var exact := ToMatches(exactRows);
    var similar := SimilarOnly(ToMatches(allRows), UpperNames(exact));
    var m := similar[i];
    SimilarOnlyMembers(ToMatches(allRows), UpperNames(exact), m);
  }

  /** A similar result lists every prefix result, in order. */
  lemma ClassifySimilar(allRows: seq<Row>)
    requires allRows != []
    ensures Classify([], allRows).rawMatches == ToMatches(allRows)
    ensures Classify([], allRows).similarNames == Names(ToMatches(allRows))
  {
  }

  // ---------------------------------------------------------------------
  // Search
  // ---------------------------------------------------------------------

  /** The outcome of one request: a timeout or another failure while
      sending it, a non-success status raised by `raise_for_status`, or the
      decoded rows. */
  datatype Response = TimedOut | SendFailed(error: PyError) | StatusFailed(error: PyError) | Answered(rows: seq<Row>)

  /** What the `try` block produces: a timeout, another exception, or the
      exact rows and the prefix rows. */
  datatype Fetch = Timeout | Failure(error: PyError) | Fetched(exactRows: seq<Row>, allRows: seq<Row>)

  predicate SendOk(r: Response) { !r.TimedOut? && !r.SendFailed? }

  /** The first failure in the order the client meets them: both exact
      requests are sent, then both statuses are checked, then the prefix
      request is sent and checked. */
  function FetchAll(first: Response, second: Response, prefix: Response): (f: Fetch)
    ensures f.Fetched? <==> first.Answered? && second.Answered? && prefix.Answered?
    ensures f.Fetched? ==> f.exactRows == first.rows + second.rows && f.allRows == prefix.rows
  {
    if first.TimedOut? then Timeout
    else if first.SendFailed? then Failure(first.error)
    else if second.TimedOut? then Timeout
    else if second.SendFailed? then Failure(second.error)
    else if first.StatusFailed? then Failure(first.error)
    else if second.StatusFailed? then Failure(second.error)
    else if prefix.TimedOut? then Timeout
    else if !prefix.Answered? then Failure(prefix.error)
    else Fetched(first.rows + second.rows, prefix.rows)
  }

  /** `search`, given the responses to `Requests(name, entityType)` in order. */
  function Search(first: Response, second: Response, prefix: Response): (r: AdapterResult)
    ensures r.stateCode == StateCode && r.stateName == StateName
  {
    match FetchAll(first, second, prefix)
    case Timeout => ErrorResult(StateCode, StateName, "NY Open Data API request timed out.")
    case Failure(e) => ErrorResult(StateCode, StateName, "NY Open Data API error: " + e.Describe())
    case Fetched(exactRows, allRows) => Classify(exactRows, allRows)
  }

  /** A failed request gives an error with confidence 0.1; otherwise the
      result is the classification of the bare-name rows followed by the
      suffixed-name rows, against the prefix rows. */
  lemma SearchOutcome(first: Response, second: Response, prefix: Response)
    ensures var r := Search(first, second, prefix);
      && (r.availability == Error <==> !(first.Answered? && second.Answered? && prefix.Answered?))
      && (r.availability == Error ==> r.confidence == ErrorConfidence)
      && (first.Answered? && second.Answered? && prefix.Answered? ==>
            r == Classify(first.rows + second.rows, prefix.rows))
  {
    if first.Answered? && second.Answered? && prefix.Answered? {
      ClassifyVerdict(first.rows + second.rows, prefix.rows);
    }
  }
}
