/**
 * The California adapter (`backend/adapters/states/ca.py`): one keyword
 * search against the Secretary of State's business-entity API, the parsing
 * of its loosely specified JSON, and the classification of the entities it
 * returns. The HTTP exchange is an input: `Response` is what the client
 * observed.
 */
module California {
  import opened Prelude
  import opened Text
  import opened Json
  import opened Base
  import opened Matching

  const StateCode := "CA"
  const StateName := "California"

  /** Statuses (lower-cased) of entities that are no longer active. */
  const InactiveStatuses: set<string> :=
    {"dissolved", "cancelled", "canceled", "forfeited", "sos canceled", "sos cancelled", "void"}

  /** The outcome of the API request: a timeout, a non-success status raised by
      `raise_for_status`, any other exception (connection failure, a body that
      is not JSON), or the decoded body of a successful response. */
  datatype Response = TimedOut | HttpStatus(status: int) | Raised(error: PyError) | Body(data: Value)

  const NoKeyNote := "CA SOS API key not configured. Set the CA_SOS_API_KEY environment variable."
  const TimeoutNote := "CA SOS API request timed out."
  const NoMatchesNote := "No matching entities found in California registry."

  /** The note for a non-success HTTP status. */
  function StatusNote(status: int): string {
    if status == 401 then "CA SOS API key is invalid or expired."
    else if status == 429 then "CA SOS API rate limit exceeded. Try again shortly."
    else "CA SOS API returned HTTP " + IntToString(status) + "."
  }

  // ---------------------------------------------------------------------
  // Field access: `_get`
  // ---------------------------------------------------------------------

  /** The candidate keys of each match field, tried in order. */
  datatype Schema = Schema(
    nameKeys: seq<string>,
    typeKeys: seq<string>,
    statusKeys: seq<string>,
    numberKeys: seq<string>,
    dateKeys: seq<string>)

  /** The field names the API has been seen to use, PascalCase and camelCase. */
  const Keys := Schema(
    ["EntityName", "entityName", "Name", "name"],
    ["EntityType", "entityType", "EntityTypeName", "entityTypeName"],
    ["Status", "status", "StatusType", "statusType", "EntityStatus", "entityStatus"],
    ["EntityNumber", "entityNumber", "FileNumber", "fileNumber"],
    ["FormationDate", "formationDate", "RegistrationDate", "registrationDate",
     "InitialFilingDate", "initialFilingDate"])

  /** The text a row holds under `key`, when it is usable: the key is present,
      its value is not None, and `str(value).strip()` is not blank. */
  function FieldText(row: seq<(string, Value)>, key: string): (r: Option<string>)
    ensures r.Some? ==> r.value != ""
  {
    match Lookup(row, key)
    case Some(v) => if v != Null && Strip(PyStr(v)) != "" then Some(Strip(PyStr(v))) else None
    case None => None
  }

  /** The text under the first key holding a usable value, else `default`. */
  function Field(row: seq<(string, Value)>, keys: seq<string>, default: string): string
    decreases |keys|
  {
    if keys == [] then default
    else match FieldText(row, keys[0])
      case Some(s) => s
      case None => Field(row, keys[1..], default)
  }

  /** `_get(row, *keys, default=default)`: tries the keys in order and returns
      the first usable value, stripped. */
  method Get(row: seq<(string, Value)>, keys: seq<string>, default: string) returns (r: string)
    ensures r == Field(row, keys, default)
  {
    var i := 0;
    while i < |keys|
      invariant 0 <= i <= |keys|
      invariant Field(row, keys[i..], default) == Field(row, keys, default)
    {
      assert keys[i..][1..] == keys[i + 1..];
      var val := Lookup(row, keys[i]);
      if val.Some? && val.value != Null && Strip(PyStr(val.value)) != "" {
        return Strip(PyStr(val.value));
      }
      i := i + 1;
    }
    return default;
  }

  /** The first key with a usable value decides the field. */
  lemma {:induction false} FieldFirstUsable(row: seq<(string, Value)>, keys: seq<string>, default: string, i: nat)
    requires i < |keys| && FieldText(row, keys[i]).Some?
    requires forall j :: 0 <= j < i ==> FieldText(row, keys[j]).None?
    ensures Field(row, keys, default) == FieldText(row, keys[i]).value
  {
    if i > 0 {
      var rest := keys[1..];
      forall j | 0 <= j < i - 1
        ensures FieldText(row, rest[j]).None?
      {
        assert rest[j] == keys[j + 1];
      }
      FieldFirstUsable(row, rest, default, i - 1);
    }
  }

  /** With no usable key the field takes its default. */
  lemma {:induction false} FieldDefault(row: seq<(string, Value)>, keys: seq<string>, default: string)
    requires forall j :: 0 <= j < |keys| ==> FieldText(row, keys[j]).None?
    ensures Field(row, keys, default) == default
  {
    if keys != [] {
      var rest := keys[1..];
      forall j | 0 <= j < |rest|
        ensures FieldText(row, rest[j]).None?
      {
        assert rest[j] == keys[j + 1];
      }
      FieldDefault(row, rest, default);
    }
  }

  // ---------------------------------------------------------------------
  // Response parsing: `_parse_results`
  // ---------------------------------------------------------------------

  const RowKeys := ["results", "Results", "entities", "Entities"]

  /** `d.get(k1) or d.get(k2) or ... or []`: the first truthy value. */
  function FirstTruthy(members: seq<(string, Value)>, keys: seq<string>): (r: Value)
    ensures Truthy(r) || r == Arr([])
    decreases |keys|
  {
    if keys == [] then Arr([])
    else if Truthy(GetOr(members, keys[0], Null)) then GetOr(members, keys[0], Null)
    else FirstTruthy(members, keys[1..])
  }

  /** What `for row in rows` visits: a top-level list, the first truthy wrapper
      field of a dict, or nothing for any other body. Iterating a truthy
      number or boolean raises. */
  function Rows(data: Value): Result<seq<Value>, PyError> {
    if data.Arr? then Ok(data.items)
    else if data.Obj? then Iterate(FirstTruthy(data.members, RowKeys))
    else Ok([])
  }

  /** The match one row yields, if it is a dict with a usable name. */
  function RowMatch(row: Value, keys: Schema): (r: Option<EntityMatch>)
    ensures r.Some? ==> r.value.name != "" && r.value.status != ""
  {
    if !row.Obj? then None
    else
      var name := Field(row.members, keys.nameKeys, "");
      if name == "" then None
      else
        FieldNonEmpty(row.members, keys.statusKeys, "unknown");
        Some(EntityMatch(
          name,
          Field(row.members, keys.typeKeys, ""),
          Field(row.members, keys.statusKeys, "unknown"),
          Field(row.members, keys.numberKeys, ""),
          Field(row.members, keys.dateKeys, "")))
  }

  lemma {:induction false} FieldNonEmpty(row: seq<(string, Value)>, keys: seq<string>, default: string)
    requires default != ""
    ensures Field(row, keys, default) != ""
  {
    if keys != [] {
      FieldNonEmpty(row, keys[1..], default);
    }
  }

  /** The matches of a list of rows, in order; rows without one are skipped. */
  function RowMatches(rows: seq<Value>, keys: Schema): (r: seq<EntityMatch>)
    ensures |r| <= |rows|
  {
    if rows == [] then []
    else
      (match RowMatch(rows[0], keys) case Some(m) => [m] case None => [])
      + RowMatches(rows[1..], keys)
  }

  /** `_parse_results(data)`, or the exception its loop raises. */
  function ParsedResults(data: Value): Result<seq<EntityMatch>, PyError> {
    match Rows(data)
    case Ok(rows) => Ok(RowMatches(rows, Keys))
    case Err(e) => Err(e)
  }

  lemma {:induction false} RowMatchesAppend(a: seq<Value>, b: seq<Value>, keys: Schema)
    ensures RowMatches(a + b, keys) == RowMatches(a, keys) + RowMatches(b, keys)
  {
    if a == [] {
      assert a + b == b;
    } else {
      assert (a + b)[1..] == a[1..] + b;
      RowMatchesAppend(a[1..], b, keys);
    }
  }

  /** `_parse_results`: the rows of the body, or the exception raised when
      they cannot be iterated, and then the loop over them. */
  method ParseResults(data: Value) returns (r: Result<seq<EntityMatch>, PyError>)
    ensures r == ParsedResults(data)
  {
    match Rows(data) {
      case Err(e) =>
        return Err(e);
      case Ok(rows) =>
        var matches := ParseRows(rows, Keys);
        return Ok(matches);
    }
  }

  /** The loop of `_parse_results` over the rows, in order. */
  method ParseRows(rows: seq<Value>, keys: Schema) returns (matches: seq<EntityMatch>)
    ensures matches == RowMatches(rows, keys)
  {
    matches := [];
    var i := 0;
    assert rows[i..] == rows;
    assert matches + RowMatches(rows[i..], keys) == RowMatches(rows, keys);
    while i < |rows|
      invariant 0 <= i <= |rows|
      invariant matches + RowMatches(rows[i..], keys) == RowMatches(rows, keys)
    {
      var m := ParseRow(rows[i], keys);
      RowMatchesStep(rows, i, keys);
      var rest := RowMatches(rows[i + 1..], keys);
      if m.Some? {
        assert RowMatches(rows[i..], keys) == [m.value] + rest;
        assert (matches + [m.value]) + rest == matches + ([m.value] + rest);
        matches := matches + [m.value];
      } else {
        assert RowMatches(rows[i..], keys) == rest;
      }
      i := i + 1;
    }
    assert rows[i..] == [];
  }

  /** The rows from `i` on yield the match of row `i`, if any, then those of
      the rows after it. */
  lemma RowMatchesStep(rows: seq<Value>, i: nat, keys: Schema)
    requires i < |rows|
    ensures RowMatches(rows[i..], keys)
      == (match RowMatch(rows[i], keys) case Some(m) => [m] case None => []) + RowMatches(rows[i + 1..], keys)
  {
    assert rows[i..][1..] == rows[i + 1..];
  }

  /** The body of the row loop: skips a non-dict and a row without a name,
      and reads each field through `_get`. */
  method ParseRow(row: Value, keys: Schema) returns (m: Option<EntityMatch>)
    ensures m == RowMatch(row, keys)
  {
    if !row.Obj? {
      return None;
    }
    var name := Get(row.members, keys.nameKeys, "");
    if name == "" {
      return None;
    }
    var entityType := Get(row.members, keys.typeKeys, "");
    var status := Get(row.members, keys.statusKeys, "unknown");
    var fileNumber := Get(row.members, keys.numberKeys, "");
    var registered := Get(row.members, keys.dateKeys, "");
    return Some(EntityMatch(name, entityType, status, fileNumber, registered));
  }

  /** Every parsed match comes from a dict row of the body and carries a name. */
  lemma {:induction false} RowMatchesFromDicts(rows: seq<Value>, keys: Schema, m: EntityMatch)
    requires m in RowMatches(rows, keys)
    ensures m.name != "" && m.status != ""
    ensures exists row :: row in rows && row.Obj? && RowMatch(row, keys) == Some(m)
  {
    if RowMatch(rows[0], keys) == Some(m) {
      assert rows[0] in rows;
    } else {
      RowMatchesFromDicts(rows[1..], keys, m);
      var row :| row in rows[1..] && row.Obj? && RowMatch(row, keys) == Some(m);
      assert row in rows;
    }
  }

  /** The body forms the parser accepts without raising: a list, a dict, or
      any scalar (which yields nothing); only a truthy non-iterable wrapper
      field raises. */
  lemma ParseOutcome(data: Value)
    ensures ParsedResults(data).Err? <==>
            data.Obj? && (FirstTruthy(data.members, RowKeys).Num? || FirstTruthy(data.members, RowKeys).Bool?)
    ensures !data.Arr? && !data.Obj? ==> ParsedResults(data) == Ok([])
    ensures data.Arr? ==> ParsedResults(data) == Ok(RowMatches(data.items, Keys))
  {
    if data.Obj? {
      var v := FirstTruthy(data.members, RowKeys);
      if v.Str? || v.Obj? {
        StringAndKeyRowsYieldNothing(Iterate(v).value, Keys);
      }
    }
  }

  /** Iterating a string or a dict yields strings, none of which is a row. */
  lemma {:induction false} StringAndKeyRowsYieldNothing(rows: seq<Value>, keys: Schema)
    requires forall x :: x in rows ==> x.Str?
    ensures RowMatches(rows, keys) == []
  {
    if rows != [] {
      assert rows[0] in rows;
      assert forall x :: x in rows[1..] ==> x in rows;
      StringAndKeyRowsYieldNothing(rows[1..], keys);
    }
  }

  // ---------------------------------------------------------------------
  // Classification: `_classify`
  // ---------------------------------------------------------------------

  /** `_classify`: `available` when nothing came back, `taken` when some name is
      an exact match, `similar` otherwise. */
  function Classify(matches: seq<EntityMatch>, searchName: string): (r: AdapterResult)
    ensures r.stateCode == StateCode && r.stateName == StateName
    ensures r.sourceType == Api && r.extractionMethod == Primary && r.flags == []
  {
    if matches == [] then
      NewResult(StateCode, StateName, Available, BuildConfidence(Primary, Clear))
        .(notes := NoMatchesNote, sourceType := Api)
    else
      var exact := ExactMatches(matches, NameKey(searchName));
      var similar := Without(matches, exact);
      if exact != [] then
        NewResult(StateCode, StateName, Taken, BuildConfidence(Primary, Clear))
          .(rawMatches := exact, similarNames := Names(similar), notes := ExactNote(exact, InactiveStatuses), sourceType := Api)
      else
        NewResult(StateCode, StateName, Similar, BuildConfidence(Primary, Inferred))
          .(rawMatches := matches, similarNames := Names(matches),
            notes := IntToString(|matches|) + " similar California entity name(s) found. No exact match.",
            sourceType := Api)
  }

  /** The verdict: `available` exactly when nothing was returned, `taken`
      exactly when some returned name equals the searched name after trimming
      and upper-casing, `similar` otherwise; 0.96 for a definite answer and
      0.89 for a similar one. */
  lemma ClassifyVerdict(matches: seq<EntityMatch>, searchName: string)
    ensures var r := Classify(matches, searchName);
      && (r.availability == Available <==> matches == [])
      && (r.availability == Taken <==> HasExact(matches, NameKey(searchName)))
      && (r.availability == Similar <==> matches != [] && !HasExact(matches, NameKey(searchName)))
      && r.confidence == (if r.availability == Similar then 89 else 96)
  {
    ExactNonEmpty(matches, NameKey(searchName));
    ConfidenceTable();
  }

  /** A taken result reports the exact matches as raw matches and every other
      match as a similar name, so each returned entity is reported once; its
      note names the first exact match and ends with the inactive-entity
      advisory exactly when every exact match is inactive. */
  lemma ClassifyTaken(matches: seq<EntityMatch>, searchName: string)
    requires HasExact(matches, NameKey(searchName))
    ensures var r := Classify(matches, searchName);
      && r.rawMatches == ExactMatches(matches, NameKey(searchName)) && r.rawMatches != []
      && r.similarNames == Names(NonExactMatches(matches, NameKey(searchName)))
      && |r.rawMatches| + |r.similarNames| == |matches|
      && StartsWith(r.notes, "Exact match found: '" + r.rawMatches[0].name)
      && (EndsWithAdvisory(r.notes) <==> AllInactive(r.rawMatches, InactiveStatuses))
  {
    var key := NameKey(searchName);
    ExactNonEmpty(matches, key);
    ExactPartition(matches, key);
    ExactNoteShape(ExactMatches(matches, key), InactiveStatuses);
  }

  /** Without an exact match every returned entity is a similar name, in order. */
  lemma ClassifySimilar(matches: seq<EntityMatch>, searchName: string)
    requires matches != [] && !HasExact(matches, NameKey(searchName))
    ensures Classify(matches, searchName).rawMatches == matches
    ensures Classify(matches, searchName).similarNames == Names(matches)
  {
    ExactNonEmpty(matches, NameKey(searchName));
  }

  // ---------------------------------------------------------------------
  // Search
  // ---------------------------------------------------------------------

  /** `search`: without a configured key no request is made; a failed request
      becomes an error result with a note naming the failure; a successful
      body is parsed and classified. Parsing runs outside the exception
      handler, so a body whose rows cannot be iterated makes the search raise. */
  function Search(apiKey: Option<string>, name: string, response: Response): (r: Result<AdapterResult, PyError>)
    ensures r.Ok? ==> r.value.stateCode == StateCode && r.value.stateName == StateName
  {
    if apiKey.None? || apiKey.value == "" then Ok(ErrorResult(StateCode, StateName, NoKeyNote))
    else match response
      case TimedOut => Ok(ErrorResult(StateCode, StateName, TimeoutNote))
      case HttpStatus(s) => Ok(ErrorResult(StateCode, StateName, StatusNote(s)))
      case Raised(e) => Ok(ErrorResult(StateCode, StateName, "CA SOS API error: " + e.Describe()))
      case Body(data) =>
        match ParsedResults(data)
        case Ok(matches) => Ok(Classify(matches, name))
        case Err(e) => Err(e)
  }

  /** The search reports an error exactly when the key is missing or the
      request failed, always with confidence 0.1; it raises only on a
      successful body whose rows cannot be iterated; otherwise it is the
      classification of the parsed matches. */
  lemma SearchOutcome(apiKey: Option<string>, name: string, response: Response)
    ensures var r := Search(apiKey, name, response);
      var keyed := apiKey.Some? && apiKey.value != "";
      && (r.Err? <==> keyed && response.Body? && ParsedResults(response.data).Err?)
      && (r.Ok? && r.value.availability == Error <==> !keyed || !response.Body?)
      && (r.Ok? && r.value.availability == Error ==> r.value.confidence == ErrorConfidence)
      && (keyed && response.Body? && ParsedResults(response.data).Ok? ==>
            r == Ok(Classify(ParsedResults(response.data).value, name)))
  {
    if apiKey.Some? && apiKey.value != "" && response.Body? && ParsedResults(response.data).Ok? {
      ClassifyVerdict(ParsedResults(response.data).value, name);
    }
  }

  /** Each failure is reported with its own note. */
  lemma FailureNotes(name: string, e: PyError)
    ensures Search(None, name, TimedOut).value.notes == NoKeyNote
    ensures Search(Some(""), name, TimedOut).value.notes == NoKeyNote
    ensures Search(Some("k"), name, TimedOut).value.notes == TimeoutNote
    ensures Search(Some("k"), name, HttpStatus(401)).value.notes == "CA SOS API key is invalid or expired."
    ensures Search(Some("k"), name, HttpStatus(429)).value.notes == "CA SOS API rate limit exceeded. Try again shortly."
    ensures Search(Some("k"), name, HttpStatus(503)).value.notes == "CA SOS API returned HTTP 503."
    ensures Search(Some("k"), name, Raised(e)).value.notes == "CA SOS API error: " + e.typeName + ": " + e.message
  {
    assert IntToString(503) == "503";
  }
}
