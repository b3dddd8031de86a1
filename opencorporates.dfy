/**
 * The OpenCorporates detail fetcher (`backend/adapters/detail/opencorporates.py`):
 * maps the answer to one company lookup to the detail dict the service
 * returns and caches. The HTTP exchange is an input (`Response`); the dict
 * is `Detail`, whose fields hold the JSON values taken from the company
 * record (`Null` for Python's `None`).
 */
module OpenCorporates {
  import opened Prelude
  import opened Text
  import opened Json

  const ApiBase := "https://api.opencorporates.com/v0.4/companies"
  const PublicBase := "https://opencorporates.com/companies"

  /** `f"us_{state_code.lower()}"` */
  function Jurisdiction(stateCode: string): (j: string)
    ensures StartsWith(j, "us_") && j[3..] == Lower(stateCode)
  {
    "us_" + Lower(stateCode)
  }

  /** The API address of a company, and its public page. */
  function ApiUrl(stateCode: string, fileNumber: string): string {
    ApiBase + "/" + Jurisdiction(stateCode) + "/" + fileNumber
  }

  function PublicUrl(stateCode: string, fileNumber: string): string {
    PublicBase + "/" + Jurisdiction(stateCode) + "/" + fileNumber
  }

  /** How the request went: it timed out, it (or decoding its JSON body)
      raised, or an answer with a status code and a decoded body came back. */
  datatype Response = TimedOut | Raised(error: PyError) | Answered(status: int, body: Value)

  /** The dict `fetch_entity_detail` returns; `error` is `None` when the
      dict has no "error" key. */
  datatype Detail = Detail(
    entityName: Value,
    entityKind: Value,
    formationDate: Value,
    registeredAgent: Value,
    url: Value,
    error: Option<string>)

  /** The dict of a failed lookup: every field `None`, the public page, and the error. */
  function Failure(stateCode: string, fileNumber: string, error: string): (d: Detail)
    ensures d.error == Some(error) && d.url == Str(PublicUrl(stateCode, fileNumber))
    ensures d.entityName == Null && d.entityKind == Null && d.formationDate == Null && d.registeredAgent == Null
  {
    Detail(Null, Null, Null, Null, Str(PublicUrl(stateCode, fileNumber)), Some(error))
  }

  // ---------------------------------------------------------------------
  // The registered agent
  // ---------------------------------------------------------------------

  /** `(officer.get("officer", {}).get("position") or "").lower()`, or the
      exception one of those calls raises. */
  function Role(officer: Value): Result<string, PyError> {
    match PyGet(officer, "officer", Obj([]))
    case Err(e) => Err(e)
    case Ok(inner) =>
      match PyGet(inner, "position", Null)
      case Err(e) => Err(e)
      case Ok(position) =>
        if !Truthy(position) then Ok("")
        else if position.Str? then Ok(Lower(position.s))
        else Err(NoAttribute(position, "lower"))
  }

  /** `officer.get("officer", {}).get("name")` */
  function OfficerName(officer: Value): Result<Value, PyError> {
    match PyGet(officer, "officer", Obj([]))
    case Err(e) => Err(e)
    case Ok(inner) => PyGet(inner, "name", Null)
  }

  /** The name of the first officer whose position contains "agent", `Null`
      when none does, or the exception reading an officer raised. */
  function AgentOf(officers: seq<Value>): Result<Value, PyError> {
    if officers == [] then Ok(Null)
    else match Role(officers[0])
      case Err(e) => Err(e)
      case Ok(role) => if Contains(role, "agent") then OfficerName(officers[0]) else AgentOf(officers[1..])
  }

  /** The officer loop: stops at the first officer whose role names an agent. */
  method FindAgent(officers: seq<Value>) returns (agent: Result<Value, PyError>)
    ensures agent == AgentOf(officers)
  {
    var i := 0;
    assert officers[i..] == officers;
    while i < |officers|
      invariant 0 <= i <= |officers|
      invariant AgentOf(officers[i..]) == AgentOf(officers)
    {
      assert officers[i..][1..] == officers[i + 1..];
      var role := Role(officers[i]);
      if role.Err? {
        return Err(role.error);
      }
      if Contains(role.value, "agent") {
        return OfficerName(officers[i]);
      }
      i := i + 1;
    }
    return Ok(Null);
  }

  /** The agent is the name of officer `k` when `k` is the first officer whose
      role contains "agent" and the officers before it are readable. */
  lemma {:induction false} FirstAgentWins(officers: seq<Value>, k: nat)
    requires k < |officers|
    requires forall j :: 0 <= j < k ==> Role(officers[j]).Ok? && !Contains(Role(officers[j]).value, "agent")
    requires Role(officers[k]).Ok? && Contains(Role(officers[k]).value, "agent")
    ensures AgentOf(officers) == OfficerName(officers[k])
    ensures OfficerName(officers[k]).Ok?
  {
    if k > 0 {
      var rest := officers[1..];
      forall j | 0 <= j < k - 1
        ensures Role(rest[j]).Ok? && !Contains(Role(rest[j]).value, "agent")
      {
        assert rest[j] == officers[j + 1];
      }
      FirstAgentWins(rest, k - 1);
    }
  }

  /** Readable officers none of whose roles contains "agent" give `None`. */
  lemma {:induction false} NoAgent(officers: seq<Value>)
    requires forall j :: 0 <= j < |officers| ==> Role(officers[j]).Ok? && !Contains(Role(officers[j]).value, "agent")
    ensures AgentOf(officers) == Ok(Null)
  {
    if officers != [] {
      var rest := officers[1..];
      forall j | 0 <= j < |rest|
        ensures Role(rest[j]).Ok? && !Contains(Role(rest[j]).value, "agent")
      {
        assert rest[j] == officers[j + 1];
      }
      NoAgent(rest);
    }
  }

  // ---------------------------------------------------------------------
  // The detail dict
  // ---------------------------------------------------------------------

  /** `data.get("results", {}).get("company", {})` */
  function Company(data: Value): Result<Value, PyError> {
    match PyGet(data, "results", Obj([]))
    case Err(e) => Err(e)
    case Ok(results) => PyGet(results, "company", Obj([]))
  }

  /** The dict of a company record; the exception reading it raised. */
  function CompanyDetail(stateCode: string, fileNumber: string, company: Value): Result<Detail, PyError> {
    match PyGet(company, "officers", Arr([]))
    case Err(e) => Err(e)
    case Ok(officers) =>
      match Iterate(officers)
      case Err(e) => Err(e)
      case Ok(list) =>
        match AgentOf(list)
        case Err(e) => Err(e)
        case Ok(agent) =>
          var members := company.members;
          var ownUrl := GetOr(members, "opencorporates_url", Null);
          Ok(Detail(GetOr(members, "name", Null), GetOr(members, "company_type", Null),
                    GetOr(members, "incorporation_date", Null), agent,
                    if Truthy(ownUrl) then ownUrl else Str(PublicUrl(stateCode, fileNumber)),
                    None))
  }

  /** `fetch_entity_detail`: never raises; every failure is a dict with an error. */
  function FetchEntityDetail(stateCode: string, fileNumber: string, response: Response): (d: Detail)
  {
    match response
    case TimedOut => Failure(stateCode, fileNumber, "Request to OpenCorporates timed out.")
    case Raised(e) => Failure(stateCode, fileNumber, e.Describe())
    case Answered(status, body) =>
      if status == 404 then
        Failure(stateCode, fileNumber, "Entity #" + fileNumber + " not found on OpenCorporates.")
      else if status != 200 then
        Failure(stateCode, fileNumber, "OpenCorporates returned HTTP " + IntToString(status) + ".")
      else
        match Company(body)
        case Err(e) => Failure(stateCode, fileNumber, e.Describe())
        case Ok(company) =>
          match CompanyDetail(stateCode, fileNumber, company)
          case Err(e) => Failure(stateCode, fileNumber, e.Describe())
          case Ok(detail) => detail
  }

  /** A lookup succeeds exactly when the answer is a 200 whose company record
      can be read; a successful dict has no error, its agent is the first
      agent officer's name, and its address is the company's own when that
      is non-empty and the public page otherwise. Every failure has all
      fields `None`, the public page, and names its cause: a 404 the file
      number, another status its code, a timeout the timeout. */
  lemma FetchOutcome(stateCode: string, fileNumber: string, response: Response)
    ensures var d := FetchEntityDetail(stateCode, fileNumber, response);
      var succeeded := response.Answered? && response.status == 200
        && Company(response.body).Ok? && CompanyDetail(stateCode, fileNumber, Company(response.body).value).Ok?;
      && (d.error.None? <==> succeeded)
      && (d.error.Some? ==>
            d.url == Str(PublicUrl(stateCode, fileNumber))
            && d.entityName == Null && d.entityKind == Null && d.formationDate == Null && d.registeredAgent == Null)
      && (response.Answered? && response.status == 404 ==>
            d.error == Some("Entity #" + fileNumber + " not found on OpenCorporates."))
      && (response.Answered? && response.status != 404 && response.status != 200 ==>
            d.error == Some("OpenCorporates returned HTTP " + IntToString(response.status) + "."))
      && (response.TimedOut? ==> d.error == Some("Request to OpenCorporates timed out."))
      && (succeeded ==>
            var company := Company(response.body).value;
            && company.Obj?
            && Iterate(GetOr(company.members, "officers", Arr([]))).Ok?
            && AgentOf(Iterate(GetOr(company.members, "officers", Arr([]))).value) == Ok(d.registeredAgent)
            && d.url == (if Truthy(GetOr(company.members, "opencorporates_url", Null))
                         then GetOr(company.members, "opencorporates_url", Null)
                         else Str(PublicUrl(stateCode, fileNumber))))
  {
  }
}
