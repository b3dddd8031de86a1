/**
 * The search orchestrator (`backend/agents/orchestrator.py`) and the USPTO
 * placeholder it always runs (`backend/agents/uspto.py`).
 *
 * `run_search` builds one task per requested state that has an adapter,
 * plus the USPTO task, and awaits them all; a task that raises is dropped
 * without stopping the others. `_run_state` turns one adapter result into
 * one persisted row: rule flags, then at most one similarity flag, then the
 * adapter's own flags. The tasks run here one after the other; what each
 * adapter answers and what the similarity model replies are inputs.
 */
module Orchestrator {
  import opened Prelude
  import opened Text
  import opened Json
  import opened Base
  import opened LlmClient
  import Rules
  import California
  import Delaware
  import Florida
  import NewJersey
  import NewYork
  import Washington

  /** An adapter instance, as far as the orchestrator uses it: the code
      the rule table is looked up with, and the state's name. */
  datatype StateAdapter = StateAdapter(stateCode: string, stateName: string)

  /** `STATE_ADAPTERS.get(state_code)`: the adapter registered under exactly
      this code, or `None`. */
  function Adapter(stateCode: string): (a: Option<StateAdapter>)
    ensures a.Some? ==> a.value.stateCode == stateCode
  {
    if stateCode == California.StateCode then Some(StateAdapter(California.StateCode, California.StateName))
    else if stateCode == Delaware.StateCode then Some(StateAdapter(Delaware.StateCode, Delaware.StateName))
    else if stateCode == Florida.StateCode then Some(StateAdapter(Florida.StateCode, Florida.StateName))
    else if stateCode == NewJersey.StateCode then Some(StateAdapter(NewJersey.StateCode, NewJersey.StateName))
    else if stateCode == NewYork.StateCode then Some(StateAdapter(NewYork.StateCode, NewYork.StateName))
    else if stateCode == Washington.StateCode then Some(StateAdapter(Washington.StateCode, Washington.StateName))
    else None
  }

  // ---------------------------------------------------------------------
  // The persisted rows
  // ---------------------------------------------------------------------

  /** A `StateResult` row. */
  datatype StateRow = StateRow(
    jobId: string,
    stateCode: string,
    stateName: string,
    availability: string,
    confidence: int,
    similarNames: seq<string>,
    flags: seq<string>,
    rawMatches: seq<EntityMatch>,
    notes: string)

  /** A `UsptoResult` row. */
  datatype UsptoRow = UsptoRow(
    jobId: string,
    exactMatches: seq<string>,
    similarMarks: seq<string>,
    riskLevel: string,
    notes: string)

  /** The rows written so far, in the order they were committed. */
  class Store {
    var stateRows: seq<StateRow>
    var usptoRows: seq<UsptoRow>

    constructor ()
      ensures stateRows == [] && usptoRows == []
    {
      stateRows := [];
      usptoRows := [];
    }

    method AddStateRow(row: StateRow)
      modifies this
      ensures stateRows == old(stateRows) + [row]
      ensures usptoRows == old(usptoRows)
    {
      stateRows := stateRows + [row];
    }

    method AddUsptoRow(row: UsptoRow)
      modifies this
      ensures usptoRows == old(usptoRows) + [row]
      ensures stateRows == old(stateRows)
    {
      usptoRows := usptoRows + [row];
    }
  }

  // ---------------------------------------------------------------------
  // The USPTO placeholder
  // ---------------------------------------------------------------------

  const TessUrl := "https://tmsearch.uspto.gov"

  function UsptoNotes(name: string): string {
    "Automated USPTO trademark search is temporarily unavailable. Search manually at "
      + TessUrl + " using the mark name: \"" + name + "\"."
  }

  /** The row `search_uspto` always writes. */
  function UsptoRowFor(jobId: string, name: string): UsptoRow {
    UsptoRow(jobId, [], [], Unknown, UsptoNotes(name))
  }

  /** The USPTO row has no marks, risk unknown, and a note naming the
      manual search site and the searched name. */
  lemma UsptoRowMeaning(jobId: string, name: string)
    ensures var row := UsptoRowFor(jobId, name);
      && row.jobId == jobId && row.exactMatches == [] && row.similarMarks == []
      && row.riskLevel == Unknown
      && Contains(row.notes, TessUrl) && Contains(row.notes, name)
  {
    var lead := "Automated USPTO trademark search is temporarily unavailable. Search manually at ";
    var tail := " using the mark name: \"" + name + "\".";
    assert UsptoNotes(name) == lead + TessUrl + tail;
    ContainsInfix(lead, TessUrl, tail);
    var head := lead + TessUrl + " using the mark name: \"";
    assert UsptoNotes(name) == head + name + "\".";
    ContainsInfix(head, name, "\".");
  }

  // ---------------------------------------------------------------------
  // Task construction
  // ---------------------------------------------------------------------

  /** A coroutine `run_search` awaits: one state's lookup, or the USPTO check. */
  datatype Task = StateTask(adapter: StateAdapter) | UsptoTask

  /** The task a requested code contributes: one when an adapter is
      registered under it (exact match, no case folding), none otherwise. */
  function CodeTasks(stateCode: string): seq<Task> {
    match Adapter(stateCode)
    case None => []
    case Some(adapter) => [StateTask(adapter)]
  }

  /** The state tasks for the requested codes, in request order. */
  function StateTasks(states: seq<string>): seq<Task> {
    if states == [] then []
    else StateTasks(states[..|states| - 1]) + CodeTasks(states[|states| - 1])
  }

  /** Every task `run_search` awaits: the state tasks, then the USPTO task. */
  function Tasks(states: seq<string>): seq<Task> {
    StateTasks(states) + [UsptoTask]
  }

  /** The task-building loop of `run_search`. */
  method PlanTasks(states: seq<string>) returns (tasks: seq<Task>)
    ensures tasks == Tasks(states)
  {
    tasks := [];
    var i := 0;
    while i < |states|
      invariant 0 <= i <= |states|
      invariant tasks == StateTasks(states[..i])
    {
      assert states[..i + 1][..i] == states[..i];
      var adapter := Adapter(states[i]);
      if adapter.Some? {
        tasks := tasks + [StateTask(adapter.value)];
      }
      i := i + 1;
    }
    assert states[..i] == states;
    tasks := tasks + [UsptoTask];
  }

  /** Tasks for a concatenated request are the tasks of each part, in order. */
  lemma {:induction false} StateTasksAppend(a: seq<string>, b: seq<string>)
    ensures StateTasks(a + b) == StateTasks(a) + StateTasks(b)
    decreases |b|
  {
    if b == [] {
      assert a + b == a;
    } else {
      var init := b[..|b| - 1];
      assert (a + b)[..|a + b| - 1] == a + init;
      StateTasksAppend(a, init);
    }
  }

  /** A state task exists exactly for each requested code with an adapter,
      and carries that adapter; unknown codes are dropped, and no state task
      is the USPTO task. */
  lemma {:induction false} StateTasksMeaning(states: seq<string>)
    ensures forall t :: t in StateTasks(states) ==> t.StateTask? && Adapter(t.adapter.stateCode) == Some(t.adapter)
    ensures forall c :: c in states && Adapter(c).Some? ==> StateTask(Adapter(c).value) in StateTasks(states)
    ensures forall t :: t in StateTasks(states) ==> t.adapter.stateCode in states
    ensures |StateTasks(states)| <= |states|
  {
    if states != [] {
      var init := states[..|states| - 1];
      var last := states[|states| - 1];
      StateTasksMeaning(init);
      assert states == init + [last];
      assert StateTasks(states) == StateTasks(init) + CodeTasks(last);
      forall c | c in init ensures c in states {
      }
    }
  }

  /** `run_search` awaits exactly one USPTO task, last, after the state
      tasks. */
  lemma TasksMeaning(states: seq<string>)
    ensures Tasks(states)[|Tasks(states)| - 1] == UsptoTask
    ensures multiset(Tasks(states))[UsptoTask] == 1
    ensures forall c :: c in states && Adapter(c).Some? ==> StateTask(Adapter(c).value) in Tasks(states)
    ensures forall t :: t in Tasks(states) && t.StateTask? ==> t.adapter.stateCode in states
  {
    StateTasksMeaning(states);
    assert UsptoTask !in StateTasks(states);
  }

  /** The registered codes are exactly CA, DE, FL, NJ, NY and WA. */
  lemma RegisteredCodes(stateCode: string)
    ensures Adapter(stateCode).Some? <==> stateCode in ["CA", "DE", "FL", "NJ", "NY", "WA"]
  {
  }

  // ---------------------------------------------------------------------
  // One state
  // ---------------------------------------------------------------------

  /** Analysis runs only on a `similar` verdict that names someone. */
  predicate NeedsSimilarity(result: AdapterResult) {
    result.availability == Similar && result.similarNames != []
  }

  /** The question sent to `analyze_similarity`: the first ten names and the
      state's rule summary. */
  function Query(name: string, entityType: string, adapter: StateAdapter, result: AdapterResult): (q: SimilarityQuery)
    ensures |q.similarNames| <= 10 && |q.similarNames| <= |result.similarNames|
    ensures q.similarNames == result.similarNames[..|q.similarNames|]
    ensures |result.similarNames| <= 10 ==> q.similarNames == result.similarNames
  {
    SimilarityQuery(name, entityType, adapter.stateName, Take(result.similarNames, 10), Rules.RulesSummary(adapter.stateCode))
  }

  const SimilarityTag := "[SIMILARITY] "

  /** The flag of a finished analysis: the upper-cased risk (`unknown` when
      absent), the explanation and the recommendation. */
  function RiskFlag(a: Assessment): (f: string)
    ensures StartsWith(f, SimilarityTag + "Risk: ")
  {
    var head := SimilarityTag + "Risk: ";
    var f := head + (Upper(a.riskLevel.GetOr(Unknown)) + ". " + a.explanation.GetOr("") + " " + a.recommendation.GetOr(""));
    assert f[..|head|] == head;
    f
  }

  /** The flag of an analysis that raised: `str(e)`, the message alone. */
  function FailedFlag(e: PyError): (f: string)
    ensures StartsWith(f, SimilarityTag + "Analysis failed: ")
  {
    var head := SimilarityTag + "Analysis failed: ";
    var f := head + e.message;
    assert f[..|head|] == head;
    f
  }

  /** The flags the similarity step appends: none, or one. */
  function SimilarityFlags(name: string, entityType: string, adapter: StateAdapter, result: AdapterResult,
                           assess: SimilarityQuery -> Reply<Assessment>): seq<string>
  {
    if !NeedsSimilarity(result) then []
    else
      var q := Query(name, entityType, adapter, result);
      match AnalyzeSimilarity(q, assess(q))
      case Ok(a) => [RiskFlag(a)]
      case Err(e) => [FailedFlag(e)]
  }

  /** The row `_run_state` commits for an adapter that returned `result`. */
  function RowFor(jobId: string, name: string, entityType: string, adapter: StateAdapter, result: AdapterResult,
                  assess: SimilarityQuery -> Reply<Assessment>): StateRow
  {
    StateRow(jobId, result.stateCode, result.stateName, result.availability, result.confidence,
      result.similarNames,
      Rules.Flags(Rules.RulesFor(adapter.stateCode), name, entityType)
        + SimilarityFlags(name, entityType, adapter, result, assess) + result.flags,
      result.rawMatches, result.notes)
  }

  /** The rows a state task writes: one, or none when its adapter raised. */
  function StateRows(jobId: string, name: string, entityType: string, adapter: StateAdapter,
                     search: string -> Result<AdapterResult, PyError>,
                     assess: SimilarityQuery -> Reply<Assessment>): seq<StateRow>
  {
    match search(adapter.stateCode)
    case Err(_) => []
    case Ok(result) => [RowFor(jobId, name, entityType, adapter, result, assess)]
  }

  /** `_run_state`: the adapter's verdict, the rule flags, the optional
      similarity flag, one committed row. An exception from the adapter
      ends the task before anything is written. */
  method RunState(store: Store, jobId: string, name: string, entityType: string, adapter: StateAdapter,
                  search: string -> Result<AdapterResult, PyError>,
                  assess: SimilarityQuery -> Reply<Assessment>)
    modifies store
    ensures store.stateRows == old(store.stateRows) + StateRows(jobId, name, entityType, adapter, search, assess)
    ensures store.usptoRows == old(store.usptoRows)
  {
    var outcome := search(adapter.stateCode);
    if outcome.Err? {
      return;
    }
    var result := outcome.value;
    var flags := Rules.ApplyRules(name, entityType, adapter.stateCode);
    if result.availability == Similar && result.similarNames != [] {
      var q := Query(name, entityType, adapter, result);
      var similarity := AnalyzeSimilarity(q, assess(q));
      if similarity.Ok? {
        flags := flags + [RiskFlag(similarity.value)];
      } else {
        flags := flags + [FailedFlag(similarity.error)];
      }
    }
    assert flags == Rules.Flags(Rules.RulesFor(adapter.stateCode), name, entityType)
      + SimilarityFlags(name, entityType, adapter, result, assess);
    store.AddStateRow(StateRow(jobId, result.stateCode, result.stateName, result.availability,
      result.confidence, result.similarNames, flags + result.flags, result.rawMatches, result.notes));
  }

  /** The similarity step adds a flag exactly when the verdict is `similar`
      with names: the risk summary when the analysis returns (the degraded
      assessment when its answer could not be parsed), the failure message
      when it raises. */
  lemma SimilarityFlagMeaning(name: string, entityType: string, adapter: StateAdapter, result: AdapterResult,
                              assess: SimilarityQuery -> Reply<Assessment>)
    ensures var flags := SimilarityFlags(name, entityType, adapter, result, assess);
      var q := Query(name, entityType, adapter, result);
      && (!NeedsSimilarity(result) ==> flags == [])
      && (NeedsSimilarity(result) && assess(q).CallFailed? ==> flags == [FailedFlag(assess(q).error)])
      && (NeedsSimilarity(result) && assess(q).Parsed? ==> flags == [RiskFlag(assess(q).value)])
      && (NeedsSimilarity(result) && assess(q).Unparseable? ==> flags == [RiskFlag(DegradedAssessment(q))])
  {
  }

  /** A risk summary never reads as a failure report. */
  lemma RiskIsNotFailure(a: Assessment, e: PyError)
    ensures RiskFlag(a) != FailedFlag(e)
  {
    var n := |SimilarityTag|;
    assert RiskFlag(a)[n] == (SimilarityTag + "Risk: ")[n] == 'R';
    assert FailedFlag(e)[n] == (SimilarityTag + "Analysis failed: ")[n] == 'A';
  }

  /** An assessment the model could not phrase still yields a flag: risk
      UNKNOWN with the fixed advice. */
  lemma UnparseableReplyFlag(q: SimilarityQuery)
    ensures RiskFlag(DegradedAssessment(q)) == SimilarityTag + "Risk: " + "UNKNOWN" + ". "
      + "Could not parse similarity analysis." + " " + "Review similar names manually."
  {
    var a := DegradedAssessment(q);
    var u := Upper(a.riskLevel.GetOr(Unknown));
    assert u == "UNKNOWN" by {
      assert a.riskLevel.GetOr(Unknown) == "unknown";
      assert |u| == 7;
      assert u[0] == 'U' && u[1] == 'N' && u[2] == 'K' && u[3] == 'N';
      assert u[4] == 'O' && u[5] == 'W' && u[6] == 'N';
    }
  }

  /** The persisted row copies the adapter's verdict unchanged, and its flags
      are the rule flags, then the similarity flag if any, then the
      adapter's own flags. */
  lemma RowMeaning(jobId: string, name: string, entityType: string, adapter: StateAdapter, result: AdapterResult,
                   assess: SimilarityQuery -> Reply<Assessment>)
    ensures var row := RowFor(jobId, name, entityType, adapter, result, assess);
      var ruleFlags := Rules.Flags(Rules.RulesFor(adapter.stateCode), name, entityType);
      && row.jobId == jobId
      && row.stateCode == result.stateCode && row.stateName == result.stateName
      && row.availability == result.availability && row.confidence == result.confidence
      && row.similarNames == result.similarNames && row.notes == result.notes
      && row.rawMatches == result.rawMatches
      && row.flags[..|ruleFlags|] == ruleFlags
      && row.flags[|row.flags| - |result.flags|..] == result.flags
      && |row.flags| == |ruleFlags| + |result.flags| + (if NeedsSimilarity(result) then 1 else 0)
  {
    SimilarityFlagMeaning(name, entityType, adapter, result, assess);
    var ruleFlags := Rules.Flags(Rules.RulesFor(adapter.stateCode), name, entityType);
    var sim := SimilarityFlags(name, entityType, adapter, result, assess);
    var row := RowFor(jobId, name, entityType, adapter, result, assess);
    assert row.flags == ruleFlags + sim + result.flags;
    assert |sim| == (if NeedsSimilarity(result) then 1 else 0);
  }

  // ---------------------------------------------------------------------
  // The whole search
  // ---------------------------------------------------------------------

  /** The state rows one task writes. */
  function TaskRows(jobId: string, name: string, entityType: string, task: Task,
                    search: string -> Result<AdapterResult, PyError>,
                    assess: SimilarityQuery -> Reply<Assessment>): seq<StateRow>
  {
    match task
    case StateTask(adapter) => StateRows(jobId, name, entityType, adapter, search, assess)
    case UsptoTask => []
  }

  /** The state rows a list of tasks writes, in task order. */
  function Rows(jobId: string, name: string, entityType: string, tasks: seq<Task>,
                search: string -> Result<AdapterResult, PyError>,
                assess: SimilarityQuery -> Reply<Assessment>): seq<StateRow>
  {
    if tasks == [] then []
    else
      Rows(jobId, name, entityType, tasks[..|tasks| - 1], search, assess)
        + TaskRows(jobId, name, entityType, tasks[|tasks| - 1], search, assess)
  }

  /** The USPTO rows a list of tasks writes, `uspto` being the row the
      USPTO check writes. */
  function UsptoRows(uspto: UsptoRow, tasks: seq<Task>): seq<UsptoRow> {
    if tasks == [] then []
    else UsptoRows(uspto, tasks[..|tasks| - 1]) + TaskUsptoRows(uspto, tasks[|tasks| - 1])
  }

  function TaskUsptoRows(uspto: UsptoRow, task: Task): seq<UsptoRow> {
    if task.UsptoTask? then [uspto] else []
  }

  /** Awaiting one task; the USPTO check writes the row `uspto`. */
  method RunTask(store: Store, jobId: string, name: string, entityType: string, task: Task, uspto: UsptoRow,
                 search: string -> Result<AdapterResult, PyError>,
                 assess: SimilarityQuery -> Reply<Assessment>)
    modifies store
    ensures store.stateRows == old(store.stateRows) + TaskRows(jobId, name, entityType, task, search, assess)
    ensures store.usptoRows == old(store.usptoRows) + TaskUsptoRows(uspto, task)
  {
    if task.StateTask? {
      RunState(store, jobId, name, entityType, task.adapter, search, assess);
    } else {
      // `search_uspto`: one fixed row.
      store.AddUsptoRow(uspto);
    }
  }

  /** `run_search`: builds the tasks and awaits them all. */
  method RunSearch(store: Store, jobId: string, name: string, entityType: string, states: seq<string>,
                   search: string -> Result<AdapterResult, PyError>,
                   assess: SimilarityQuery -> Reply<Assessment>)
    modifies store
    ensures store.stateRows == old(store.stateRows) + Rows(jobId, name, entityType, Tasks(states), search, assess)
    ensures store.usptoRows == old(store.usptoRows) + [UsptoRowFor(jobId, name)]
  {
    var tasks := PlanTasks(states);
    RunTasks(store, jobId, name, entityType, tasks, UsptoRowFor(jobId, name), search, assess);
    OneUsptoRow(UsptoRowFor(jobId, name), states);
  }

  /** `asyncio.gather` over the tasks, taken one after the other: the tasks
      before the last, then the last. */
  method RunTasks(store: Store, jobId: string, name: string, entityType: string, tasks: seq<Task>, uspto: UsptoRow,
                  search: string -> Result<AdapterResult, PyError>,
                  assess: SimilarityQuery -> Reply<Assessment>)
    modifies store
    ensures store.stateRows == old(store.stateRows) + Rows(jobId, name, entityType, tasks, search, assess)
    ensures store.usptoRows == old(store.usptoRows) + UsptoRows(uspto, tasks)
    decreases |tasks|
  {
    if tasks != [] {
      RunTasks(store, jobId, name, entityType, tasks[..|tasks| - 1], uspto, search, assess);
      RunTask(store, jobId, name, entityType, tasks[|tasks| - 1], uspto, search, assess);
    }
  }

  lemma {:induction false} RowsAppend(jobId: string, name: string, entityType: string, a: seq<Task>, b: seq<Task>,
                                      search: string -> Result<AdapterResult, PyError>,
                                      assess: SimilarityQuery -> Reply<Assessment>)
    ensures Rows(jobId, name, entityType, a + b, search, assess)
      == Rows(jobId, name, entityType, a, search, assess) + Rows(jobId, name, entityType, b, search, assess)
    decreases |b|
  {
    if b == [] {
      assert a + b == a;
    } else {
      var init := b[..|b| - 1];
      var last := b[|b| - 1];
      assert (a + b)[..|a + b| - 1] == a + init;
      assert (a + b)[|a + b| - 1] == last;
      RowsAppend(jobId, name, entityType, a, init, search, assess);
    }
  }

  /** The rows a requested code leads to: its adapter's rows, or none when
      no adapter is registered under it. */
  function CodeRows(jobId: string, name: string, entityType: string, stateCode: string,
                    search: string -> Result<AdapterResult, PyError>,
                    assess: SimilarityQuery -> Reply<Assessment>): seq<StateRow>
  {
    match Adapter(stateCode)
    case None => []
    case Some(adapter) => StateRows(jobId, name, entityType, adapter, search, assess)
  }

  /** Each requested state writes its own rows whatever the others do: the
      rows of a search are the rows of each requested code, in request
      order, so a state whose adapter raised contributes nothing and hides
      nothing, and the USPTO task adds no state row. */
  lemma {:induction false} RowsPerState(jobId: string, name: string, entityType: string, states: seq<string>,
                                        search: string -> Result<AdapterResult, PyError>,
                                        assess: SimilarityQuery -> Reply<Assessment>)
    ensures Rows(jobId, name, entityType, Tasks(states), search, assess)
      == Rows(jobId, name, entityType, StateTasks(states), search, assess)
    ensures forall k :: 0 <= k < |states| ==>
      Rows(jobId, name, entityType, StateTasks(states[..k + 1]), search, assess)
        == Rows(jobId, name, entityType, StateTasks(states[..k]), search, assess)
           + CodeRows(jobId, name, entityType, states[k], search, assess)
  {
    RowsAppend(jobId, name, entityType, StateTasks(states), [UsptoTask], search, assess);
    assert [UsptoTask][..0] == [];
    forall k | 0 <= k < |states|
      ensures Rows(jobId, name, entityType, StateTasks(states[..k + 1]), search, assess)
        == Rows(jobId, name, entityType, StateTasks(states[..k]), search, assess)
           + CodeRows(jobId, name, entityType, states[k], search, assess)
    {
      var single := CodeTasks(states[k]);
      assert states[..k + 1][..k] == states[..k];
      assert StateTasks(states[..k + 1]) == StateTasks(states[..k]) + single;
      RowsAppend(jobId, name, entityType, StateTasks(states[..k]), single, search, assess);
      if single != [] {
        assert single[..0] == [];
      }
    }
  }

  /** Whatever the states, exactly one USPTO row is written. */
  lemma OneUsptoRow(uspto: UsptoRow, states: seq<string>)
    ensures UsptoRows(uspto, Tasks(states)) == [uspto]
  {
    StateTasksMeaning(states);
    NoUsptoRows(uspto, StateTasks(states));
    assert Tasks(states)[..|Tasks(states)| - 1] == StateTasks(states);
  }

  lemma {:induction false} NoUsptoRows(uspto: UsptoRow, tasks: seq<Task>)
    requires forall t :: t in tasks ==> t.StateTask?
    ensures UsptoRows(uspto, tasks) == []
  {
    if tasks != [] {
      var init := tasks[..|tasks| - 1];
      assert tasks[|tasks| - 1] in tasks;
      forall t | t in init ensures t.StateTask? {
        assert t in tasks;
      }
      NoUsptoRows(uspto, init);
    }
  }
}
