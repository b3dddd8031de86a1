/**
 * The HTTP service (`backend/main.py`): request validation, the job a
 * search runs under, the result stream and the entity-detail cache.
 *
 * The database is the `Service` object: its job table, the set of jobs
 * still being searched, the detail cache, and the orchestrator's row
 * store. The job id (a UUID), the clock, whether `run_search` raised, the
 * database states the stream polls and the OpenCorporates answer are
 * inputs.
 */
module Service {
  import opened Prelude
  import opened Text
  import opened Json
  import opened Base
  import opened LlmClient
  import OpenCorporates
  import Orchestrator

  const SupportedStates: seq<string> := ["DE"]
  const EntityTypes: seq<string> := ["LLC", "Corporation", "LP", "LLP", "PC", "PLLC"]

  // ---------------------------------------------------------------------
  // Request validation
  // ---------------------------------------------------------------------

  /** `str(items)` for a list of strings holding no quote: `['a', 'b']`. */
  function ListRepr(items: seq<string>): string {
    "[" + ListItems(items) + "]"
  }

  function ListItems(items: seq<string>): string {
    if items == [] then ""
    else if |items| == 1 then "'" + items[0] + "'"
    else "'" + items[0] + "', " + ListItems(items[1..])
  }

  /** The body of `POST /api/search`; `states` is `None` when absent. */
  datatype Request = Request(name: string, entityType: string, states: Option<seq<string>>)

  /** What a valid request queues: the stripped name, the type, the states. */
  datatype Accepted = Accepted(name: string, entityType: string, states: seq<string>)

  /** `req.states or SUPPORTED_STATES` */
  function Requested(req: Request): seq<string> {
    if req.states.None? || req.states.value == [] then SupportedStates else req.states.value
  }

  /** `[s.upper() for s in states if s.upper() in SUPPORTED_STATES]` */
  function SupportedOnly(states: seq<string>): seq<string> {
    if states == [] then []
    else (if Upper(states[0]) in SupportedStates then [Upper(states[0])] else []) + SupportedOnly(states[1..])
  }

  /** The checks of `create_search`, each failing with its HTTP 400 detail. */
  function Validate(req: Request): (r: Result<Accepted, string>)
    ensures r.Ok? ==> r.value.name == Strip(req.name) && r.value.entityType == req.entityType
    ensures r.Err? ==> r.error in {NameMissing, TypeRejected, NoStatesLeft}
  {
    var name := Strip(req.name);
    if name == [] then Err(NameMissing)
    else if req.entityType !in EntityTypes then Err(TypeRejected)
    else
      var states := SupportedOnly(Requested(req));
      if states == [] then Err(NoStatesLeft) else Ok(Accepted(name, req.entityType, states))
  }

  const NameMissing := "Name cannot be empty"
  const TypeRejected := "Entity type must be one of: " + ListRepr(EntityTypes)
  const NoStatesLeft := "No supported states requested. Supported: " + ListRepr(SupportedStates)

  /** The supported-state filter keeps, in request order and upper-cased,
      exactly the requested codes whose upper-cased form is supported. */
  lemma {:induction false} SupportedOnlyMeaning(states: seq<string>)
    ensures var r := SupportedOnly(states);
      && |r| <= |states|
      && (forall s :: s in r ==> s in SupportedStates)
      && (forall s :: s in r <==> exists t :: t in states && Upper(t) == s && s in SupportedStates)
  {
    if states != [] {
      SupportedOnlyMeaning(states[1..]);
      var r := SupportedOnly(states);
      forall s
        ensures s in r <==> exists t :: t in states && Upper(t) == s && s in SupportedStates
      {
        if s in SupportedOnly(states[1..]) {
          var t :| t in states[1..] && Upper(t) == s && s in SupportedStates;
          assert t in states;
        }
        if exists t :: t in states && Upper(t) == s && s in SupportedStates {
          var t :| t in states && Upper(t) == s && s in SupportedStates;
          if t != states[0] {
            assert t in states[1..];
          }
        }
      }
    }
  }

  /** A request is accepted exactly when its stripped name is not empty,
      its type is one of the six, and some requested code (all supported
      codes when none is given) is supported; it then queues those codes. */
  lemma ValidateOutcome(req: Request)
    ensures Validate(req).Ok? <==>
      Strip(req.name) != [] && req.entityType in EntityTypes && SupportedOnly(Requested(req)) != []
    ensures Validate(req).Ok? ==> Validate(req).value.states == SupportedOnly(Requested(req))
    ensures Strip(req.name) == [] ==> Validate(req) == Err("Name cannot be empty")
    ensures Strip(req.name) != [] && req.entityType !in EntityTypes ==>
      Validate(req) == Err("Entity type must be one of: " + ListRepr(EntityTypes))
  {
  }

  /** Every supported code is already upper case, so it passes the filter. */
  lemma SupportedKept()
    ensures SupportedOnly(SupportedStates) == SupportedStates
  {
    var up := Upper(SupportedStates[0]);
    assert up == SupportedStates[0] by {
      assert |up| == 2 && up[0] == 'D' && up[1] == 'E';
    }
    assert SupportedStates[1..] == [];
  }

  /** Without a list of states, a valid name and type queue every supported
      state, that is Delaware alone. */
  lemma DefaultStates(req: Request)
    requires req.states.None? || req.states.value == []
    requires Strip(req.name) != [] && req.entityType in EntityTypes
    ensures Validate(req) == Ok(Accepted(Strip(req.name), req.entityType, SupportedStates))
  {
    SupportedKept();
  }

  // ---------------------------------------------------------------------
  // Jobs
  // ---------------------------------------------------------------------

  datatype JobStatus = Pending | Running | Complete | Error

  predicate Finished(status: JobStatus) {
    status == Complete || status == Error
  }

  /** A `Job` row; `completedAt` is `None` until the job ends. */
  datatype Job = Job(
    name: string,
    entityType: string,
    states: seq<string>,
    status: JobStatus,
    completedAt: Option<int>)

  /** The answer of `create_search`. */
  datatype SearchResponse = SearchResponse(jobId: string, statesQueued: seq<string>)

  /** The job record after `_run_and_signal`: `error` when the search raised,
      `complete` otherwise, and the completion time on both paths. */
  function Finish(job: Job, raised: bool, now: int): (j: Job)
    ensures Finished(j.status) && j.completedAt == Some(now)
    ensures j.status == Error <==> raised
    ensures j.name == job.name && j.entityType == job.entityType && j.states == job.states
  {
    job.(status := if raised then Error else Complete, completedAt := Some(now))
  }

  // ---------------------------------------------------------------------
  // The result stream
  // ---------------------------------------------------------------------

  /** A stored row with its primary key. */
  datatype Stored<T> = Stored(id: string, row: T)

  /** What one poll of `stream_results` reads: the job's status (`None` when
      there is no such job), its state rows and its USPTO row. */
  datatype Snapshot = Snapshot(
    job: Option<JobStatus>,
    stateRows: seq<Stored<Orchestrator.StateRow>>,
    uspto: Option<Stored<Orchestrator.UsptoRow>>)

  /** A server-sent event. Result events carry the key they were
      deduplicated under. */
  datatype Event =
    | StateResult(key: string, row: Orchestrator.StateRow)
    | UsptoResult(key: string, uspto: Orchestrator.UsptoRow)
    | Done(status: JobStatus)
    | Failure(message: string)

  const JobNotFound := "Job not found"

  /** `f"uspto_{uspto.id}"` */
  function UsptoKey(id: string): string {
    "uspto_" + id
  }

  function Ids(rows: seq<Stored<Orchestrator.StateRow>>): set<string> {
    set r | r in rows :: r.id
  }

  /** The state events of one poll: each row whose id is neither already
      sent nor taken by an earlier row of the poll, in order. */
  function RowEvents(rows: seq<Stored<Orchestrator.StateRow>>, sent: set<string>): seq<Event> {
    if rows == [] then []
    else
      var init := rows[..|rows| - 1];
      var last := rows[|rows| - 1];
      RowEvents(init, sent) + (if last.id in sent + Ids(init) then [] else [StateResult(last.id, last.row)])
  }

  /** The USPTO event of one poll, unless its key was already sent. */
  function UsptoEvents(uspto: Option<Stored<Orchestrator.UsptoRow>>, sent: set<string>): seq<Event> {
    if uspto.Some? && UsptoKey(uspto.value.id) !in sent then [UsptoResult(UsptoKey(uspto.value.id), uspto.value.row)]
    else []
  }

  /** The keys sent once a poll of an existing job is handled. */
  function SentAfter(poll: Snapshot, sent: set<string>): set<string> {
    sent + Ids(poll.stateRows) + (if poll.uspto.Some? then {UsptoKey(poll.uspto.value.id)} else {})
  }

  /** The events of one poll of an existing job. */
  function PollEvents(poll: Snapshot, sent: set<string>): seq<Event>
    requires poll.job.Some?
  {
    RowEvents(poll.stateRows, sent)
      + UsptoEvents(poll.uspto, sent + Ids(poll.stateRows))
      + (if Finished(poll.job.value) then [Done(poll.job.value)] else [])
  }

  /** The events of the stream over successive polls: it stops at a missing
      job or at the first poll that finds the job finished. */
  function StreamEvents(polls: seq<Snapshot>, sent: set<string>): seq<Event>
    decreases |polls|
  {
    if polls == [] then []
    else if polls[0].job.None? then [Failure(JobNotFound)]
    else if Finished(polls[0].job.value) then PollEvents(polls[0], sent)
    else PollEvents(polls[0], sent) + StreamEvents(polls[1..], SentAfter(polls[0], sent))
  }

  /** `stream_results`' generator over the polls it makes. */
  method Stream(polls: seq<Snapshot>) returns (events: seq<Event>)
    ensures events == StreamEvents(polls, {})
  {
    var sent: set<string> := {};
    events := [];
    var i := 0;
    assert polls[i..] == polls;
    while i < |polls|
      invariant 0 <= i <= |polls|
      invariant events + StreamEvents(polls[i..], sent) == StreamEvents(polls, {})
    {
      var poll := polls[i];
      assert polls[i..][1..] == polls[i + 1..];
      if poll.job.None? {
        return events + [Failure(JobNotFound)];
      }
      var pollEvents, sentAfter := SendResults(poll, sent);
      if Finished(poll.job.value) {
        assert events + (pollEvents + [Done(poll.job.value)]) == StreamEvents(polls, {});
        return events + pollEvents + [Done(poll.job.value)];
      }
      assert (events + pollEvents) + StreamEvents(polls[i + 1..], sentAfter) == StreamEvents(polls, {});
      events := events + pollEvents;
      sent := sentAfter;
      i := i + 1;
    }
  }

  /** The result events of one poll of an existing job, and the sent set
      after it. */
  method SendResults(poll: Snapshot, sent: set<string>) returns (events: seq<Event>, sentAfter: set<string>)
    requires poll.job.Some?
    ensures events == RowEvents(poll.stateRows, sent) + UsptoEvents(poll.uspto, sent + Ids(poll.stateRows))
    ensures sentAfter == SentAfter(poll, sent)
  {
    events, sentAfter := SendRows(poll.stateRows, sent);
    if poll.uspto.Some? && UsptoKey(poll.uspto.value.id) !in sentAfter {
      sentAfter := sentAfter + {UsptoKey(poll.uspto.value.id)};
      events := events + [UsptoResult(UsptoKey(poll.uspto.value.id), poll.uspto.value.row)];
    } else if poll.uspto.Some? {
      assert sentAfter == SentAfter(poll, sent);
    }
  }

  /** The `for sr in state_results` loop of one poll: the events it yields
      and the sent set after it. */
  method SendRows(rows: seq<Stored<Orchestrator.StateRow>>, sent: set<string>)
    returns (events: seq<Event>, sentAfter: set<string>)
    ensures events == RowEvents(rows, sent)
    ensures sentAfter == sent + Ids(rows)
  {
    events := [];
    sentAfter := sent;
    var j := 0;
    while j < |rows|
      invariant 0 <= j <= |rows|
      invariant sentAfter == sent + Ids(rows[..j])
      invariant events == RowEvents(rows[..j], sent)
    {
      RowEventsStep(rows, j, sent);
      if rows[j].id !in sentAfter {
        sentAfter := sentAfter + {rows[j].id};
        events := events + [StateResult(rows[j].id, rows[j].row)];
      }
      j := j + 1;
    }
    assert rows[..j] == rows;
  }

  /** One more row of the poll: its event, unless its id is already taken,
      and its id joins the ids. */
  lemma RowEventsStep(rows: seq<Stored<Orchestrator.StateRow>>, j: nat, sent: set<string>)
    requires j < |rows|
    ensures Ids(rows[..j + 1]) == Ids(rows[..j]) + {rows[j].id}
    ensures RowEvents(rows[..j + 1], sent) == RowEvents(rows[..j], sent)
      + (if rows[j].id in sent + Ids(rows[..j]) then [] else [StateResult(rows[j].id, rows[j].row)])
  {
    assert rows[..j + 1][..j] == rows[..j];
    assert rows[..j + 1] == rows[..j] + [rows[j]];
  }

  /** The keys of the result events, in order. */
  function Keys(events: seq<Event>): seq<string> {
    if events == [] then []
    else (if events[0].StateResult? || events[0].UsptoResult? then [events[0].key] else []) + Keys(events[1..])
  }

  predicate Distinct(s: seq<string>) {
    forall i, j :: 0 <= i < j < |s| ==> s[i] != s[j]
  }

  lemma {:induction false} KeysAppend(a: seq<Event>, b: seq<Event>)
    ensures Keys(a + b) == Keys(a) + Keys(b)
  {
    if a == [] {
      assert a + b == b;
    } else {
      assert (a + b)[1..] == a[1..] + b;
      KeysAppend(a[1..], b);
    }
  }

  /** Two distinct lists with no common element join into a distinct one. */
  lemma DistinctAppend(a: seq<string>, b: seq<string>)
    requires Distinct(a) && Distinct(b)
    requires forall k :: k in a ==> k !in b
    ensures Distinct(a + b)
  {
    forall i, j | 0 <= i < j < |a + b|
      ensures (a + b)[i] != (a + b)[j]
    {
      if i < |a| && j >= |a| {
        assert (a + b)[i] in a && (a + b)[j] == b[j - |a|];
      }
    }
  }

  /** A poll's state events are keyed by the new ids of its rows, each once. */
  lemma {:induction false} RowEventKeys(rows: seq<Stored<Orchestrator.StateRow>>, sent: set<string>)
    ensures Distinct(Keys(RowEvents(rows, sent)))
    ensures forall k :: k in Keys(RowEvents(rows, sent)) <==> k in Ids(rows) && k !in sent
  {
    if rows != [] {
      var init := rows[..|rows| - 1];
      var last := rows[|rows| - 1];
      RowEventKeys(init, sent);
      var tail := if last.id in sent + Ids(init) then [] else [StateResult(last.id, last.row)];
      KeysAppend(RowEvents(init, sent), tail);
      assert Keys(tail) == if tail == [] then [] else [last.id];
      DistinctAppend(Keys(RowEvents(init, sent)), Keys(tail));
      assert rows == init + [last];
      assert Ids(rows) == Ids(init) + {last.id};
    }
  }

  /** The result events of one poll are keyed by exactly the keys it adds to
      the sent set, each once. */
  lemma PollKeys(poll: Snapshot, sent: set<string>)
    requires poll.job.Some?
    ensures Distinct(Keys(PollEvents(poll, sent)))
    ensures forall k :: k in Keys(PollEvents(poll, sent)) <==> k in SentAfter(poll, sent) && k !in sent
  {
    var rowEvents := RowEvents(poll.stateRows, sent);
    var usptoEvents := UsptoEvents(poll.uspto, sent + Ids(poll.stateRows));
    var done := if Finished(poll.job.value) then [Done(poll.job.value)] else [];
    RowEventKeys(poll.stateRows, sent);
    KeysAppend(rowEvents, usptoEvents);
    KeysAppend(rowEvents + usptoEvents, done);
    assert Keys(done) == [];
    assert Keys(usptoEvents) == if usptoEvents == [] then [] else [UsptoKey(poll.uspto.value.id)];
    DistinctAppend(Keys(rowEvents), Keys(usptoEvents));
    assert Keys(rowEvents + usptoEvents) + Keys(done) == Keys(rowEvents + usptoEvents);
  }

  /** Each state row and the USPTO row are sent at most once: the keys of the
      result events are distinct and none was sent before. */
  lemma {:induction false} SentAtMostOnce(polls: seq<Snapshot>, sent: set<string>)
    ensures Distinct(Keys(StreamEvents(polls, sent)))
    ensures forall k :: k in Keys(StreamEvents(polls, sent)) ==> k !in sent
    decreases |polls|
  {
    if polls != [] && polls[0].job.Some? {
      PollKeys(polls[0], sent);
      if !Finished(polls[0].job.value) {
        var first := PollEvents(polls[0], sent);
        var after := SentAfter(polls[0], sent);
        var rest := StreamEvents(polls[1..], after);
        SentAtMostOnce(polls[1..], after);
        KeysAppend(first, rest);
        DistinctAppend(Keys(first), Keys(rest));
      }
    }
  }

  /** Only state and USPTO results. */
  predicate Results(events: seq<Event>) {
    forall k :: 0 <= k < |events| ==> events[k].StateResult? || events[k].UsptoResult?
  }

  lemma {:induction false} RowEventsAreResults(rows: seq<Stored<Orchestrator.StateRow>>, sent: set<string>)
    ensures Results(RowEvents(rows, sent))
  {
    if rows != [] {
      var init := rows[..|rows| - 1];
      var last := rows[|rows| - 1];
      RowEventsAreResults(init, sent);
      var tail := if last.id in sent + Ids(init) then [] else [StateResult(last.id, last.row)];
      assert RowEvents(rows, sent) == RowEvents(init, sent) + tail;
    }
  }

  /** A `done` or error event appears only as the last event. */
  predicate ClosesLast(events: seq<Event>) {
    forall k :: 0 <= k < |events| && (events[k].Done? || events[k].Failure?) ==> k == |events| - 1
  }

  /** A stream stops after its one closing event: a `done` or the error
      event appears only last. */
  lemma {:induction false} ClosingEventLast(polls: seq<Snapshot>, sent: set<string>)
    ensures ClosesLast(StreamEvents(polls, sent))
    decreases |polls|
  {
    if polls != [] && polls[0].job.Some? {
      var rowEvents := RowEvents(polls[0].stateRows, sent);
      var usptoEvents := UsptoEvents(polls[0].uspto, sent + Ids(polls[0].stateRows));
      var results := rowEvents + usptoEvents;
      RowEventsAreResults(polls[0].stateRows, sent);
      assert Results(results) by {
        forall k | 0 <= k < |results|
          ensures results[k].StateResult? || results[k].UsptoResult?
        {
          if k >= |rowEvents| {
            assert results[k] == usptoEvents[k - |rowEvents|];
          }
        }
      }
      if Finished(polls[0].job.value) {
        var events := results + [Done(polls[0].job.value)];
        assert StreamEvents(polls, sent) == events;
        assert forall k :: 0 <= k < |results| ==> events[k] == results[k];
      } else {
        var rest := StreamEvents(polls[1..], SentAfter(polls[0], sent));
        ClosingEventLast(polls[1..], SentAfter(polls[0], sent));
        var events := results + rest;
        assert StreamEvents(polls, sent) == events;
        forall k | 0 <= k < |events| && (events[k].Done? || events[k].Failure?)
          ensures k == |events| - 1
        {
          if k >= |results| {
            assert events[k] == rest[k - |results|];
            assert ClosesLast(rest);
          }
        }
      }
    }
  }

  /** Once the job is found finished, after polls that found it still
      running, the stream's last event is `done` with that status, and it
      has sent every state row of that poll. */
  lemma {:induction false} EndsWithDone(polls: seq<Snapshot>, sent: set<string>, n: nat)
    requires n < |polls| && polls[n].job.Some? && Finished(polls[n].job.value)
    requires forall m :: 0 <= m < n ==> polls[m].job.Some? && !Finished(polls[m].job.value)
    ensures var events := StreamEvents(polls, sent);
      events != [] && events[|events| - 1] == Done(polls[n].job.value)
    ensures forall id :: id in Ids(polls[n].stateRows) && id !in sent ==> id in Keys(StreamEvents(polls, sent))
    decreases n
  {
    PollKeys(polls[0], sent);
    if n > 0 {
      var first := PollEvents(polls[0], sent);
      var after := SentAfter(polls[0], sent);
      var rest := StreamEvents(polls[1..], after);
      assert StreamEvents(polls, sent) == first + rest;
      forall m | 0 <= m < n - 1
        ensures polls[1..][m].job.Some? && !Finished(polls[1..][m].job.value)
      {
        assert polls[1..][m] == polls[m + 1];
      }
      assert polls[1..][n - 1] == polls[n];
      EndsWithDone(polls[1..], after, n - 1);
      assert (first + rest)[|first + rest| - 1] == rest[|rest| - 1];
      KeysAppend(first, rest);
      forall id | id in Ids(polls[n].stateRows) && id !in sent
        ensures id in Keys(first + rest)
      {
        if id in after {
          assert id in Keys(first);
        } else {
          assert id in Keys(rest);
        }
      }
    } else {
      assert forall id :: id in Ids(polls[0].stateRows) && id !in sent ==> id in SentAfter(polls[0], sent);
    }
  }

  // ---------------------------------------------------------------------
  // The entity-detail cache
  // ---------------------------------------------------------------------

  /** An `EntityDetailCache` row, keyed by its `fileNumber`. */
  datatype CacheRow = CacheRow(
    fileNumber: string,
    stateCode: string,
    entityName: Value,
    entityKind: Value,
    formationDate: Value,
    registeredAgent: Value)

  /** The answer of `get_entity_detail`: from the cache (`cached: true`, no
      error key), or fetched (`cached: false`). */
  datatype DetailReply =
    | Cached(fileNumber: string, entityName: Value, entityKind: Value, formationDate: Value,
             registeredAgent: Value, url: Value)
    | Fetched(fileNumber: string, entityName: Value, entityKind: Value, formationDate: Value,
              registeredAgent: Value, url: Value, error: Option<string>)

  /** `f"{state_code.upper()}:{file_number}"` */
  function CacheKey(stateCode: string, fileNumber: string): string {
    Upper(stateCode) + ":" + fileNumber
  }

  /** The reply of `get_entity_detail` and the cache after it, OpenCorporates
      answering `response` if it is asked. */
  function EntityDetail(cache: map<string, CacheRow>, stateCode: string, fileNumber: string,
                        response: OpenCorporates.Response): (DetailReply, map<string, CacheRow>)
  {
    var code := Upper(stateCode);
    var key := CacheKey(stateCode, fileNumber);
    if key in cache then
      var row := cache[key];
      (Cached(row.fileNumber, row.entityName, row.entityKind, row.formationDate, row.registeredAgent,
              Str(OpenCorporates.PublicUrl(code, fileNumber))),
       cache)
    else
      var d := OpenCorporates.FetchEntityDetail(code, fileNumber, response);
      (Fetched(fileNumber, d.entityName, d.entityKind, d.formationDate, d.registeredAgent, d.url, d.error),
       if d.error.None? then cache[key := CacheRow(key, code, d.entityName, d.entityKind, d.formationDate, d.registeredAgent)]
       else cache)
  }

  /** A cached entry is answered without asking OpenCorporates: the answer
      does not depend on it, and the cache is left as it is. */
  lemma CacheHit(cache: map<string, CacheRow>, stateCode: string, fileNumber: string,
                 r1: OpenCorporates.Response, r2: OpenCorporates.Response)
    requires CacheKey(stateCode, fileNumber) in cache
    ensures EntityDetail(cache, stateCode, fileNumber, r1) == EntityDetail(cache, stateCode, fileNumber, r2)
    ensures EntityDetail(cache, stateCode, fileNumber, r1).0.Cached?
    ensures EntityDetail(cache, stateCode, fileNumber, r1).1 == cache
  {
  }

  /** Only a lookup without error adds an entry, and only under its own key;
      a failed lookup leaves the cache as it was. */
  lemma StoresOnlySuccess(cache: map<string, CacheRow>, stateCode: string, fileNumber: string,
                          response: OpenCorporates.Response)
    ensures var (reply, after) := EntityDetail(cache, stateCode, fileNumber, response);
      && after.Keys == cache.Keys + (if reply.Fetched? && reply.error.None? then {CacheKey(stateCode, fileNumber)} else {})
      && (forall k :: k in cache ==> k in after && after[k] == cache[k])
      && (reply.Fetched? <==> CacheKey(stateCode, fileNumber) !in cache)
  {
  }

  /** After a successful lookup the same entity is answered from the cache:
      the stored fields come back, under the composite key as file number,
      with the public page rebuilt from the code and number. */
  lemma SecondLookupHits(cache: map<string, CacheRow>, stateCode: string, fileNumber: string,
                         first: OpenCorporates.Response, second: OpenCorporates.Response)
    requires var reply := EntityDetail(cache, stateCode, fileNumber, first).0;
      reply.Fetched? && reply.error.None?
    ensures var (reply, after) := EntityDetail(cache, stateCode, fileNumber, first);
      EntityDetail(after, stateCode, fileNumber, second)
        == (Cached(CacheKey(stateCode, fileNumber), reply.entityName, reply.entityKind, reply.formationDate,
                   reply.registeredAgent, Str(OpenCorporates.PublicUrl(Upper(stateCode), fileNumber))),
            after)
  {
  }

  lemma {:induction false} UpperTwice(s: string)
    ensures Upper(Upper(s)) == Upper(s)
  {
    var u := Upper(s);
    assert forall i :: 0 <= i < |u| ==> Upper(u)[i] == UpperChar(u[i]) == u[i];
  }

  /** The state code is case-insensitive: any spelling of it finds and fills
      the same entry. */
  lemma CodeCaseIgnored(cache: map<string, CacheRow>, stateCode: string, fileNumber: string,
                        response: OpenCorporates.Response)
    ensures EntityDetail(cache, stateCode, fileNumber, response)
      == EntityDetail(cache, Upper(stateCode), fileNumber, response)
  {
    UpperTwice(stateCode);
  }

  // ---------------------------------------------------------------------
  // The service state
  // ---------------------------------------------------------------------

  class Service {
    /** The `Job` table. */
    var jobs: map<string, Job>
    /** `_active_jobs`: the jobs whose search has not yet signalled done. */
    var activeJobs: set<string>
    /** The `EntityDetailCache` table. */
    var cache: map<string, CacheRow>
    /** Every status committed, in order, with its job. */
    ghost var statusLog: seq<(string, JobStatus)>
    /** The state and USPTO result tables. */
    const store: Orchestrator.Store

    constructor (store: Orchestrator.Store)
      ensures jobs == map[] && activeJobs == {} && cache == map[] && statusLog == []
      ensures this.store == store
    {
      jobs := map[];
      activeJobs := {};
      cache := map[];
      statusLog := [];
      this.store := store;
    }

    /** `create_search`: a valid request creates a pending job under the new
        id and registers it as active; an invalid one changes nothing. */
    method CreateSearch(req: Request, jobId: string) returns (r: Result<SearchResponse, string>)
      requires jobId !in jobs
      modifies this
      ensures Validate(req).Err? ==>
        && r == Err(Validate(req).error)
        && jobs == old(jobs) && activeJobs == old(activeJobs) && statusLog == old(statusLog)
      ensures Validate(req).Ok? ==>
        var a := Validate(req).value;
        && r == Ok(SearchResponse(jobId, a.states))
        && jobs == old(jobs)[jobId := Job(a.name, a.entityType, a.states, Pending, None)]
        && activeJobs == old(activeJobs) + {jobId}
        && statusLog == old(statusLog) + [(jobId, Pending)]
      ensures cache == old(cache)
    {
      var v := Validate(req);
      if v.Err? {
        return Err(v.error);
      }
      var a := v.value;
      jobs := jobs[jobId := Job(a.name, a.entityType, a.states, Pending, None)];
      statusLog := statusLog + [(jobId, Pending)];
      activeJobs := activeJobs + {jobId};
      r := Ok(SearchResponse(jobId, a.states));
    }

    /** `_run_and_signal`: the job runs, then ends `error` when the search
        raised and `complete` otherwise; either way it stops being active. */
    method RunAndSignal(jobId: string, name: string, entityType: string, states: seq<string>,
                        raised: bool, now: int,
                        search: string -> Result<AdapterResult, PyError>,
                        assess: SimilarityQuery -> Reply<Assessment>)
      requires jobId in jobs
      modifies this, store
      ensures jobs == old(jobs)[jobId := Finish(old(jobs)[jobId], raised, now)]
      ensures activeJobs == old(activeJobs) - {jobId}
      ensures statusLog == old(statusLog) + [(jobId, Running), (jobId, Finish(old(jobs)[jobId], raised, now).status)]
      ensures cache == old(cache)
      ensures raised ==> store.stateRows == old(store.stateRows) && store.usptoRows == old(store.usptoRows)
      ensures !raised ==>
        && store.stateRows == old(store.stateRows)
             + Orchestrator.Rows(jobId, name, entityType, Orchestrator.Tasks(states), search, assess)
        && store.usptoRows == old(store.usptoRows) + [Orchestrator.UsptoRowFor(jobId, name)]
    {
      var job := jobs[jobId];
      jobs := jobs[jobId := job.(status := Running)];
      statusLog := statusLog + [(jobId, Running)];
      if !raised {
        Orchestrator.RunSearch(store, jobId, name, entityType, states, search, assess);
      }
      // The `finally` clause, then the final status.
      activeJobs := activeJobs - {jobId};
      var finished := Finish(job, raised, now);
      jobs := jobs[jobId := finished];
      statusLog := statusLog + [(jobId, finished.status)];
    }

    /** `get_entity_detail`, OpenCorporates answering `response` if asked. */
    method GetEntityDetail(stateCode: string, fileNumber: string, response: OpenCorporates.Response)
      returns (reply: DetailReply)
      modifies this
      ensures (reply, cache) == EntityDetail(old(cache), stateCode, fileNumber, response)
      ensures jobs == old(jobs) && activeJobs == old(activeJobs) && statusLog == old(statusLog)
    {
      var code := Upper(stateCode);
      var key := code + ":" + fileNumber;
      if key in cache {
        var row := cache[key];
        return Cached(row.fileNumber, row.entityName, row.entityKind, row.formationDate, row.registeredAgent,
                      Str(OpenCorporates.PublicUrl(code, fileNumber)));
      }
      var d := OpenCorporates.FetchEntityDetail(code, fileNumber, response);
      if d.error.None? {
        cache := cache[key := CacheRow(key, code, d.entityName, d.entityKind, d.formationDate, d.registeredAgent)];
      }
      reply := Fetched(fileNumber, d.entityName, d.entityKind, d.formationDate, d.registeredAgent, d.url, d.error);
    }
  }
}
