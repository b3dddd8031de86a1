# Clear Path Entity: name-availability backend, modelled in Dafny

The service answers one question: can a business name be registered as a
given entity type in a set of US states? A client posts a search request.
The service validates it and creates a job. In the background it runs one
adapter per requested state plus a USPTO placeholder, and persists a row per
state. It streams the rows back as server-sent events and closes with a
`done` event. A separate endpoint looks up one entity's detail on
OpenCorporates, behind a cache.

Each state adapter turns what the state registry shows into one result:
- a verdict: `available`, `taken`, `similar`, `unknown` or `error`;
- a confidence computed from the extraction tier and the clarity of the answer;
- the matching entities, the similar names, flags and a note.

Before anything is persisted, the deterministic naming rules of the state
add flags. A `similar` verdict also asks a language model to assess how
confusable the name is.

The model is split into modules along the program's files:

| module | file | form |
|---|---|---|
| `Prelude`, `Text`, `Json` | (shared) | Option/Result, Python string operations (`strip`, `upper`, `lower`, `in`), Python values |
| `Base` | `backend/adapters/base.py` | the result record and `_build_confidence` |
| `Matching` | the `_classify` methods of the adapters | exact / non-exact partition of matches, the taken note |
| `LlmClient` | `backend/llm/client.py` | the model's replies as inputs; the degraded answers |
| `Scrape` | the Playwright helpers of the DE, FL and NJ adapters | table rows, the fallback query, the form-filling loops |
| `California`, `NewYork`, `Delaware`, `Florida`, `NewJersey`, `Washington` | `backend/adapters/states/*.py` | one module per adapter |
| `Rules`, `RulesExamples` | `backend/rules/engine.py` | the rule table and `apply_rules` |
| `OpenCorporates` | `backend/adapters/detail/opencorporates.py` | `fetch_entity_detail` |
| `Orchestrator` | `backend/agents/orchestrator.py`, `backend/agents/uspto.py` | the fan-out and the persisted rows (a `Store` class) |
| `Service` | `backend/main.py` | validation, the job lifecycle, the event stream, the detail cache (a `Service` class) |

Things the code does outside the program are parameters of the model:
- the browser session, what each selector wait and click did, and the rendered page;
- HTTP responses;
- the language model's replies;
- the clock and the job identifier.

Confidences are integers in hundredths: 0.96 is `96`, and the error
confidence 0.1 is `10`. Python's `round` to two decimals is written out on
the exact weighted sum.

## Model

| member | source | states |
|---|---|---|
| Base.NewResult | backend/adapters/base.py:15-33 | a fresh result carries the given code, name, verdict and confidence, and every other field at its declared default: no matches, no similar names, no flags, empty notes, `primary`, `web_form` |
| Base.ErrorResult | backend/adapters/states/ca.py:58-65 | the error result every adapter builds: availability `error`, confidence 0.10, the given note, defaults elsewhere |
| Base.FailedResult | backend/adapters/states/de.py:97-106 | the error result for a page element that was not found: as the error result, with extraction tier `failed` |
| Base.ExtractionWeight | backend/adapters/base.py:50-53 | the extraction weight is one of 1.0, 0.7, 0.4, 0.1; an unknown method weighs 0.4 |
| Base.ClarityWeight | backend/adapters/base.py:51-54 | the clarity weight is one of 1.0, 0.7, 0.4; an unknown clarity weighs 0.4 |
| Base.RawConfidence | backend/adapters/base.py:55-58 | the unrounded weighted sum lies in [0.4525, 0.9625] for every input, so within the documented 0.0–1.0 range |
| Base.BuildConfidence | backend/adapters/base.py:45-58 | the confidence is the hundredth nearest the weighted sum, between 0.45 and 0.96 |
| Base.ConfidenceTable | backend/adapters/base.py:50-58 | the twelve values of the formula, one per known tier and clarity |
| Base.UnknownTierDefault | backend/adapters/base.py:53 | an unknown tier scores as `llm` for every clarity; it is not an error |
| Base.UnknownClarityDefault | backend/adapters/base.py:54 | an unknown clarity scores as `ambiguous` for every tier; it is not an error |
| Base.ConfidenceMonotone | backend/adapters/base.py:50-58 | with the clarity fixed the score falls strictly from primary to fallback to llm to failed, with the tier fixed from clear to inferred to ambiguous; after rounding the order still holds, though not strictly |
| Matching.ExactMembers | backend/adapters/states/nj.py:216-218 | a match is exact exactly when it is in the list and its trimmed, upper-cased name is the searched key |
| Matching.NonExactMembers | backend/adapters/states/nj.py:216-218 | a match is non-exact exactly when it is in the list and its key differs |
| Matching.ExactNonEmpty | backend/adapters/states/nj.py:220 | the exact list is non-empty exactly when some match has the searched key |
| Matching.ExactPartition | backend/adapters/states/ca.py:104-105 | `m not in exact` selects exactly the non-exact matches, and exact and non-exact together are the input as a multiset |
| Matching.NoExactKeepsAll | backend/adapters/states/ca.py:126-132 | without an exact match every match is non-exact, in the original order |
| Matching.ExactNoteShape | backend/adapters/states/ca.py:108-114 | the taken note names the first exact match and ends with the inactive advisory exactly when every exact match's lower-cased status is inactive |
| California.Get | backend/adapters/states/ca.py:142-148 | the `_get` loop returns the same text as its specification `Field` |
| California.FieldFirstUsable | backend/adapters/states/ca.py:144-147 | the first key whose value is present and not blank gives its stripped text |
| California.FieldDefault | backend/adapters/states/ca.py:148 | with no usable key the default comes back |
| California.FirstTruthy | backend/adapters/states/ca.py:160-166 | the wrapper lookup yields a truthy value or the empty list |
| California.ParseResults | backend/adapters/states/ca.py:151-168 | the parser returns what its specification `ParsedResults` does, including the exception its loop raises |
| California.ParseRows | backend/adapters/states/ca.py:170-203 | the row loop returns the matches of its specification `RowMatches` |
| California.ParseRow | backend/adapters/states/ca.py:172-190 | reading one row through `_get` gives the match its specification `RowMatch` describes |
| California.RowMatch | backend/adapters/states/ca.py:172-190 | a kept row has a non-empty name and a non-empty status (`unknown` by default) |
| California.FieldNonEmpty | backend/adapters/states/ca.py:184-191 | a field read with a non-empty default (the status's `unknown`) is never empty |
| California.StringAndKeyRowsYieldNothing | backend/adapters/states/ca.py:170-172 | when the wrapper field is a string or a dict, iterating it yields only strings and no row matches |
| California.RowMatches | backend/adapters/states/ca.py:170-176 | the output is never longer than the input |
| California.RowMatchesAppend | backend/adapters/states/ca.py:171-202 | rows are handled one by one in order: the matches of two lists are the matches of each, concatenated |
| California.RowMatchesFromDicts | backend/adapters/states/ca.py:172-176 | every match comes from a dict row of the input with a non-empty name |
| California.ParseOutcome | backend/adapters/states/ca.py:157-168 | a list is parsed as rows, a scalar gives nothing, and parsing raises exactly when the first truthy wrapper field is a number or boolean |
| California.Classify | backend/adapters/states/ca.py:92-135 | every classification is a California `api` result at tier `primary` with no flags |
| California.ClassifyVerdict | backend/adapters/states/ca.py:93-135 | `available` exactly when nothing came back, `taken` exactly when some name is exact, `similar` otherwise; 0.96 for a definite answer, 0.89 for a similar one |
| California.ClassifyTaken | backend/adapters/states/ca.py:103-124 | a taken result lists the exact matches and every other name, each match once; its note ends with the advisory exactly when all exact matches are inactive |
| California.ClassifySimilar | backend/adapters/states/ca.py:126-135 | a similar result lists every match, in order |
| California.Search | backend/adapters/states/ca.py:36-90 | a search that returns is a California result |
| California.SearchOutcome | backend/adapters/states/ca.py:36-90 | an error result (confidence 0.10) exactly when the key is missing or the request failed; the search raises only when a parsed body cannot be iterated; otherwise it is the classification |
| California.FailureNotes | backend/adapters/states/ca.py:37-88 | missing key, timeout, 401, 429, other statuses and other exceptions each give their own note |
| NewYork.Esc | backend/adapters/states/ny.py:118-120 | escaping never shortens the text |
| NewYork.EscRoundTrip | backend/adapters/states/ny.py:118-120 | collapsing `''` back to `'` recovers the input; the length grows by the number of quotes; no lone quote is left |
| NewYork.Requests | backend/adapters/states/ny.py:32-50 | three queries: the bare upper-cased name and the name with the upper-cased type, 10 rows each, then the name as a prefix, 100 rows ordered by name |
| NewYork.ExactLiterals | backend/adapters/states/ny.py:38-42 | the literal of each exact clause reads back as the name searched for |
| NewYork.ToMatch | backend/adapters/states/ny.py:123-131 | status is always `active`; the filing date keeps at most its first ten characters, all ten when it has them, and is empty when absent |
| NewYork.ToMatches | backend/adapters/states/ny.py:74-76 | one match per row, in order |
| NewYork.UpperNames | backend/adapters/states/ny.py:77 | the set holds exactly the upper-cased exact names |
| NewYork.SimilarOnlyMembers | backend/adapters/states/ny.py:78 | a prefix result is kept exactly when its upper-cased name is not an exact name |
| NewYork.Classify | backend/adapters/states/ny.py:73-111 | every classification is a New York `api` result at tier `primary` |
| NewYork.ClassifyVerdict | backend/adapters/states/ny.py:80-111 | `taken` exactly when the exact queries returned a row, whatever the prefix query returned; `similar` when only the prefix query did; `available` when neither did |
| NewYork.ClassifyTaken | backend/adapters/states/ny.py:77-90 | a taken result's raw matches are the exact rows and it lists a prefix result exactly when its upper-cased name differs from every exact one |
| NewYork.TakenExcludesExactNames | backend/adapters/states/ny.py:77-87 | no listed similar name equals an exact match's name once upper-cased |
| NewYork.ClassifySimilar | backend/adapters/states/ny.py:92-102 | a similar result lists every prefix result, in order |
| NewYork.FetchAll | backend/adapters/states/ny.py:35-52 | the fetch succeeds exactly when all three requests answered; the exact rows are the bare-name rows followed by the suffixed-name rows |
| NewYork.Search | backend/adapters/states/ny.py:31-71 | a search is a New York result |
| NewYork.SearchOutcome | backend/adapters/states/ny.py:31-71 | an error result (0.10) exactly when a request failed; otherwise the classification of the exact rows against the prefix rows |
| LlmClient.InterpretStatePage | backend/llm/client.py:19-61 | the asynchronous page interpretation returns the model's JSON object, or the fixed degraded answer when the text does not parse; a failed call raises |
| LlmClient.InterpretStatePageSync | backend/llm/client.py:64-102 | the synchronous variant never raises: every failure, the call's included, gives the degraded answer |
| LlmClient.DegradedAssessment | backend/llm/client.py:144-150 | an unparseable similarity answer is risk `unknown` and lists the similar names it was given as conflicting |
| LlmClient.AnalyzeSimilarity | backend/llm/client.py:105-150 | the similarity analysis returns the decoded object, the degraded assessment for unparseable text, and raises when the call fails |
| Scrape.FallbackQuery | backend/adapters/states/fl.py:264-272 | the model is sent a prefix of the page text of at most 3000 characters, the whole text when it is shorter, with the state, name and type unchanged |
| Scrape.FallbackResult | backend/adapters/states/fl.py:273-281 | the fallback result is at tier `llm`: availability, clarity and similar names come from the interpretation or default to `unknown`, `ambiguous`, none; the confidence is one of the `llm` tier's, between 0.57 and 0.72 |
| Scrape.DegradedFallback | backend/llm/client.py:55-61 | an unparseable interpretation gives `unknown` at 0.57 with no similar names |
| Scrape.FirstInput | backend/adapters/states/fl.py:97-109 | a found input is the index of a selector that appeared; an exception other than a wait timeout is one of the probes' |
| Scrape.FindInput | backend/adapters/states/fl.py:97-109 | the selector loop returns what `FirstInput` specifies |
| Scrape.FirstInputAt | backend/adapters/states/fl.py:98-109 | after the timed-out waits the next probe decides: it appeared, it raised, or there was none left |
| Scrape.FirstInputMeaning | backend/adapters/states/fl.py:97-111 | no input is found exactly when every wait timed out; a found input is preceded only by timed-out waits |
| Scrape.Submit | backend/adapters/states/fl.py:124-136 | the form is submitted exactly when some click succeeded |
| Delaware.RowMatch | backend/adapters/states/de.py:151-168 | a kept row has a non-empty name, status `unknown` and no entity type |
| Delaware.TableMatches | backend/adapters/states/de.py:141-171 | never more matches than rows |
| Delaware.ParseTableRows | backend/adapters/states/de.py:141-171 | the row walk returns what its specification `TableMatches` does |
| Delaware.RowDecision | backend/adapters/states/de.py:151-168 | short rows, the header row and rows without a name are skipped, and every other row is kept |
| Delaware.PartialTable | backend/adapters/states/de.py:145-171 | an exception at a row returns the matches of the rows before it |
| Delaware.TableMatchesFromRows | backend/adapters/states/de.py:151-168 | every match comes from a readable row of the table |
| Delaware.UpperThenStripIsNameKey | backend/adapters/states/de.py:174-176 | `upper().strip()` gives the same key as `strip().upper()` |
| Delaware.Classify | backend/adapters/states/de.py:173-197 | every classification is a Delaware `web_form` result at tier `primary` |
| Delaware.ClassifyVerdict | backend/adapters/states/de.py:173-197 | `taken` exactly when some match has the searched key, with the exact and the other matches; `similar` with every name otherwise; 0.96 and 0.89 |
| Delaware.ParseResults | backend/adapters/states/de.py:118-139 | the parsed result is a Delaware result |
| Delaware.Cascade | backend/adapters/states/de.py:118-139 | a missing table or a no-results phrase is `available` at 0.96; otherwise parsed matches are classified, and without any the model is asked with at most 3000 characters |
| Delaware.DegradedFallbackPath | backend/adapters/states/de.py:136-137 | an unparseable or failed model reply on the fallback path reports `unknown` at 0.57 |
| Delaware.Search | backend/adapters/states/de.py:28-51 | a search is a Delaware result |
| Delaware.SearchFailures | backend/adapters/states/de.py:28-106 | a timeout, an escaped exception or a missing name input gives `error` at 0.10, with tier `failed` exactly for the missing input and the timeout note for a timeout |
| Florida.RowMatch | backend/adapters/states/fl.py:202-222 | a row yields a match exactly when it has two cells and a non-blank first cell; the match has no type and no registration date |
| Florida.RowsMatches | backend/adapters/states/fl.py:202-222 | never more matches than rows |
| Florida.ReadRows | backend/adapters/states/fl.py:202-222 | the row loop appends the rows' matches and reports whether a row read raised |
| Florida.ReadRow | backend/adapters/states/fl.py:203-222 | the body of the row loop returns what `RowMatch` specifies |
| Florida.ParseTable | backend/adapters/states/fl.py:186-229 | the selector loop returns what its specification `Collect` does |
| Florida.CollectExtends | backend/adapters/states/fl.py:192-227 | matches found at an earlier selector are never dropped |
| Florida.CollectEmpty | backend/adapters/states/fl.py:186-229 | nothing is found exactly when no selector's table yields a match |
| Florida.FirstSelectorWins | backend/adapters/states/fl.py:224-225 | a table read without exception and yielding matches is the answer |
| Florida.ExceptionSkipsSelector | backend/adapters/states/fl.py:226-227 | an exception keeps the matches read so far and moves to the next selector without the stop test |
| Florida.Classify | backend/adapters/states/fl.py:231-262 | every classification is a Florida `web_form` result at tier `primary` |
| Florida.ClassifyVerdict | backend/adapters/states/fl.py:231-262 | `taken` exactly when some match has the searched key, even if all such matches are inactive, with the advisory then; `similar` otherwise; 0.96 and 0.89 |
| Florida.ParseResults | backend/adapters/states/fl.py:155-184 | the parsed result is a Florida result at tier `primary` or `llm` |
| Florida.Cascade | backend/adapters/states/fl.py:155-184 | a no-results phrase or a table without matches is `available` at 0.96; the model is asked only when there is no table, and only that call can fail; matches are classified |
| Florida.Search | backend/adapters/states/fl.py:47-153 | a search is a Florida result |
| Florida.NoInputFound | backend/adapters/states/fl.py:97-119 | when every input wait timed out the result is the form-not-found failure |
| Florida.NoSubmitFound | backend/adapters/states/fl.py:121-146 | when no click succeeded the result is the submit-not-found failure |
| Florida.FailedTier | backend/adapters/states/fl.py:94-153 | tier `failed` exactly when no input was found or no click succeeded |
| Florida.SessionFailures | backend/adapters/states/fl.py:47-69 | a timeout or an escaped exception is `error` at 0.10 |
| NewJersey.Claim | backend/adapters/states/nj.py:266-280 | a header claims at most one of the five columns, `name` first |
| NewJersey.ColIndex | backend/adapters/states/nj.py:266-280 | the header loop returns what `Columns` specifies |
| NewJersey.ColumnsMeaning | backend/adapters/states/nj.py:266-280 | a column is mapped exactly when some header claims it, to the first such header |
| NewJersey.ColumnsDistinct | backend/adapters/states/nj.py:266-280 | two columns never share a header |
| NewJersey.HeaderKeys | backend/adapters/states/nj.py:185-190 | each header text is trimmed and lower-cased, one per cell |
| NewJersey.ReadHeader | backend/adapters/states/nj.py:185-190 | the header loop returns `HeaderKeys` |
| NewJersey.Cell | backend/adapters/states/nj.py:283-291 | an index out of range gives "", otherwise the trimmed cell |
| NewJersey.RowMatch | backend/adapters/states/nj.py:193-208 | a row yields a match exactly when it has a cell and a non-blank name cell; the status is never empty |
| NewJersey.UnmappedColumnsAreBlank | backend/adapters/states/nj.py:199-207 | a column no header claims leaves its field blank (status `unknown`); the name falls back to cell 0 |
| NewJersey.DataMatches | backend/adapters/states/nj.py:193-208 | never more matches than data rows |
| NewJersey.ReadRow | backend/adapters/states/nj.py:194-208 | the body of the data-row loop returns what `RowMatch` specifies |
| NewJersey.ReadDataRows | backend/adapters/states/nj.py:193-208 | the data-row loop appends the rows' matches and reports whether a row read raised |
| NewJersey.ParseTable | backend/adapters/states/nj.py:168-214 | the selector loop returns what its specification `Collect` does |
| NewJersey.CollectExtends | backend/adapters/states/nj.py:176-212 | matches found at an earlier selector are never dropped |
| NewJersey.CollectEmpty | backend/adapters/states/nj.py:168-214 | nothing is found exactly when no readable table yields a match |
| NewJersey.FirstSelectorWins | backend/adapters/states/nj.py:209-210 | when the first selector's table is read without exception and yields matches, it is the answer |
| NewJersey.FirstProductiveSelectorWins | backend/adapters/states/nj.py:174-214 | the table of any selector is the answer when it is read without exception and yields matches and every earlier readable table yielded none |
| NewJersey.Classify | backend/adapters/states/nj.py:216-240 | every classification is a New Jersey `web_form` result at tier `primary` |
| NewJersey.ClassifyVerdict | backend/adapters/states/nj.py:216-240 | `taken` exactly when some match has the searched key, and the exact and other matches partition the input; `similar` otherwise; 0.96 and 0.89 |
| NewJersey.ParseResults | backend/adapters/states/nj.py:149-166 | the parsed result is a New Jersey result at tier `primary` or `llm` |
| NewJersey.Cascade | backend/adapters/states/nj.py:149-166 | a no-results phrase is `available` at 0.96; no parsed match asks the model, table or not; matches are classified; only the model call can fail |
| NewJersey.Search | backend/adapters/states/nj.py:52-147 | a search is a New Jersey result |
| NewJersey.NoInputFound | backend/adapters/states/nj.py:99-118 | when every input wait timed out the result is the form-not-found failure |
| NewJersey.FailedTier | backend/adapters/states/nj.py:98-147 | tier `failed` exactly when no input was found or no click succeeded |
| NewJersey.SessionFailures | backend/adapters/states/nj.py:52-74 | a timeout or an escaped exception is `error` at 0.10 |
| Washington.ManualStub | backend/adapters/states/wa.py:32-46 | for every input: `unknown` at confidence 0, below every formula value, tier `failed`, no matches, and a note with the manual-search page and the name |
| Rules.SameFromMeaning | backend/rules/engine.py:89 | the character scan agrees with slice equality |
| Rules.HasWordFromMeaning | backend/rules/engine.py:89 | the scan finds a word exactly when it occurs at some position between word boundaries |
| Rules.FiringRules | backend/rules/engine.py:85-90 | never more firing rules than rules |
| Rules.RulesSummary | backend/rules/engine.py:95-96 | the summary of the upper-cased code, or the no-rules text |
| Rules.ApplyRules | backend/rules/engine.py:77-92 | `apply_rules` returns the flags its specification `Flags` gives for the state's rules |
| Rules.ApplyRuleList | backend/rules/engine.py:85-92 | the rule loop returns `Flags` of the list |
| Rules.FlagsOfFiringRules | backend/rules/engine.py:85-90 | one flag per firing rule, each `[SEVERITY] message` of that rule, in order |
| Rules.FiringRuleMembers | backend/rules/engine.py:86-89 | a rule fires exactly when it is listed, applies to the entity type and its pattern matches |
| Rules.FlagsInDeclarationOrder | backend/rules/engine.py:85-90 | the flags of two concatenated rule lists are the flags of each, concatenated |
| Rules.SkippedRuleGivesNoFlag | backend/rules/engine.py:87-88 | a rule for other entity types never flags |
| Rules.UnknownStateHasNoRules | backend/rules/engine.py:82 | a state without rules gets no flags and the no-rules summary |
| Rules.StateCodeIsCaseInsensitive | backend/rules/engine.py:82 | `de` and `DE` find the Delaware rules and summary |
| Rules.EntityTypeIsCaseSensitive | backend/rules/engine.py:50-61 | entity types are compared exactly: `LLC` triggers the corporation-suffix rule, `llc` does not |
| RulesExamples.FirstAndSixthFire | backend/rules/engine.py:85-90 | a seven-rule list where only the first and sixth fire flags exactly those two, in order |
| RulesExamples.DelawareTable | backend/rules/engine.py:22-62 | the Delaware list is the seven rules in declaration order |
| RulesExamples.AcmeBankIncExample | backend/rules/engine.py:24-28 | "Acme Bank Inc" as an LLC in Delaware gets the bank warning and the corporation-suffix warning, in that order |
| OpenCorporates.Jurisdiction | backend/adapters/detail/opencorporates.py:26 | the jurisdiction is `us_` and the lower-cased code |
| OpenCorporates.Failure | backend/adapters/detail/opencorporates.py:38-94 | a failed lookup has every field empty, the public page and its error |
| OpenCorporates.FindAgent | backend/adapters/detail/opencorporates.py:62-67 | the officer loop returns what `AgentOf` specifies |
| OpenCorporates.FirstAgentWins | backend/adapters/detail/opencorporates.py:63-67 | the agent is the first officer whose position contains "agent" |
| OpenCorporates.NoAgent | backend/adapters/detail/opencorporates.py:62-67 | no such officer leaves the agent `None` |
| OpenCorporates.FetchOutcome | backend/adapters/detail/opencorporates.py:26-94 | the lookup never raises; it succeeds exactly on a 200 whose record reads, and each failure has its own error |
| Orchestrator.Adapter | backend/agents/orchestrator.py:21-28 | a registered adapter carries the code it is registered under |
| Orchestrator.RegisteredCodes | backend/agents/orchestrator.py:21-28 | exactly the six codes CA, DE, FL, NJ, NY and WA have an adapter |
| Orchestrator.Store.AddStateRow | backend/agents/orchestrator.py:74-87 | a state row is appended and nothing else changes |
| Orchestrator.Store.AddUsptoRow | backend/agents/uspto.py:19-31 | a USPTO row is appended and nothing else changes |
| Orchestrator.UsptoRowMeaning | backend/agents/uspto.py:17-31 | the USPTO row has no marks, risk `unknown`, and a note with the manual search site and the name |
| Orchestrator.PlanTasks | backend/agents/orchestrator.py:35-43 | the task loop returns what `Tasks` specifies |
| Orchestrator.StateTasksAppend | backend/agents/orchestrator.py:37-40 | the tasks of two code lists are the tasks of each, concatenated |
| Orchestrator.StateTasksMeaning | backend/agents/orchestrator.py:37-40 | each requested code with an adapter gets its task, each task comes from a requested code, and unknown codes are dropped |
| Orchestrator.TasksMeaning | backend/agents/orchestrator.py:35-43 | the USPTO task is always last and occurs exactly once |
| Orchestrator.Query | backend/agents/orchestrator.py:59-65 | at most the first ten similar names are sent, all of them when there are ten or fewer |
| Orchestrator.RiskFlag | backend/agents/orchestrator.py:67-70 | a risk flag starts with `[SIMILARITY] Risk: ` |
| Orchestrator.FailedFlag | backend/agents/orchestrator.py:71-72 | a failure flag starts with `[SIMILARITY] Analysis failed: ` |
| Orchestrator.SimilarityFlagMeaning | backend/agents/orchestrator.py:55-72 | a flag is added exactly for a `similar` verdict with names: the risk summary, the degraded one for unparseable text, or the failure message |
| Orchestrator.RiskIsNotFailure | backend/agents/orchestrator.py:67-72 | a risk summary never equals a failure report |
| Orchestrator.UnparseableReplyFlag | backend/agents/orchestrator.py:67-70 | an unparseable assessment gives risk UNKNOWN with the fixed advice |
| Orchestrator.RunState | backend/agents/orchestrator.py:48-87 | one state's lookup appends the rows `StateRows` specifies and no USPTO row |
| Orchestrator.RowMeaning | backend/agents/orchestrator.py:74-85 | the row copies the adapter's verdict; its flags are the rule flags, the similarity flag if any, then the adapter's flags |
| Orchestrator.RunTask | backend/agents/orchestrator.py:40-43 | one task appends its state rows, or the USPTO row |
| Orchestrator.RunSearch | backend/agents/orchestrator.py:31-45 | the search appends the rows of every state task, in task order, and exactly one USPTO row for the name |
| Orchestrator.RunTasks | backend/agents/orchestrator.py:45 | awaiting the tasks appends their rows in task order |
| Orchestrator.RowsAppend | backend/agents/orchestrator.py:35-45 | the rows of two task lists are the rows of each, concatenated |
| Orchestrator.RowsPerState | backend/agents/orchestrator.py:37-45 | each requested code contributes its own rows, in request order; a raising adapter contributes none and hides no other |
| Orchestrator.OneUsptoRow | backend/agents/orchestrator.py:42-43 | whatever the states, exactly one USPTO row is written |
| Orchestrator.NoUsptoRows | backend/agents/orchestrator.py:37-40 | state tasks write no USPTO row |
| Service.Validate | backend/main.py:60-69 | an accepted request keeps the stripped name and the type; a rejection is one of the three messages |
| Service.SupportedOnlyMeaning | backend/main.py:67 | the filter keeps, upper-cased, exactly the supported codes, never more than requested |
| Service.ValidateOutcome | backend/main.py:60-69 | accepted exactly when the stripped name is non-empty, the type is one of the six and some requested code is supported; each error has its message |
| Service.SupportedKept | backend/main.py:66-67 | the supported codes pass their own filter |
| Service.DefaultStates | backend/main.py:66-67 | with no states requested, every supported state (Delaware) is queued |
| Service.Finish | backend/main.py:96-114 | the finished job is `error` exactly when the search raised, `complete` otherwise, with the completion time, other fields kept |
| Service.Stream | backend/main.py:121-184 | the event loop yields what `StreamEvents` specifies |
| Service.SendResults | backend/main.py:134-171 | one poll sends its unsent state rows, then the USPTO row when unsent |
| Service.SendRows | backend/main.py:139-154 | the row loop sends each unsent row once and records its id |
| Service.KeysAppend | backend/main.py:139-171 | the keys of two event lists are the keys of each, concatenated |
| Service.RowEventKeys | backend/main.py:139-154 | a poll's row events carry distinct ids that were not sent before |
| Service.PollKeys | backend/main.py:139-171 | a poll's events carry distinct keys, exactly the ones it adds to the sent set |
| Service.SentAtMostOnce | backend/main.py:122-175 | no row or USPTO result is streamed twice |
| Service.RowEventsAreResults | backend/main.py:139-154 | row events are results, never `done` or `error` |
| Service.ClosingEventLast | backend/main.py:129-175 | a `done` or `error` event only ever comes last |
| Service.EndsWithDone | backend/main.py:139-175 | at the first poll that sees the job finished, the stream ends with `done` and that status, after every new row of that poll |
| Service.CacheHit | backend/main.py:240-253 | a cached entity is answered without OpenCorporates, and the cache is unchanged |
| Service.StoresOnlySuccess | backend/main.py:255-267 | only a lookup without error adds an entry, under its own key; others are untouched |
| Service.SecondLookupHits | backend/main.py:243-267 | after a successful lookup the same entity comes from the cache, with the composite key as file number and the rebuilt public page |
| Service.CodeCaseIgnored | backend/main.py:240-241 | any spelling of the state code finds and fills the same entry |
| Service.Service.CreateSearch | backend/main.py:54-81 | a rejected request changes nothing; an accepted one adds a pending job, marks it active, and answers its id and states |
| Service.Service.RunAndSignal | backend/main.py:84-114 | the job goes running, then finishes; it leaves the active set; when the search raises no row is written, otherwise the state rows of every requested code and one USPTO row |
| Service.Service.GetEntityDetail | backend/main.py:234-278 | the reply and the cache are those `EntityDetail` specifies, nothing else changes |

## Left out

- Browsers, HTTP and the language model are not modelled as programs. What they did is an input: which selector waits timed out or raised, which clicks succeeded, the rendered page and its tables, the HTTP response, and the model's reply (parsed, unparseable, or a failed call).
- The 90-second `asyncio.wait_for` limit and the Playwright timeouts are modelled as outcomes (`TimedOut`, `WaitTimedOut`), not as time.
- `asyncio.gather` is modelled as running the tasks one after the other in task order. The model therefore fixes one order of the persisted rows, where the program's order depends on which task finishes first.
- Orchestrator.RunSearch: a raising adapter writes no row, as with `return_exceptions=True`. An exception raised while the tasks are being built is modelled only as the `raised` flag of `RunAndSignal`.
- Service.Service.RunAndSignal: when `run_search` raises, the rows written before the exception are not modelled. The model writes none on that path.
- Confidences are integer hundredths rather than floats. Python's `round` is applied to the exact weighted sum; none of the twelve possible sums lies on a rounding tie, so the result equals rounding the float.
- The regular expressions of the naming rules are modelled as their lists of alternative words between ASCII word boundaries, matched on the lower-cased name.
- Case mapping (`upper`, `lower`) and whitespace (`strip`) cover ASCII only; Unicode case folding and Unicode spaces are not modelled.
- The New Jersey adapter asks the model whenever no match was parsed, with or without a table on the page. The comment at `backend/adapters/states/nj.py:163` speaks only of the no-table case, but the branch also runs when a table is present and yields no match. The model follows the code.
- California.Search: the model assumes a `ca_sos_api_key` setting exists and takes it as an optional input of the search. The shipped `Settings` class in `backend/config.py:4-8` declares only `anthropic_api_key` and `database_url`, so `settings.ca_sos_api_key` at `backend/adapters/states/ca.py:37` raises `AttributeError` before the `try`. As shipped, every California search therefore raises, and the orchestrator writes no row for it. The model's missing-key, HTTP-failure and classification paths describe the adapter once that setting is declared.
- California.SearchOutcome: the same assumption as California.Search; the outcomes it characterises are those of an adapter whose configuration declares the key.
- `risk_level` of a similarity assessment is modelled as a string. A non-string value, on which `.upper()` would raise inside the analysis `try`, is not modelled.
- Scrape.FallbackResult: a key of the model's reply whose value is JSON `null` is modelled as a missing key, so the default (`unknown`, `ambiguous`, no names, the fallback note) is used. The program's `.get` returns `None` for such a key (`backend/adapters/states/de.py:213-216`, `backend/adapters/states/fl.py:276-279`, `backend/adapters/states/nj.py:254-257`), so it stores availability `None` or similar names `None`.
- Scrape.FallbackResult: a reply that is valid JSON but not an object (a list, a string, a number) is not modelled; the interpretation is always an object. In the program, `.get` on it raises `AttributeError`, which reaches the adapter's outer `except Exception` and gives an error result.
- Orchestrator.RiskFlag: an `explanation` or `recommendation` whose value is JSON `null` is modelled as missing and gives the empty text, where the program writes the text `None` into the `[SIMILARITY]` flag (`backend/agents/orchestrator.py:67-70`). A `null` `risk_level` is modelled as missing and gives `UNKNOWN`, where the program's `.upper()` raises and the flag reads `Analysis failed`.
- Scrape.FallbackResult: the reply's fields are typed (strings, a list of strings), so a field of another JSON type is not modelled. In the program, a list or dict `clarity` makes the weight lookup raise `TypeError` (unhashable key), which the adapter's outer `except Exception` turns into an error result; a non-string `availability`, `notes` or a non-list `similar_names` is stored as it is (`backend/adapters/states/de.py:213-216`, `backend/adapters/states/fl.py:276-279`, `backend/adapters/states/nj.py:254-257`).
- Orchestrator.RiskFlag: an `explanation` or `recommendation` of another JSON type (a number, a boolean, a list) is not modelled; the program renders it with `str()` into the `[SIMILARITY]` flag (`backend/agents/orchestrator.py:68-70`).
- Orchestrator.RunState: a similarity reply that is valid JSON but not an object is not modelled. In the program, `.get` on it raises `AttributeError` inside the analysis `try`, and the flag reads `Analysis failed`.
- NewYork.SearchOutcome: a row is a dict from column names to strings, as the Open Data API returns. A 200 body that is not a list of such objects is not modelled; on one, `_classify` raises outside the `try` (`backend/adapters/states/ny.py:71-77`) instead of returning the classification.
- California.Get: JSON numbers are integers only, so a float field is not modelled, and a non-empty list or dict field is rendered as a fixed marker rather than its Python `repr`. For such a field the text `str(val).strip()` returns (`backend/adapters/states/ca.py:145-147`) differs from the model's.
- California.FieldText: the same gap as California.Get, for the one-key reading it specifies.
- Database sessions, commits and their failures are not modelled. The `Job`, state-result, USPTO-result and cache tables are fields of `Service` and `Orchestrator.Store`.
- Job identifiers (UUIDs) and the clock are parameters. Service.Service.CreateSearch requires a fresh job id, which stands in for UUID uniqueness.
- The server-sent-event stream is modelled as the events produced for a finite sequence of database snapshots, one per poll. The one-second wait between polls, the `done_event` wake-up and the JSON encoding of payloads are not modelled. A stream whose job never finishes is modelled only up to the given polls.
- The `get_job` endpoint, application start-up, CORS, `database.py`, `models.py`, `config.py` and `run.py` are not part of this model. They read, store or configure what is modelled here; the one configuration gap that changes a result, the missing California key setting, is stated under California.Search above.
- The JSON payloads of the responses (`json.dumps`) and the exact text of `Unexpected error: {type}: {exc}` are modelled through an abstract description of the exception (`PyError.Describe`).
- The browser user-agent strings, the page URLs the adapters navigate to, and the waits for `networkidle` have no effect on any result and are not modelled.
- LlmClient: the prompt texts sent to the model and the model name are not modelled; only what the client does with the reply is.
