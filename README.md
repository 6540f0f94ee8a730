# Sentinel core in Dafny

A model of the deterministic core of Sentinel, a multi-agent incident-analysis
service. It covers the following parts, with the properties each one promises:

- the pydantic record types with their validation (`Models`);
- the scripted language-model client and the client factory (`LlmClient`);
- the structured-output extraction shared by the agents (`Agents`);
- the triage stage's bounded tool loop (`Triage`);
- the runbook title and chunking utilities (`Ingest`);
- the confidence bucketing of runbook search (`Engine`);
- the simulated log and deployment lookups (`LogSearch`, `Deployments`);
- evaluation scoring and aggregation (`Scorer`, `Runner`);
- the browser-redirect decision of the HTTP middleware (`Api`).

Helper modules:

- `Wrappers`: Option and Result.
- `Json`: JSON values, with `json.loads`, `json.dumps` and `isoformat` taken as given functions.
- `Text`: Python's `str` operations over `seq<char>`.
- `Lists`: list comprehension filtering.
- `Sorting`: `list.sort` as an in-place insertion sort on an array.
- `Arith`: ratios.

## How the code is followed

- **Client.** The triage loop talks to `MockClient`, a class with a script of
  responses, a cursor and a call history.
- **Tools.** The tool registry is a schema list plus a pure `execute` function.
- **Tracer.** The decision tracer is an append-only ghost log.
- **Loop.** `TriageAgent.run` is a sequential method with the source's early
  `break`. It is proved against functions of the script the client holds when
  the run starts:
  - `CallCount`: how many calls are made;
  - `Conversation` and `History`: what each call is sent;
  - `UsageOf` and `ToolCallsOf`: what is summed and collected;
  - `ScriptedReply`: the final reply.
- **`null`.** `extract_json` returns `None` for any text that fails to parse.
  It also returns `None` for text that parses to JSON `null`, because the code
  returns what `json.loads` gives. So "`None` exactly when both attempts fail"
  does not hold for the literal `null`. The model follows the code.
- **Non-object results.** When the triage result is valid JSON but not an
  object, the closing log call's `result.get(...)` raises. `Triage.TriageResult`
  models this as a `Failure`.
- **Time.**
  - Alerts and agent steps carry instants: integers on a totally ordered time line.
  - The log and deployment tools sort on raw timestamp text, by code-point order.
  - The log time filter compares instants given by a parameter `instant`. It stands
    for `datetime.fromisoformat(t.replace("Z", "+00:00"))`.

## Model

| member | source | states |
|---|---|---|
| Models.ParseSeverity | agent/models.py:16 | a severity string is accepted exactly when it is one of critical, high, medium, low, and the parsed value names it |
| Models.SeverityRoundTrip | agent/models.py:16 | every severity survives naming and parsing back |
| Models.NewAlert | agent/models.py:11-18 | an alert is built exactly when the severity is one of the four literals; its fields are the given ones and a missing metadata is the empty map |
| Models.NewAgentStep | agent/models.py:31-40 | a step built without tool calls records none, other fields as given |
| Models.NewIncidentReport | agent/models.py:43-56 | a report is built exactly when the confidence lies in [0, 1]; every given field, including summary, root cause, total tokens, total cost and duration, is kept; a missing agent trace is empty |
| Models.ParseMessageType | agent/models.py:64 | a message type is accepted exactly when it is delegate, respond or escalate |
| Models.MessageTypeRoundTrip | agent/models.py:64 | every message type survives naming and parsing back |
| Models.NewAgentMessage | agent/models.py:59-66 | a message is built exactly when its type is one of the three literals, other fields as given |
| LlmClient.TokenUsage.Plus | agent/llm_client.py:22-24 | adding usages adds input and output counts field by field, hence total tokens add |
| LlmClient.NewResponse | agent/llm_client.py:27-35 | a response built from text alone has no tool calls, zero usage (total 0) and empty model and stop reason |
| LlmClient.ScriptedReply | agent/llm_client.py:129-139 | the k-th reply from now is the k-th pending scripted response while one remains, else the fixed reply with no tool calls |
| LlmClient.MockClient.constructor | agent/llm_client.py:114-117 | a new client holds the given responses (none for a missing list), cursor 0 and an empty history |
| LlmClient.MockClient.AddResponse | agent/llm_client.py:119-120 | the response is appended to the script; cursor and history are unchanged |
| LlmClient.MockClient.Chat | agent/llm_client.py:122-139 | each call appends exactly one history entry with its messages and tools; while responses remain it returns the one at the cursor and advances it by one, else it returns the fixed 10/10 reply and leaves the cursor; the cursor never passes the script's end |
| LlmClient.CreateClient | agent/llm_client.py:142-151 | "anthropic" gives the Anthropic client, "mock" the mock client, any other resolved name a ValueError naming it |
| LlmClient.ResolveProvider | agent/llm_client.py:144 | a non-empty argument wins; otherwise the environment setting when it is set, whatever its value, and "anthropic" when it is not |
| LlmClient.DefaultProviderIsAnthropic | agent/llm_client.py:144-147 | with no argument and no environment setting the factory builds the Anthropic client |
| Agents.StripFences | agent/agents/__init__.py:13 | the `re.sub` fence removal; it only removes characters, so the result is never longer |
| Agents.Clean | agent/agents/__init__.py:13 | the cleaned text is no longer than the reply, starts with a non-blank and does not end in a backtick |
| Agents.BraceSpan | agent/agents/__init__.py:22-24 | a span exists exactly when there is a `{` and the last `}` comes after the first `{`; it is the slice from the first `{` through the last `}` |
| Agents.AsReturned | agent/agents/__init__.py:17 | a parse result is returned unchanged unless it is JSON null, which reads as None |
| Agents.ExtractJson | agent/agents/__init__.py:10-30 | a successful direct parse of the cleaned text is returned; otherwise only the brace span's parse can be returned; the result is None exactly when both attempts fail, the span is missing or a parse gives null; failures never escape |
| Agents.StripFencesLeavesNoFence | agent/agents/__init__.py:13 | no "```" remains after the fence removal, even where removals bring backticks together |
| Agents.StripFencesOfFenceFree | agent/agents/__init__.py:13 | fence-free text passes the removal unchanged |
| Agents.StripFencesIdempotent | agent/agents/__init__.py:13 | removing fences twice equals removing them once |
| Agents.StripFencesAppend | agent/agents/__init__.py:13 | fence-free text in front of a part that does not start with a backtick passes the removal unchanged |
| Agents.StripFencesOfFenced | agent/agents/__init__.py:13 | the removal turns "```json\n" + body + "\n```" into the body without leading blanks plus a newline, or into nothing for a blank body |
| Agents.FencedCleansLikeBare | agent/agents/__init__.py:13 | a fenced fence-free body cleans to the same text as the bare body |
| Agents.FencedExtractsLikeBare | agent/agents/__init__.py:11-30 | extraction gives the same result for "```json\n" + body + "\n```" as for the bare body, for any parser |
| Triage.Tracer.constructor | agent/agents/triage.py:26-34 | a fresh tracer has logged no step |
| Triage.Tracer.LogStep | agent/agents/triage.py:115-123 | logging appends exactly one step record and keeps the earlier ones |
| Triage.TriageSchemas | agent/agents/triage.py:20-46 | the offered schemas are exactly the registry's get_metrics and get_service_dependencies schemas, kept in registry order with their repetitions; never more than the registry holds |
| Triage.TriageSchemasInOrder | agent/agents/triage.py:43-46 | a schema added at the end of the registry is offered at the end exactly when it is a triage tool, after the earlier offers unchanged |
| Triage.AlertMessage | agent/agents/triage.py:48-62 | defines the opening user turn: the alert's service, severity, description, timestamp and metadata in the source's wording |
| Triage.ExecutedInOrder | agent/agents/triage.py:82-84 | the i-th tool call collected is the execution of the i-th request with its name and input |
| Triage.ResultBlockAt | agent/agents/triage.py:85-89 | the i-th tool_result block carries the i-th request's id and its serialised result |
| Triage.ToolUseBlockAt | agent/agents/triage.py:95-101 | the i-th tool_use block echoes the i-th request's id, name and input |
| Triage.RoundIdsMatch | agent/agents/triage.py:82-104 | a tool-using round appends an assistant turn and a user turn; request i appears as the tool_use block after the optional text block and is answered under the same id by tool_result block i |
| Triage.Cost | agent/agents/triage.py:107 | cost times 10^6 equals 3 times input tokens plus 15 times output tokens |
| Triage.CallCount | agent/agents/triage.py:66-78 | between 1 and 4 calls are made; every reply but the last requested tools, and fewer than 4 calls means the last reply requested none |
| Triage.CallCountIs | agent/agents/triage.py:66-78 | the stopping conditions determine the call count uniquely |
| Triage.CallsMade | agent/agents/triage.py:68-78 | a loop that broke at a reply without tools, or ran 4 times with tools throughout, made exactly CallCount calls |
| Triage.AlwaysToolsMeansFourCalls | agent/agents/triage.py:66-78 | a script that requests tools in every reply is cut off after exactly four calls |
| Triage.CallsWithinScript | agent/agents/triage.py:66-78 | at most one call goes past the end of the script, since the fixed reply ends the loop |
| Triage.Conversation | agent/agents/triage.py:48-104 | defines the conversation after k tool-using rounds: the alert turn, then each round's assistant and tool-result turns |
| Triage.History | agent/agents/triage.py:69-72 | the history after k calls has exactly k entries, one per call; `Triage.HistoryEntry` states what each holds |
| Triage.UsageOf | agent/agents/triage.py:73-74 | defines the usage summed over the first k replies, field by field |
| Triage.ToolCallsOf | agent/agents/triage.py:82-84 | defines the tool calls collected over the first k replies, each request executed in order |
| Triage.ConversationShape | agent/agents/triage.py:48-104 | the conversation opens with the alert turn and grows by two turns per tool-using round |
| Triage.HistoryEntry | agent/agents/triage.py:69-72 | call j is sent the system turn followed by the conversation after j rounds, with the triage schemas |
| Triage.ToolCallsCount | agent/agents/triage.py:82-120 | the logged tool calls number exactly the tools requested over the run |
| Triage.Fallback | agent/agents/triage.py:127-136 | the fallback has exactly five keys: classification "unknown", affected services [alert.service], priority "P1", the reply text as summary, delegation text from the alert's service and description |
| Triage.TriageResult | agent/agents/triage.py:126-143 | nothing extracted gives the fallback; an extracted object is returned as is; a non-object value is a failure, and only then |
| Triage.ExecuteRequests | agent/agents/triage.py:81-89 | executes every request in order, returning the tool calls and the matching tool_result blocks |
| Triage.RequestBlocks | agent/agents/triage.py:92-101 | builds the assistant blocks: the text block when the reply has text, then one tool_use per request |
| Triage.ToolRound | agent/agents/triage.py:81-104 | returns the round's tool calls and its two conversation turns |
| Triage.NextReply | agent/llm_client.py:129-132 | after i calls the client's next reply is the i-th of the script it started with |
| Triage.Round | agent/agents/triage.py:68-104 | one pass asks the model for the i-th scripted reply, records the call, adds its usage, stops exactly when it requests no tools, and otherwise extends tool calls and conversation by that round |
| Triage.Converse | agent/agents/triage.py:64-104 | the loop makes CallCount calls, records each with the conversation so far, moves the cursor past the replies used and returns the last reply, the summed usage and every tool call |
| Triage.Run | agent/agents/triage.py:36-145 | the run leaves the call history and cursor determined by the script, logs exactly one "triage"/"triage_classification" step with the final text, all tool calls, total tokens and cost, and returns the result for the final text |
| Ingest.LineEnd | rag/ingest.py:19 | the first line ends at the first line break |
| Ingest.SplitLines | rag/ingest.py:19 | splitting gives no lines exactly for empty text |
| Ingest.LinesHaveNoBreaks | rag/ingest.py:19 | no line holds a line break |
| Ingest.SplitLinesRoundTrip | rag/ingest.py:19 | there is one terminator per line, and the lines in order, each followed by its terminator, give back the text |
| Ingest.TerminatorsAreBreaks | rag/ingest.py:19 | every terminator but the last is a line break or "\r\n"; the last is one of those or empty |
| Ingest.CarriageReturnStandsAlone | rag/ingest.py:19 | a "\r" terminator is never followed by an empty line ended by "\n", so "\r\n" is one break |
| Ingest.TitleIndex | rag/ingest.py:19-20 | finds the first line starting with "# ", or -1 when no line does |
| Ingest.FirstTitle | rag/ingest.py:19-22 | defines the first-match loop: the stripped text after "# " of the first title line, else "Untitled" |
| Ingest.FirstTitleAtIndex | rag/ingest.py:19-22 | the first-match loop returns the title of the line the index finds, or "Untitled" |
| Ingest.ExtractTitle | rag/ingest.py:17-22 | the title is the stripped text after "# " on the first line starting with "# ", else "Untitled" |
| Ingest.SubheadingIsNoTitle | rag/ingest.py:20 | a line starting with "##" is never a title |
| Ingest.TitleFromFirstLine | rag/ingest.py:19-21 | a heading on the first line gives its stripped text, whatever follows |
| Ingest.UntitledWithoutHeading | rag/ingest.py:20-22 | a single line that is no heading gives "Untitled" |
| Ingest.ChunkText | rag/ingest.py:25-35 | the while loop produces exactly the trimmed non-empty windows from start 0 on, each next start overlap characters before the previous end |
| Ingest.NextChunk | rag/ingest.py:30-34 | one pass appends the trimmed window when non-empty and moves the start to end - overlap |
| Ingest.ChunksFrom | rag/ingest.py:29-34 | defines the chunks the loop produces from a given start: the window's trimmed text when non-blank, then the chunks from end - overlap |
| Ingest.ChunksAreTrimmedAndBounded | rag/ingest.py:30-33 | every chunk is non-empty, begins and ends with a non-blank and is at most chunk_size long |
| Ingest.WindowStartIsMultiple | rag/ingest.py:29-34 | window k starts at k times (chunk_size - overlap) |
| Ingest.ChunksFollowWindows | rag/ingest.py:28-35 | the chunks are, in window order, the trimmed windows at starts 0, step, 2 step, ... |
| Ingest.ChunksOfEmptyText | rag/ingest.py:29 | empty text gives no chunks |
| Ingest.LongTextGivesSeveralChunks | rag/ingest.py:12-35 | 1024 non-blank characters cut with the defaults 512 and 50 give at least two chunks |
| Engine.ClassifyConfidence | rag/engine.py:29-34 | score above 0.7 is high, 0.4 to 0.7 inclusive is medium, below 0.4 is low, each both ways |
| Engine.ClassifyMonotone | rag/engine.py:29-34 | a higher score never gets a lower bucket |
| Engine.Similarity | rag/engine.py:71 | distances in [0, 2], and only those, map into [0, 1]; 0 maps to 1 and 2 to 0 |
| Engine.SimilarityDecreasing | rag/engine.py:71 | a larger distance gives a smaller similarity |
| Engine.SimilarityInverse | rag/engine.py:71 | the distance is recovered as 2 (1 - similarity) |
| Engine.HitOf | rag/engine.py:71-72 | a result's similarity is accepted exactly for distances in [0, 2]; the label is high below distance 0.6, medium from 0.6 to 1.2, low above 1.2 |
| Engine.NearerIsNoLessConfident | rag/engine.py:71-72 | a nearer hit is never labelled less confident than a farther one |
| Lists.KeepMembers | tools/log_search.py:41 | a comprehension keeps only elements that pass, and every element that passes |
| Lists.KeepTwice | tools/log_search.py:41-65 | filtering twice in a row is filtering once by both conditions |
| Lists.KeepSnoc | tools/log_search.py:41 | a comprehension over a list with one more element at the end gives the earlier result, then that element if it passes |
| Lists.KeepNone | tools/log_search.py:41 | a filter nothing passes leaves nothing |
| LogSearch.Matching | tools/log_search.py:41-65 | an entry is kept exactly when it has the service, the upper-cased severity, a time inside the inclusive window and the query in its lower-cased message, each absent or empty filter admitting everything |
| LogSearch.Passes | tools/log_search.py:41-65 | defines passing every filter stage: service, upper-cased severity, start, end and query |
| LogSearch.FilterLogs | tools/log_search.py:41-65 | the successive comprehensions give exactly the matching entries in input order |
| LogSearch.BySeverity | tools/log_search.py:44-45 | the severity comprehension advances the filtering by the severity stage |
| LogSearch.ByStart | tools/log_search.py:48-53 | the start comprehension advances the filtering by the lower time bound |
| LogSearch.ByEnd | tools/log_search.py:55-60 | the end comprehension advances the filtering by the upper time bound |
| LogSearch.ByQuery | tools/log_search.py:63-65 | the query comprehension advances the filtering by the message substring |
| LogSearch.SearchLogs | tools/log_search.py:19-70 | the results are a permutation of exactly the matching entries, non-decreasing by timestamp |
| LogSearch.UnknownServiceFindsNothing | tools/log_search.py:41 | a service with no entries yields nothing |
| LogSearch.ServiceOnly | tools/log_search.py:41-65 | with no optional filter, every entry of the service is returned |
| LogSearch.WindowIsInclusive | tools/log_search.py:48-60 | entries exactly at either end of the window are kept |
| Sorting.Sort | tools/log_search.py:68 | the array ends sorted by key, ascending or descending, and is a permutation of what it held |
| Deployments.Selected | tools/deployments.py:31-32 | with a service given exactly its deployments are kept; with none, all are |
| Deployments.GetRecentDeployments | tools/deployments.py:16-37 | an omitted limit is 5; the result has length min(limit, matches) with Python's slice rule, is sorted newest first, is drawn from the selected deployments, and no omitted selected deployment is newer than a returned one |
| Deployments.NewestFirstPrefix | tools/deployments.py:35-37 | a prefix of a newest-first list is newest first and nothing after it is newer than anything in it |
| Scorer.WeightsSumToOne | evaluation/scorer.py:27-30 | the four weights sum to 1 |
| Scorer.CountFound | evaluation/scorer.py:38 | the count of keywords found in the lower-cased text is at most the number of keywords |
| Scorer.CountFoundExtremes | evaluation/scorer.py:38 | the found count is the length exactly when every keyword occurs, and 0 exactly when none does |
| Scorer.KeywordOverlap | evaluation/scorer.py:33-39 | 1.0 for no keywords; otherwise the found count over the list length, in [0, 1] |
| Scorer.OverlapExtremes | evaluation/scorer.py:33-39 | the overlap is 1 exactly when all keywords occur and 0 exactly when none does |
| Scorer.Calibration | evaluation/scorer.py:56-61 | full marks at or above the minimum, else confidence / minimum, below 1; always in [0, 1] |
| Scorer.HalfConfidenceHalfMarks | evaluation/scorer.py:56-61 | for every minimum confidence in (0, 2], half of it earns half marks |
| Scorer.ExpectedServices | evaluation/scorer.py:64 | defines the expected services as the set of the lower-cased expected names |
| Scorer.AllText | evaluation/scorer.py:68 | defines the searched text as the lower-cased root cause, a space and the space-joined remediation steps |
| Scorer.ServicesFound | evaluation/scorer.py:67-71 | a service is found exactly when it is expected and either mentioned or the alert's own |
| Scorer.FoundServices | evaluation/scorer.py:67-71 | the loop collects exactly the found services |
| Scorer.ServicesAccuracy | evaluation/scorer.py:64-72 | 1.0 for no expected services; otherwise found over expected, in [0, 1], and 1 exactly when every expected service is found |
| Scorer.Total | evaluation/scorer.py:74-79 | the weighted total lies in [0, 1] and is 1 exactly when every component is |
| Scorer.Score | evaluation/scorer.py:42-89 | each component is its defined measure, the total lies in [0, 1], and passed holds exactly when the unrounded total is at least 0.60 |
| Scorer.ScoreScenario | evaluation/scorer.py:42-89 | the imperative scoring, with its found-services loop, yields the score |
| Scorer.NoKeywordsFails | evaluation/scorer.py:74-88 | a report matching no root-cause or remediation keyword cannot pass |
| Scorer.PerfectReportPasses | evaluation/scorer.py:74-88 | a report with every component at full marks totals 1 and passes |
| Runner.ErrorFreeCount | evaluation/runner.py:37 | at most one error-free result per result |
| Runner.PassedCount | evaluation/runner.py:44 | passes are counted only among error-free results |
| Runner.ErrorFreeScoreSum | evaluation/runner.py:37-38 | defines the sum of the total scores of the results without an error |
| Runner.ErrorFreeCost | evaluation/runner.py:48-49 | defines the sum of the report costs of the results without an error |
| Runner.ScoreSumBounded | evaluation/runner.py:37-38 | with scores in [0, 1] the error-free sum lies between 0 and the error-free count |
| Runner.AggregatesAppend | evaluation/runner.py:35-49 | the counts and sums over concatenated result lists add up |
| Runner.EvalRun.MeanScore | evaluation/runner.py:35-38 | the mean of the error-free totals, 0 when there are none |
| Runner.EvalRun.PassRate | evaluation/runner.py:40-45 | error-free passes over all results, 0 for an empty run, always in [0, 1] |
| Runner.EvalRun.TotalCost | evaluation/runner.py:47-49 | zero when no result is error-free |
| Runner.NoErrorFreeNoCost | evaluation/runner.py:47-49 | without error-free results the cost sum is 0 |
| Runner.PassedCountExtremes | evaluation/runner.py:44 | the passed count equals the length exactly when all passed, and is 0 exactly when none did |
| Runner.PassRateExtremes | evaluation/runner.py:40-45 | a non-empty run has pass rate 1 exactly when all passed and 0 exactly when none did |
| Runner.MeanScoreBounded | evaluation/runner.py:35-38 | with totals in [0, 1] so is the mean |
| Runner.FailedResultCountsOnlyInPassRate | evaluation/runner.py:35-49 | appending a failed result leaves mean and cost and adds only to the pass rate's denominator |
| Runner.ClientFor | evaluation/runner.py:58-61 | mock mode uses the scenario's scripted responses, any other mode the Anthropic client |
| Runner.ErrorReport | evaluation/runner.py:69-81 | the fallback report is "EVAL-ERROR" with confidence 0, no remediation steps, zero totals and human approval required |
| Runner.ErrorReportIsValid | evaluation/runner.py:70-81 | the fallback report passes its own validation |
| Runner.Outcome | evaluation/runner.py:52-92 | a failed analysis records its error and is scored on the fallback report; a successful one is scored on its report |
| Runner.RunScenario | evaluation/runner.py:52-92 | the imperative run_scenario yields the outcome |
| Runner.RunAll | evaluation/runner.py:95-111 | one result per scenario, in scenario order |
| Api.RedirectDecision | api/main.py:107-135 | a browser GET on a table path redirects to "/#" + its page; otherwise a browser GET under "/api/v1/incidents/" without "/trace" redirects to "/#incidents"; everything else passes through |
| Api.NonBrowserPassesThrough | api/main.py:121-131 | non-GET requests and Accept headers without "text/html" are never redirected |
| Api.TableAndPrefixDisjoint | api/main.py:107-135 | no table path lies under the incidents prefix |
| Api.TablePathsHaveNoTrace | api/main.py:107-112 | no table path contains "/trace" |
| Api.TracePathsPassThrough | api/main.py:119-135 | paths containing "/trace" always pass through |
| Api.RedirectsNameAPage | api/main.py:107-135 | every redirect target is "/#" followed by one of the dashboard page names |

## Left out

- Concurrency: the async signatures and awaits are sequential calls.
- The Anthropic client (`AnthropicClient`): it calls a foreign SDK. `create_client` only says which client it builds.
- `RAGEngine.search` and `ingest_runbooks`: they call ChromaDB and the embedding model. Only the distance-to-similarity formula and the bucketing are modelled.
- `round(similarity, 4)` in search is left out.
- `json.loads`, `json.dumps` (with `default=str`) and `datetime.isoformat` are uninterpreted functions. The JSON grammar is not modelled.
- File I/O: `_load_logs` and `_load_deployments`. The log list and deployment list are parameters.
- `load_all_scenarios` is also replaced by a parameter, the scenario list.
- `time.perf_counter` durations are not modelled: the result's `duration_seconds` and the run's `total_duration_seconds`.
- `datetime.now` for the trace step's time is a parameter `now`.
- `round(..., 3)` on the score components and the total is left out. Scores, costs and rates are unrounded reals, not Python floats.
- The structlog calls (`logger.info` and the like) are logging effects and are dropped.
- `record_llm_call` is taken as a no-op. monitoring/metrics.py is a stub that defines no such function, so the import in `TriageAgent.run` would fail as written.
- The orchestrator `IncidentAnalyzer.analyze` (agent/core.py) is an abstract function passed to `run_scenario`. Its exception is a `Failure`.
- agent/core.py, monitoring/tracer.py, tools/registry.py and agent/prompts.py are not part of this model: in the source they are stubs.
  - The tracer is a ghost log.
  - The registry is a schema list and an `execute` function.
  - The system prompt is a parameter.
- The other agents, the message bus, the dashboard, the API routes and the infrastructure code are also stubs and are left out.
- In the middleware, the FastAPI setup, CORS, request timing and logging, and `call_next` are left out. Only the redirect decision is modelled.
- `Text.Lower` and `Text.Upper`: they map only ASCII letters. Python's full Unicode case mapping is left out.
- Pydantic coercion of raw inputs is left out, for example strings to datetimes. Only the literal checks, the confidence range and the defaults are modelled.
- `Sorting.Sort`: it states that the array ends sorted and a permutation of what it held, not that equal keys keep their order. `LogSearch.SearchLogs` and `Deployments.GetRecentDeployments` inherit this, as the next lines say.
- `LogSearch.SearchLogs`: it states that the output is sorted and a permutation of the matching entries. It does not state that entries with equal timestamps keep their input order, although Python's sort is stable.
- `LogSearch.SearchLogs`: a malformed timestamp, which makes `fromisoformat` raise, is not modelled. `instant` is total.
- `Deployments.GetRecentDeployments`: it states sortedness and that nothing omitted is newer than anything kept. Among deployments with the same timestamp, it does not pin which ones the limit cuts off, because stability is not modelled.
- `Runner.EvalRun.TotalCost`: its contract states only the case with no error-free result. That it is the cost sum over error-free results is its definition, `ErrorFreeCost`. `Runner.AggregatesAppend` and `Runner.FailedResultCountsOnlyInPassRate` state how that sum adds up.
- `LlmClient.MockClient.constructor` and `LlmClient.MockClient.AddResponse`: `responses or []` keeps the caller's own list, so `add_response` appends to it and the caller's later changes to it change the script. The model copies the list into a value sequence, so this aliasing is not modelled.
- `Triage.Run`: the client is the scripted `MockClient`. A live client's replies are not modelled.
