# straussome core, modelled in Dafny

This project models the core of straussome, an orchestrator that runs a named sequence of
steps ("agents") against one shared state. It covers three parts:

- **The orchestrator engine.** This covers plan construction, per-step retry with
  geometric backoff under a counting semaphore, and fail-fast sequencing. It also covers
  the four task outcomes (construction error, step failure, deadline, completion) and the
  engine's task bookkeeping (`cancel_task`, `get_task_status`).
- **The tool layer.** This covers the `ToolResult`/`ToolConfig` records, the retry wrapper
  with doubling backoff, the order-independent cache key, TTL validity, and the
  cache-on-success policy of a tool call. It also covers the tool registry, with lookup,
  dispatch and shutdown.
- **The domain records and the fetch tools' guards.** This covers the status
  enumerations, the records and their defaults, and the argument guards of the HTTP,
  database and file fetch tools, including the file tool's suffix-based choice of reader.

The model is functional. A step's behaviour is an oracle: one scripted outcome per
attempt (`Succeeds(data, took)` or `Fails(exception, took)`), plus what its cleanup hook
raises, if anything. A tool's `execute` is scripted the same way. An exception is its
text together with whether its class is `TimeoutError` (`Values.Exception`), because
both the engine and the tool layer catch that class before any other. The clock, the
deadline and the permits that other tasks hold are explicit parameters. The compiled
LangGraph graph is replaced by the list of steps it chains, run as a fold.

Building that graph can fail in five ways, and each fails the task before any step runs
(`src/core/orchestrator.py:94-116`). The engine itself refuses an unregistered name. The
graph library refuses a name that is a key of the shared state, that is, one of
`AgentState`'s fields `task_id`, `agent_results`, `shared_data` and
`execution_metadata` ("'shared_data' is already being used as a state key"). It also
refuses a name added twice ("Node `a` already present.") and a name equal
to one of its endpoints `__start__` or `__end__` ("Node `__end__` is reserved."). Compiling
a graph built from an empty list fails because it has no entry point. The model checks
these in the order the code meets them (`Engine.PlanError`).

Files:
- `values.dfy`: Python values, exceptions, `Option`/`Result`, truthiness and `dict.get`.
- `text.dfy`: string order, `endswith`, ASCII `upper` and integer rendering.
- `backoff.dfy`: the attempt budget, the delays and their geometric sums.
- `models.dfy`: the domain records.
- `cachekeys.dfy`: the cache key.
- `tools.dfy`: tool retry and the cache.
- `registry.dfy`: the tool registry.
- `fetchers.dfy`: the fetch-tool guards.
- `engine.dfy`: the orchestrator.

Where the system's design description and the code differ, the model follows the code:
- **Which configuration drives retries.** Retries and the semaphore use the engine's own
  configuration (`src/core/orchestrator.py:42`, `:193`, `:199`). A per-task
  configuration only moves the deadline (`:62`, `:82`).
- **What a failed task returns.** On every failure path, `execute_task` returns the
  task's own starting state, with `"error"` and `"status"` added
  (`src/core/orchestrator.py:94-105`). The outcome records of the steps that ran are not
  part of that state. `Engine.TwoStepExample` shows this for the two-step scenario: the
  plan state records `a` as COMPLETED and `b` as FAILED with `retry_count = 2`
  (`Engine.ExamplePlan`), but the returned state carries only the error.
- **Cancellation and status queries.** `running_tasks` and `task_results` are never
  filled. On any engine built by the constructor, `cancel_task` answers false and
  `get_task_status` answers nothing (`Engine.NothingTracked`).
- **The step cleanup hook.** `BaseAgent` defines no `cleanup`, so in the repository as
  it stands every node's `finally` raises. The hook is modelled as a parameter: it either
  returns or raises a given exception, and a raised exception replaces the node's own
  outcome.
- **Which tool results are retried.** A tool whose `execute` returns a FAILED result is
  not retried; only exceptions and timeouts are.
- **The tool timeout text.** It reads `Tool <name> timed out after <timeout>s`, where the
  timeout is rendered as a Python float (`30.0`). The model keeps timeouts to whole
  seconds up to 2^53 (`Tools.Seconds`), where that rendering is the digits then `.0`.
- **A step's or a tool's own `TimeoutError`.** From Python 3.11 on, `asyncio.TimeoutError`
  is the builtin `TimeoutError`. A tool whose `execute` raises one is handled like a
  timed-out call and reported with the timeout text (`src/tools/base.py:79-80`). A step
  whose last attempt raises one re-raises it from the node, and `execute_task` reports
  "Task timeout" for it rather than its text (`src/core/orchestrator.py:94-98`).
- **A zero tool timeout.** `wait_for` with a zero timeout cancels the call before it
  starts, so every attempt times out and the tool fails with
  "Tool <name> timed out after 0.0s" after all its attempts.

## Model

| member | source | states |
|---|---|---|
| Values.Get | src/core/orchestrator.py:154 | `d.get(k, default)`: the stored value for a present key, the default for an absent one |
| Text.Upper | src/tools/data_fetcher.py:28 | `upper()` keeps the length and upper-cases each ASCII letter in place, leaving every other character alone |
| Text.NatTextRoundTrip | src/tools/base.py:80 | the decimal rendering used in the timeout message reads back as the same number, so different timeouts give different messages |
| Backoff.DelayIsSlept | src/core/orchestrator.py:199-201 | with a non-negative base and factor, the delay requested before retry k is slept in full |
| Backoff.GeometricTotal | src/core/orchestrator.py:199 | the delays before retries 1..k sum to the closed form: (factor − 1) · total = base · (factor^k − 1) |
| Backoff.DoublingTotal | src/tools/base.py:70 | with the tool layer's doubling factor, k retries wait base · (2^k − 1) in total |
| Backoff.ConstantTotal | src/core/orchestrator.py:199 | with backoff factor 1, every wait equals the base and k retries wait k · base |
| Models.ParseAgentStatus | src/core/models.py:11-18 | looking a status up by its text gives a member with that text, or nothing |
| Models.AgentStatusEnumeration | src/core/models.py:11-18 | AgentStatus has exactly six members with six distinct texts, and each member is found again from its text |
| Models.ParseTaskStatus | src/core/models.py:21-27 | looking a task status up by its text gives a member with that text, or nothing |
| Models.TaskStatusEnumeration | src/core/models.py:21-27 | TaskStatus has exactly five members with five distinct texts, and each member is found again from its text |
| Models.NewAgentResult | src/core/models.py:30-40 | a fresh outcome record has no result, no error, no metadata, zero execution time and zero retries |
| Models.DefaultTaskConfig | src/core/models.py:43-50 | the defaults are timeout 300, 3 retries, delay 1.0, backoff 2.0 and 5 concurrent steps |
| Models.NewAgentState | src/core/models.py:53-58 | a state built from a task id alone has all three maps empty |
| Models.ResultKeyInjective | src/core/orchestrator.py:154 | two different steps never read their result from the same `<id>_result` key |
| CacheKeys.SortKeys | src/tools/base.py:103 | sorting the argument names yields a strictly ordered list of exactly those names, losing none |
| CacheKeys.SortedUnique | src/tools/base.py:103 | two strictly ordered lists with the same members are equal, so the sorted order is unique |
| CacheKeys.KeyIgnoresOrder | src/tools/base.py:97-105 | two calls with the same arguments, passed in any order, get the same cache key |
| CacheKeys.KeyDeterminesArguments | src/tools/base.py:97-105 | conversely, equal keys come from the same tool name and the same argument pairs |
| Tools.MakeToolResult | src/tools/base.py:24-36 | a result built without metadata gets an empty map, so a result's metadata is never null |
| Tools.DefaultToolConfig | src/tools/base.py:39-45 | the defaults are a 30-second timeout, 2 retries, delay 1.0, caching on and a 300-second TTL |
| Tools.RetryFromOutcome | src/tools/base.py:67-95 | from attempt k on, the loop ends with the first attempt that returns in time, after exactly the attempts up to it; if none does, it returns a FAILED result after all the attempts left: with the timeout text when the last attempt overran, was cut off by a zero timeout or raised a `TimeoutError`, and otherwise with the text of the exception the last attempt raised; with no attempt left, it returns the last error seen, or `None` |
| Tools.RetryFromWaits | src/tools/base.py:69-72 | the waits the loop requests from attempt k on are the stretch of the doubling backoff total between the retries before k and the last retry it makes |
| Tools.ExecuteWithRetry | src/tools/base.py:63-95 | never more than max_retries + 1 attempts, and the waits requested add up to the doubling backoff total of the retries made |
| Tools.RetryOutcome | src/tools/base.py:63-95 | the whole retry run returns the first result delivered in time; otherwise a FAILED result after all attempts, whose error is the timeout text when the last attempt overran, was cut off by a zero timeout or raised a `TimeoutError`, and otherwise the text of the exception it raised; with a negative retry count it makes no attempt and reports `None` |
| Tools.ReturnedResultNotRetried | src/tools/base.py:74-77 | a result that `execute` returns within a positive timeout is handed back after one attempt, even a FAILED one |
| Tools.TimeoutMessage | src/tools/base.py:80 | the timeout text is "Tool <name> timed out after ", the timeout's decimal digits and ".0s"; the digits read back as the timeout |
| Tools.RetryFrom | src/tools/base.py:63-88 | from attempt k on, the loop makes at most the attempts left in the budget, and none exactly when none is left |
| Tools.TimeoutReported | src/tools/base.py:79-95 | when no attempt delivers and the last one overran the timeout or raised a `TimeoutError` of its own, the result is FAILED with the "Tool <name> timed out after <t>.0s" text, after all attempts |
| Tools.ZeroTimeoutNeverDelivers | src/tools/base.py:67-95 | with a zero timeout every attempt is made and the run fails with "Tool <name> timed out after 0.0s" |
| Tools.CacheWindow | src/tools/base.py:107-116 | an entry stored at time s is valid exactly before s + TTL when caching is on, and never when caching is off |
| Tools.CachedResult | src/tools/base.py:107-123 | a cached result is returned exactly when caching is on, an entry exists and it is younger than the TTL (strictly), and it is the stored result |
| Tools.StoreResult | src/tools/base.py:125-130 | storing records the result with the current stamp under its key when caching is on, and changes nothing otherwise |
| Tools.Invoke | src/tools/base.py:132-147 | a valid cache hit returns the stored result with no attempt and no change; otherwise the retry run decides the result, and only a COMPLETED result is cached, stamped when the run ends |
| Tools.InvokeKeepsCache | src/tools/base.py:141-145 | a call keeps every cached result COMPLETED, leaves the tool unchanged when its result is not COMPLETED, and touches no other key |
| Tools.RepeatedCall | src/tools/base.py:107-147 | after a successful call, the same arguments in any order get the stored result with no attempt while the entry is younger than the TTL, and run the tool again once it has aged to the TTL |
| Registry.EmptyRegistry | src/tools/base.py:157-158 | a new registry is well formed and holds no tool |
| Registry.Register | src/tools/base.py:161-164 | registering stores the tool under its own name, replacing an earlier tool of that name in its place in the order |
| Registry.Lookup | src/tools/base.py:166-168 | lookup finds a tool exactly for a registered name, and finds the one registered |
| Registry.ListTools | src/tools/base.py:170-172 | the listed names are distinct and are exactly the registered names |
| Registry.RegisterThenLookup | src/tools/base.py:161-168 | registration keeps the registry well formed; the new tool is found under its name and every other name finds what it found before |
| Registry.ExecuteTool | src/tools/base.py:174-184 | an unknown name gives FAILED "Tool <name> not found" with no attempt and no change; a known name goes through that tool's cached, retried call, and its updated cache is kept |
| Registry.ExecuteToolKeepsOthers | src/tools/base.py:174-184 | dispatch keeps the registry well formed and leaves every other tool as it was |
| Registry.CleanupFrom | src/tools/base.py:186-189 | the hooks run on a prefix of the tools, in order |
| Registry.CleanupOutcome | src/tools/base.py:186-189 | shutdown raises exactly when some tool's hook raises; with no exception every tool was cleaned; with one, the last tool cleaned is the first whose hook raises, and its exception escapes |
| Registry.CleanupAll | src/tools/base.py:186-189 | shutdown visits the tools in registration order, stopping early at most |
| Registry.CleanupStopsAtFirstFailure | src/tools/base.py:186-189 | when the tool at position f is the first whose hook raises, exactly the tools up to f are cleaned and later ones are skipped |
| Fetchers.HttpGuard | src/tools/data_fetcher.py:26-39 | the request goes ahead exactly when the method is a string and the url is truthy, as the upper-cased method to that url; a missing url gives FAILED "URL is required"; every rejection is FAILED |
| Fetchers.DefaultVerbIsGet | src/tools/data_fetcher.py:28 | with no method given, the request is a GET |
| Fetchers.DatabaseGuard | src/tools/data_fetcher.py:114-127 | the query goes ahead exactly when both the connection string and the query are truthy and the query is a string or a list; a missing one gives FAILED "connection_string and query are required"; a number or bool query gives FAILED "Database error: '<type>' object is not subscriptable" with the elapsed time |
| Fetchers.ReaderFor | src/tools/data_fetcher.py:203-210 | the JSON reader is chosen exactly for file type "json", the CSV reader exactly for "csv", and text for anything else |
| Fetchers.FileGuard | src/tools/data_fetcher.py:179-210 | a missing or empty path gives FAILED "file_path is required"; an explicit file type is kept as given; "auto" is resolved from the path's suffix; the reader follows the resolved type |
| Fetchers.AutoFileType | src/tools/data_fetcher.py:192-200 | automatic typing gives json exactly for a .json/.JSON suffix, csv exactly for a .csv/.CSV suffix without a JSON one, and text exactly otherwise |
| Fetchers.MixedCaseJsonIsText | src/tools/data_fetcher.py:193-200 | a mixed-case ".Json" suffix is read as text |
| Fetchers.TxtIsText | src/tools/data_fetcher.py:197-200 | a ".txt" path is read as text |
| Fetchers.NoSuffixIsText | src/tools/data_fetcher.py:199-200 | a path with no suffix is read as text |
| Fetchers.UpperCsvIsCsv | src/tools/data_fetcher.py:195-196 | an upper-case ".CSV" suffix is read as CSV |
| Fetchers.LastSuffixDecides | src/tools/data_fetcher.py:193-194 | "x.csv.json" is read as JSON: only the last suffix counts |
| Fetchers.ScalarQueryFailsOnce | src/tools/data_fetcher.py:127-159 | a number or bool query makes the call fail after one attempt with the "not subscriptable" text naming its type, caching nothing |
| Fetchers.MissingPathFailsOnce | src/tools/data_fetcher.py:182-187 | a call without a path makes one attempt, returns FAILED "file_path is required" and caches nothing, because a returned failure is not retried |
| Engine.FirstUnregistered | src/core/orchestrator.py:112-114 | finds the first step name missing from the registry, and finds none exactly when every name is registered |
| Engine.PlanError | src/core/orchestrator.py:107-130 | building the graph raises nothing exactly when the list is non-empty, every name is registered, the names are distinct and none is `__start__`, `__end__` or a field of `AgentState` |
| Engine.UnregisteredReported | src/core/orchestrator.py:112-114 | among distinct, plain names, the error is "Agent <id> not registered" for the first unregistered one |
| Engine.BuildPlan | src/core/orchestrator.py:107-130 | construction fails exactly when the checks fail, with the first failing check's text; otherwise the names are distinct and none is reserved or a state key, the nodes are the steps, and the edges form the chain start → s0 → … → end |
| Engine.ChainWalksInOrder | src/core/orchestrator.py:118-128 | following the chain's edges from the start visits the steps in the listed order, then the end |
| Engine.WalkFrom | src/core/orchestrator.py:118-128 | following the chain from the entry to step i visits steps i.. in order, then the end |
| Engine.RetryStep | src/core/orchestrator.py:184-215 | the loop from attempt k begins at most budget − k attempts, and none exactly when no attempt is left |
| Engine.RetryStepOutcome | src/core/orchestrator.py:191-215 | with no attempt left the loop raises the last exception, or a TypeError when there was none; with no permit free it waits forever on its first acquisition; otherwise it returns the data of the first attempt that succeeds, or raises the last attempt's exception after all of them |
| Engine.RetryStepRecord | src/core/orchestrator.py:195-197 | the outcome record is left RETRYING with `retry_count` equal to the index of the last attempt begun, or untouched if only the first attempt ran |
| Engine.RetryStepDiscipline | src/core/orchestrator.py:201-205 | every attempt runs inside exactly one permit, never two are held, backoff sleeps hold none, and every permit taken is given back |
| Engine.RetryStepRuns | src/core/orchestrator.py:204-205 | with permits free, the loop runs exactly the attempts it begins |
| Engine.RetryStepSleeps | src/core/orchestrator.py:195-201 | the loop sleeps exactly the backoff delays before the attempts it begins |
| Engine.WaitSumIsTotal | src/core/orchestrator.py:199 | the waits before the first n + 1 attempts add up to the geometric total of n retries |
| Engine.RetrySucceedsAt | src/core/orchestrator.py:191-210 | k failures then a success make the loop return that attempt's data after k + 1 attempts, the record marked by attempt k, the geometric sum of k delays slept and the permit discipline kept |
| Engine.RunNode | src/core/orchestrator.py:134-182 | a node keeps the task id of the state it was given |
| Engine.NodeFollowsVerdict | src/core/orchestrator.py:147-180 | a node stalls when no permit is free; otherwise it goes on after a successful attempt, and it stops with the last exception when every attempt fails; a raising cleanup hook stops it either way |
| Engine.StepSucceedsAfterRetries | src/core/orchestrator.py:147-161 | k ≤ max_retries failures then a success ends COMPLETED with `retry_count = k`, no error and the result read from `<id>_result`; it runs k + 1 attempts under the permit discipline and sleeps the geometric sum of k delays |
| Engine.StepExhaustsRetries | src/core/orchestrator.py:163-177 | a step failing every attempt ends FAILED with `retry_count = max_retries` and the last exception's text, also written to `execution_metadata["error"]`; the node raises, and it has slept the geometric sum of max_retries delays |
| Engine.ContinueRecordsStep | src/core/orchestrator.py:149-161 | a node that lets the chain go on records its step COMPLETED and touches no other record and no metadata |
| Engine.RunPlan | src/core/orchestrator.py:118-128 | the steps that ran are a prefix of the plan, in plan order, and the task id is kept |
| Engine.PlanShape | src/core/orchestrator.py:163-177 | fail-fast: the plan finishes exactly when no step halts it, and otherwise runs exactly the steps up to the first halting one |
| Engine.PlanFinishesIff | src/core/orchestrator.py:163-177 | a plan finishes exactly when none of its steps halts the chain |
| Engine.FinishedPlanShape | src/core/orchestrator.py:118-161 | a finished plan ran every step and added no metadata |
| Engine.AbortedPlanShape | src/core/orchestrator.py:163-177 | an aborted plan ran exactly the steps up to the first halting one |
| Engine.PlanHaltsAtFirstStop | src/core/orchestrator.py:163-177 | an unfinished plan ends the way its first halting step's verdict says |
| Engine.FinishedRecordsEveryStep | src/core/orchestrator.py:149-161 | a finished plan records every step COMPLETED, keeps the COMPLETED records it started with, and leaves the metadata unchanged |
| Engine.NewEngine | src/core/orchestrator.py:31-42 | a new engine takes the given or the default configuration, sizes its semaphore once from it, and starts with no agents, tools or tasks; a negative size is rejected |
| Engine.RegisterAgent | src/core/orchestrator.py:44-47 | registering an agent binds its id and changes nothing else |
| Engine.RegisterTool | src/core/orchestrator.py:49-52 | registering a tool binds its name and changes nothing else |
| Engine.InitialState | src/core/orchestrator.py:68-73 | a task starts from a fresh state whose shared data is the initial data, or empty |
| Engine.FailedState | src/core/orchestrator.py:94-105 | marking a state failed adds exactly the "error" entry with the text and the "status" entry "failed", and changes nothing else |
| Engine.ExecuteTask | src/core/orchestrator.py:54-105 | the returned state belongs to the task, and the steps that ran are a prefix of the listed ones |
| Engine.Conclude | src/core/orchestrator.py:80-105 | the concluded task keeps its id, and reports as run a prefix of the steps the plan ran |
| Engine.TaskRejected | src/core/orchestrator.py:94-116 | a list the graph cannot be built from fails the task with the construction error, before any step runs, from the initial state |
| Engine.TaskMissingStep | src/core/orchestrator.py:100-114 | among distinct, plain names, an unregistered step fails the task with "Agent <id> not registered" for the first such name, before any step runs |
| Engine.EmptyTaskRejected | src/core/orchestrator.py:94-130 | an empty list of steps fails the task with the no-entry-point error |
| Engine.RepeatedStepRejected | src/core/orchestrator.py:94-116 | a step listed twice fails the task with "Node `a` already present." and runs nothing |
| Engine.StateKeyStepRejected | src/core/orchestrator.py:94-116 | a step named `shared_data` fails the task with "'shared_data' is already being used as a state key" and runs nothing, even when an agent is registered under that name |
| Engine.ReservedStepRejected | src/core/orchestrator.py:94-116 | a step named `__end__` fails the task with "Node `__end__` is reserved." and runs nothing |
| Engine.TaskRunsPlan | src/core/orchestrator.py:75-83 | once the graph can be built, the task's outcome is its plan run, concluded against the deadline |
| Engine.ConcludeTimedOut | src/core/orchestrator.py:94-98 | a plan that stalls or overruns the deadline yields the starting state marked "Task timeout", with only the steps started by the deadline |
| Engine.ConcludeAborted | src/core/orchestrator.py:94-105 | a plan aborted within the deadline yields the starting state marked with the step's exception text, or with "Task timeout" when that exception is a `TimeoutError` |
| Engine.ConcludeFinished | src/core/orchestrator.py:85-92 | a plan finished within the deadline yields its own final state, with the total execution time added |
| Engine.TaskTimesOut | src/core/orchestrator.py:80-98 | stalling or overrunning the deadline fails the task with "Task timeout", reporting only the steps started by the deadline |
| Engine.TaskAborts | src/core/orchestrator.py:94-105 | a step that raises within the deadline fails the task, after exactly the steps up to it have run, with the exception's text, or with "Task timeout" when it is a `TimeoutError` |
| Engine.TaskCompletes | src/core/orchestrator.py:85-92 | a plan finished within the deadline ran every step, halted at none, and its only metadata is the total execution time |
| Engine.TaskFailsIff | src/core/orchestrator.py:75-105 | a task carries an "error" entry exactly when the graph cannot be built, the plan does not finish, or it overruns the deadline |
| Engine.PlanFailsIff | src/core/orchestrator.py:80-105 | a concluded plan carries an "error" entry exactly when some step halts the chain or the plan overruns the deadline |
| Engine.NoPermitTimesOut | src/core/orchestrator.py:42 | when other tasks hold every permit, the first step never acquires a permit and runs no attempt, no later step starts, and the task ends with "Task timeout" |
| Engine.ExampleNodeA | src/core/orchestrator.py:184-205 | a step that succeeds at once with one permit free goes on after 0.01 s and is recorded COMPLETED |
| Engine.ExampleNodeB | src/core/orchestrator.py:184-215 | a step that always fails, with 2 retries spaced 0.1 s and 0.2 s apart, stops with "boom" after 0.3 s, FAILED with `retry_count = 2` |
| Engine.ExampleRest | src/core/orchestrator.py:163-177 | a plan made of that failing step alone aborts with "boom", keeping every other step's record |
| Engine.ExamplePlan | src/core/orchestrator.py:118-177 | in the two-step plan "a" then "b", "a" ends COMPLETED and "b" FAILED with `retry_count = 2`; both ran, the plan aborts with "boom" and 0.31 s pass |
| Engine.TwoStepExample | src/core/orchestrator.py:54-105 | that task runs both steps and returns with "error" = "boom" and "status" = "failed" |
| Engine.CancelTask | src/core/orchestrator.py:237-245 | cancel answers true exactly for a running task, removes only that task and changes nothing else |
| Engine.GetTaskStatus | src/core/orchestrator.py:217-235 | a stored task gets a report with its metadata, its status (or "running" when none is recorded) and one summary per step with that step's status, execution time, retry count and error; an unknown task gets nothing |
| Engine.NothingTracked | src/core/orchestrator.py:36-37 | on an engine built by the constructor, whatever operations follow, cancel answers false and a status query answers nothing |
| Engine.ApplyKeepsMapsEmpty | src/core/orchestrator.py:36-37 | no public operation ever puts an entry into the running-task or task-result maps |

## Left out

- **LangGraph.** `StateGraph`, `MemorySaver`, checkpoint thread ids and `ainvoke` are left out. The compiled graph is modelled as the chain it builds, run as a fold over the steps. `ainvoke` returning a dict rather than an `AgentState` is not modelled.
- **asyncio concurrency.** `wait_for` cancellation, interleavings and real sleeping are left out. Other tasks appear only as a fixed number of permits they hold throughout. A task that finds no permit free waits forever and ends at its deadline.
- **Clocks and floating point.** `time.time()` and float arithmetic are modelled with exact reals. Each attempt's duration comes from the script, and the clock reading is a parameter.
- Engine.Conclude: a plan that ends exactly at the deadline counts as finished. A step in flight at the deadline counts as run only if it started by then. asyncio's race at the boundary is not modelled.
- Engine.RunNode: a successful attempt hands back only new shared data, not a whole new state object. It models the state's `shared_data` and its `agent_results` entry. Partial writes by a failing attempt are not modelled.
- **The cache key's hash.** MD5 over `json.dumps` is treated as an injective encoding of the tool name and the sorted argument pairs.
- Text.Upper: upper-cases ASCII letters only. Unicode case mapping is not modelled.
- Tools.ToolConfig: the timeout is a whole number of seconds no larger than 2^53 (`Tools.Seconds`), where Python renders the float as its digits then `.0`. Fractional timeouts, and larger ones that a float cannot hold exactly, are not modelled.
- Tools.TimeoutReported: states the timeout text only for timeouts within `Tools.Seconds`.
- Fetchers.DatabaseGuard: a non-empty dict query fails with the text of Python 3.12 and later, "Database error: slice(None, 100, None)". Earlier versions report "unhashable type: 'slice'".
- Engine.PlanError: models the graph library's refusal of state keys, of repeated and reserved names and of an empty graph. Checks that only some library versions make on node names, such as reserved characters, are not modelled.
- Tools.ZeroTimeoutNeverDelivers: follows `wait_for` up to Python 3.11. From 3.12 on, a zero timeout lets the call run until it first suspends, so an `execute` that never suspends could still return its result.
- Engine.Conclude: a deadline of zero or less is compared with the elapsed time like any other. `wait_for`'s cancellation of the graph before it starts is not modelled.
- **Logging.** All logging is left out, including the traceback formatting in `execute_task`.
- **Listing operations.** `get_available_agents` and `get_available_tools` only list map keys and are not modelled.
- **Concrete agents and tools.** The agents under `src/agents/` and the bodies of the HTTP, database, file, chart and LLM tools are left out, because they are network, database and file I/O. Only the fetch tools' guards and the file tool's type inference are modelled. The database tool's mock rows are not modelled.
- **The HTTP layer, settings and `main.py`.** These are I/O plumbing around the core.
- **The fetch tools' exception handlers.** These turn I/O failures into FAILED results after the guards pass. They are not modelled, except the three that fire on a wrong-typed argument before any I/O: a non-string HTTP method, a non-string path under automatic typing, and a database query that cannot be sliced.
