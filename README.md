# hatchet-python-v2 core in Dafny

A model of the worker runtime and client layer of the Hatchet Python SDK (v2), with proofs about it.

- **The action runner** (`RunnerSpec`, `WorkerRunner`). The runner keeps a ledger of runs keyed by run id: `tasks`, `threads` and `contexts`. It also writes STARTED / COMPLETED / FAILED events to the event queue.
  - `RunnerSpec` is a pure state machine whose atomic steps are interleaved in any order:
    - an action arriving;
    - a worker thread starting;
    - a task finishing;
    - a cancel handler waking after its grace sleep.
  - `RunnerSpec` also proves an invariant of every reachable state: each created task has exactly one STARTED event, coming first. A running task has no terminal event. A task that has ended has its outcome recorded; it has exactly one terminal event unless it was cancelled, and none if it was.
  - `WorkerRunner.Runner` holds the same state in mutable fields. Each of its methods is proved to take exactly one step of that machine.
- **The run-loop manager** (`RunLoop`). Its loop awaits `get` before every item, so each item is one step (`Step`), and other steps may run between two items. Run without interruption (`Drain`), the loop forwards queued actions to the runner in FIFO order up to a STOP marker. The shutdown calls enqueue STOP and set `killing`.
- **The v2 workflow layer**:
  - `Workflows`: the `BaseWorkflow` steps and naming, and the creation options sent to the server;
  - `Hatchet`: the `step`, `on_failure_step` and `function` decorators.
- **The clients**:
  - `Loader`: configuration validation;
  - `Admin`: workflow triggering, scheduling, namespacing and gRPC error translation;
  - `Events`: pushing events, logs and stream chunks.
- **Support modules**:
  - `Wrappers`: `Option` and `Result`;
  - `Text`: ASCII case folding, first-separator splitting, integer formatting and parsing, UTF-8;
  - `Python`: Python values, exceptions and the JSON encoder, modelled as a parameter.

Several things become parameters:
- the JSON encoder (`json.dumps` and `str`);
- the JWT claim readers;
- the gRPC services (their answer to each request);
- the clock (a POSIX time as a real).

## Model

| member | source | states |
|---|---|---|
| RunnerSpec.CleanupRunId | hatchet_sdk/worker/runner/runner.py:281-289 | removes the run id from `tasks`, `threads` and `contexts`, whether or not it is present; every other run id keeps exactly its entries; events and running tasks are untouched |
| RunnerSpec.CleanupIdempotent | hatchet_sdk/worker/runner/runner.py:281-289 | cleaning up twice equals cleaning up once |
| RunnerSpec.CleanupMissing | hatchet_sdk/worker/runner/runner.py:281-289 | cleaning up a run id absent from all three maps changes nothing |
| RunnerSpec.RunWorkerId | hatchet_sdk/worker/runner/runner.py:115-116 | the worker id is taken from the first action and kept afterwards |
| RunnerSpec.Run | hatchet_sdk/worker/runner/runner.py:110-141 | the worker id is the first action's and is kept afterwards; handling one action queues at most one event and removes none |
| RunnerSpec.HandleStart | hatchet_sdk/worker/runner/runner.py:305-395 | the run's context is always stored under its run id; for a registered action one STARTED event is queued and the new task is stored under the run id and is running; an unregistered action changes nothing else |
| RunnerSpec.CancelSignal | hatchet_sdk/worker/runner/runner.py:426-441 | only the contexts and the sleeping cancel handlers change: the run's context, when there is one, is marked cancelled, no context is added or removed, and one handler for the run id starts its grace sleep |
| RunnerSpec.RunRoutes | hatchet_sdk/worker/runner/runner.py:122-141 | START_STEP_RUN starts a step run keyed by the step run id; CANCEL_STEP_RUN cancels by the step run id; START_GET_GROUP_KEY starts a group-key run keyed by the group-key run id; any other type changes nothing beyond the worker id |
| RunnerSpec.StartRegistered | hatchet_sdk/worker/runner/runner.py:305-395 | a registered action emits exactly one STARTED event carrying the action; it creates one task, runs it, and stores it and a fresh context under the run id; threads are untouched |
| RunnerSpec.StartUnregistered | hatchet_sdk/worker/runner/runner.py:315-320 | an unregistered action emits no event and creates no task, but its context is still stored |
| RunnerSpec.SerializeOutput | hatchet_sdk/worker/runner/runner.py:460-472 | never fails: a model gives its model JSON; `None` gives `""`; anything else gives its JSON encoding, or `str(output)` when encoding fails |
| RunnerSpec.ErrorWithTraceback | hatchet_sdk/worker/runner/runner.py:482-484 | the result starts with the message followed by a line break |
| RunnerSpec.FailedPayloadFirstLine | hatchet_sdk/worker/runner/runner.py:482-484 | the first line of the failure payload is exactly the exception text when that text has no line break |
| RunnerSpec.CallbackReports | hatchet_sdk/worker/runner/runner.py:143-225 | the completion callback first clears the run from all three maps, then emits nothing if cancelled; one FAILED event with payload `message + "\n" + trace` if the task raised; otherwise one COMPLETED event with the serialised result |
| RunnerSpec.RunCallback | hatchet_sdk/worker/runner/runner.py:143-225 | the run id leaves `tasks`, `threads` and `contexts`; exactly one event is appended unless the task was cancelled, and none then; running tasks and recorded outcomes are untouched |
| RunnerSpec.Retire | hatchet_sdk/worker/runner/runner.py:243-279 | the task is no longer running and its outcome is recorded; nothing else changes |
| RunnerSpec.Finish | hatchet_sdk/worker/runner/runner.py:243-279 | a task that is not running changes nothing; a running one stops running with its outcome recorded; at most one event is appended and none is removed |
| RunnerSpec.CancelFinish | hatchet_sdk/worker/runner/runner.py:441-458 | with no handler asleep for the run id nothing changes; otherwise one handler wakes, and the run id leaves `tasks`, `threads` and `contexts`; events and running tasks are untouched |
| RunnerSpec.ThreadActionFunc | hatchet_sdk/worker/runner/runner.py:228-239 | only `threads` changes, and only while the task runs; every entry afterwards is an old one or the given thread |
| RunnerSpec.FinishReports | hatchet_sdk/worker/runner/runner.py:243-289 | a finishing task stops running, its outcome is recorded, and its run id leaves the ledger (the wrapper's `finally`); at most one event is appended, a terminal one on that task's action, and it is appended exactly when the task was not cancelled |
| RunnerSpec.FinishNotLive | hatchet_sdk/worker/runner/runner.py:143-183 | a task that is not running cannot finish again: nothing changes |
| RunnerSpec.ThreadRegistration | hatchet_sdk/worker/runner/runner.py:228-239 | a synchronous task's thread is recorded under the step run id when non-empty, else under the group-key run id when non-empty, else nowhere; `tasks`, `contexts` and events are untouched |
| RunnerSpec.CancelNeverEmits | hatchet_sdk/worker/runner/runner.py:426-458 | neither half of the cancel handler emits an event or ends a task |
| RunnerSpec.CancelRun | hatchet_sdk/worker/runner/runner.py:426-458 | an uninterrupted cancel asks the run's task (if any) to cancel; it clears the run id from all three maps unconditionally, and leaves every other run id's entries as they were |
| RunnerSpec.CancelUnknown | hatchet_sdk/worker/runner/runner.py:426-458 | cancelling a run id absent from all three maps is a no-op |
| RunnerSpec.InitInv | hatchet_sdk/worker/runner/runner.py:80-89 | the empty ledger satisfies the runner invariant |
| RunnerSpec.CleanupInv | hatchet_sdk/worker/runner/runner.py:281-289 | cleanup preserves the runner invariant |
| RunnerSpec.HandleStartInv | hatchet_sdk/worker/runner/runner.py:305-395 | both start handlers preserve the runner invariant |
| RunnerSpec.CancelSignalInv | hatchet_sdk/worker/runner/runner.py:426-441 | the first half of the cancel handler preserves the runner invariant |
| RunnerSpec.CancelFinishInv | hatchet_sdk/worker/runner/runner.py:443-458 | the second half of the cancel handler preserves the runner invariant |
| RunnerSpec.ThreadInv | hatchet_sdk/worker/runner/runner.py:228-239 | thread registration preserves the runner invariant |
| RunnerSpec.RetireInv | hatchet_sdk/worker/runner/runner.py:243-289 | a running task ending, together with the wrapper's cleanup, records its outcome and keeps the runner invariant, except that a task that did not end cancelled is still owed its one terminal event |
| RunnerSpec.EmitTerminalInv | hatchet_sdk/worker/runner/runner.py:143-225 | reporting the end of a task that has stopped, did not end cancelled, and was not reported on before restores the runner invariant |
| RunnerSpec.FinishInv | hatchet_sdk/worker/runner/runner.py:143-279 | a task finishing preserves the runner invariant |
| RunnerSpec.ApplyInv | hatchet_sdk/worker/runner/runner.py:110-141 | every atomic step preserves the runner invariant |
| RunnerSpec.ExecuteInv | hatchet_sdk/worker/runner/runner.py:110-458 | every trace from a state satisfying the invariant ends in one satisfying it |
| RunnerSpec.ReachableInv | hatchet_sdk/worker/runner/runner.py:110-458 | every reachable state satisfies the runner invariant |
| RunnerSpec.ReportsInOrder | hatchet_sdk/worker/runner/runner.py:143-395 | in every reachable state, the ledger holds only running tasks under their own run ids; every created task has a STARTED event; two events on one task are a STARTED event followed by a terminal one |
| RunnerSpec.InvTerminals | hatchet_sdk/worker/runner/runner.py:143-289 | in a state satisfying the invariant, a created task has no terminal event while running; it has ended exactly when its outcome is recorded; then it has exactly one terminal event, or none if it was cancelled |
| RunnerSpec.ExactlyOneTerminal | hatchet_sdk/worker/runner/runner.py:143-395 | in every reachable state, each created task has no terminal event while running, and once ended exactly one terminal event, or none if it was cancelled |
| RunnerSpec.ApplyKeepsEvents | hatchet_sdk/worker/runner/runner.py:110-458 | every atomic step only appends to the event queue and to the record of which task each event reports on |
| RunnerSpec.ExecuteKeepsEvents | hatchet_sdk/worker/runner/runner.py:110-458 | no trace ever removes or rewrites a queued event: the queue before is a prefix of the queue after |
| RunnerSpec.RunUrl | hatchet_sdk/worker/runner/runner.py:107-108 | the URL starts with the server URL followed by `/workflow-runs/`, and ends with the tenant id |
| RunnerSpec.RunUrlParses | hatchet_sdk/worker/runner/runner.py:107-108 | the run URL gives back the workflow run id and tenant whenever the run id holds no `?` |
| RunnerSpec.SuccessfulRun | hatchet_sdk/worker/runner/runner.py:143-183 | a step that starts and returns is reported as STARTED then COMPLETED with its serialised result; it ends recorded as returned and leaves the ledger empty |
| RunnerSpec.FailedRun | hatchet_sdk/worker/runner/runner.py:143-183 | a step that raises is reported as STARTED then FAILED, with the exception text as the payload's first line |
| RunnerSpec.CancelledRun | hatchet_sdk/worker/runner/runner.py:426-458 | a step cancelled while running is reported as STARTED only; its task is asked to cancel, it ends recorded as cancelled, and the ledger is left empty |
| RunnerSpec.LateCleanupDropsNewerRun | hatchet_sdk/worker/runner/runner.py:278-289 | when two tasks run under one run id, the older one's cleanup removes the newer one's ledger entry while it still runs |
| WorkerRunner.Runner.constructor | hatchet_sdk/worker/runner/runner.py:64-89 | the worker name is the namespace followed by the name; the ledger and event queue start empty |
| WorkerRunner.Runner.CleanupRunId | hatchet_sdk/worker/runner/runner.py:281-289 | deletes each key only if present, and performs exactly `RunnerSpec.CleanupRunId` |
| WorkerRunner.Runner.Emit | hatchet_sdk/worker/runner/runner.py:158-183 | appends exactly one event to the queue |
| WorkerRunner.Runner.HandleStart | hatchet_sdk/worker/runner/runner.py:305-395 | performs exactly `RunnerSpec.HandleStart` |
| WorkerRunner.Runner.HandleStartStepRun | hatchet_sdk/worker/runner/runner.py:305-344 | performs the start step for a step run and keeps the runner invariant |
| WorkerRunner.Runner.HandleStartGroupKeyRun | hatchet_sdk/worker/runner/runner.py:346-395 | performs the start step for a group-key run and keeps the runner invariant |
| WorkerRunner.Runner.HandleCancelAction | hatchet_sdk/worker/runner/runner.py:426-441 | flags the context if present, enters the grace sleep, and keeps the runner invariant |
| WorkerRunner.Runner.FinishCancelAction | hatchet_sdk/worker/runner/runner.py:443-458 | after the sleep, asks the task to cancel and clears the run id; keeps the runner invariant |
| WorkerRunner.Runner.Run | hatchet_sdk/worker/runner/runner.py:110-141 | performs exactly `RunnerSpec.Run` and keeps the runner invariant |
| WorkerRunner.Runner.ThreadActionFunc | hatchet_sdk/worker/runner/runner.py:228-239 | performs exactly `RunnerSpec.ThreadActionFunc` and keeps the runner invariant |
| WorkerRunner.Runner.RunCallback | hatchet_sdk/worker/runner/runner.py:143-225 | performs exactly `RunnerSpec.RunCallback` |
| WorkerRunner.Runner.Finish | hatchet_sdk/worker/runner/runner.py:243-289 | the wrapper's cleanup followed by the callback; keeps the runner invariant |
| WorkerRunner.Runner.Step | hatchet_sdk/worker/runner/runner.py:110-458 | one atomic step; keeps the runner invariant |
| WorkerRunner.Runner.Steps | hatchet_sdk/worker/runner/runner.py:110-458 | a sequence of steps; keeps the runner invariant |
| WorkerRunner.Runner.WaitForTasks | hatchet_sdk/worker/runner/runner.py:474-479 | the wait itself changes nothing; it keeps polling while `tasks` is non-empty and stops the first time it finds it empty |
| RunLoop.Dispatch | hatchet_sdk/worker/runner/run_loop_manager.py:92-99 | the contract only bounds the unconsumed part of the queue by the queue; what is forwarded and consumed is stated by `RunLoop.DispatchFifo` and `RunLoop.DispatchKilling` |
| RunLoop.DispatchFifo | hatchet_sdk/worker/runner/run_loop_manager.py:92-99 | without `killing`, the loop forwards the actions before the first STOP in queue order; it consumes that STOP and nothing after it, or waits if there is no STOP |
| RunLoop.DispatchKilling | hatchet_sdk/worker/runner/run_loop_manager.py:92-93 | once `killing` is true at the loop check, nothing is dequeued; a loop already blocked in `get` takes at most that one item |
| RunLoop.DispatchUnkilled | hatchet_sdk/worker/runner/run_loop_manager.py:92-93 | without `killing`, the loop check lets the loop through, so being before or past it makes no difference |
| RunLoop.StopsAdded | hatchet_sdk/worker/runner/run_loop_manager.py:69-120 | shutdown calls only append STOP markers: one per forceful call, plus one if the first call is graceful and `killing` was false; `killing` becomes true at the first call |
| RunLoop.WorkerActionRunLoopManager.constructor | hatchet_sdk/worker/runner/run_loop_manager.py:27-44 | no runner, `killing` false, loop not started |
| RunLoop.WorkerActionRunLoopManager.Put | hatchet_sdk/worker/runner/run_loop_manager.py:34 | appends one item to the action queue |
| RunLoop.WorkerActionRunLoopManager.Cleanup | hatchet_sdk/worker/runner/run_loop_manager.py:69-73 | sets `killing` and enqueues exactly one STOP |
| RunLoop.WorkerActionRunLoopManager.ExitGracefully | hatchet_sdk/worker/runner/run_loop_manager.py:105-116 | does nothing if `killing` is set, otherwise cleans up once |
| RunLoop.WorkerActionRunLoopManager.ExitForcefully | hatchet_sdk/worker/runner/run_loop_manager.py:118-120 | cleans up unconditionally |
| RunLoop.WorkerActionRunLoopManager.Step | hatchet_sdk/worker/runner/run_loop_manager.py:92-103 | one iteration: the awaited `get` takes the head of the queue; STOP ends the loop with the runner untouched; an action is run by the runner (exactly `RunnerSpec.Run`), then `killing` either ends the loop or the loop awaits `get` again; on an empty queue nothing changes; the runner invariant is kept |
| RunLoop.WorkerActionRunLoopManager.Drain | hatchet_sdk/worker/runner/run_loop_manager.py:92-103 | steps run with nothing between them forward exactly the actions `Dispatch` forwards through the runner, leave the rest of the queue, and keep the runner invariant |
| RunLoop.WorkerActionRunLoopManager.StartActionLoop | hatchet_sdk/worker/runner/run_loop_manager.py:79-93 | builds a fresh runner in its initial state before dequeuing anything, leaves the queue alone, and ends the loop at once if `killing` is set |
| RunLoop.WorkerActionRunLoopManager.WaitForTasks | hatchet_sdk/worker/runner/run_loop_manager.py:75-77 | with a runner, does exactly what `WorkerRunner.Runner.WaitForTasks` states (the runner state after the waits, drained exactly when `tasks` is empty, busy at every earlier poll); with no runner it does nothing |
| Workflows.Names | hatchet_sdk/v2/workflows.py:311-337 | the names of an enumeration's values, in order |
| Workflows.FirstValue | hatchet_sdk/v2/workflows.py:318-323 | finds a value if and only if the name occurs, and returns a number paired with that name |
| Workflows.EnumValue | hatchet_sdk/v2/workflows.py:318-335 | succeeds if and only if the name is in the enumeration; otherwise a ValueError |
| Workflows.IsAsyncFn | hatchet_sdk/v2/workflows.py:106-107 | true exactly for coroutine functions (`asyncio.iscoroutinefunction`) |
| Workflows.IsSyncFn | hatchet_sdk/v2/workflows.py:110-111 | true exactly for the functions `IsAsyncFn` rejects, so every step function is one or the other |
| Workflows.NewStep | hatchet_sdk/v2/workflows.py:114-144 | a step records every argument, and its async flag is the function's own nature |
| Workflows.Call | hatchet_sdk/v2/workflows.py:155-167 | succeeds exactly for a sync step; an async one raises TypeError naming `acall` |
| Workflows.ACall | hatchet_sdk/v2/workflows.py:169-182 | succeeds exactly for an async step; a sync one raises TypeError naming `call` |
| Workflows.CallOrACall | hatchet_sdk/v2/workflows.py:106-182 | for a step built by its constructor, exactly one of `call` and `acall` succeeds |
| Workflows.StepsOfType | hatchet_sdk/v2/workflows.py:217-223 | every step returned has the requested type |
| Workflows.StepsOfTypeAppend | hatchet_sdk/v2/workflows.py:217-223 | selection by type distributes over concatenation of the class attributes, keeping declaration order |
| Workflows.StepsOfTypeMembership | hatchet_sdk/v2/workflows.py:217-223 | a step is selected if and only if it is a class attribute of that type |
| Workflows.StepsPartition | hatchet_sdk/v2/workflows.py:217-238 | the three selections together hold exactly the class's steps, as a multiset |
| Workflows.StepsOfTypeOfSteps | hatchet_sdk/v2/workflows.py:233-238 | filtering steps that all have the type keeps them all |
| Workflows.FilterType | hatchet_sdk/v2/workflows.py:217-223 | filtering keeps only steps of the type |
| Workflows.FilterTypeAppend | hatchet_sdk/v2/workflows.py:237-238 | filtering distributes over concatenation |
| Workflows.FilterOtherType | hatchet_sdk/v2/workflows.py:237-238 | filtering steps of other types gives nothing |
| Workflows.ValidatePriority | hatchet_sdk/v2/workflows.py:300-309 | `None` and 0 give `None`; any other value is clamped into [1, 3] |
| Workflows.ValidatePriorityIdempotent | hatchet_sdk/v2/workflows.py:300-309 | validating twice equals validating once |
| Workflows.ValidateConcurrencyAsWritten | hatchet_sdk/v2/workflows.py:311-325 | as written: a strategy succeeds only if its name is a sticky-strategy name |
| Workflows.ValidateConcurrency | hatchet_sdk/v2/workflows.py:311-325 | corrected: `None` gives `None`; a strategy succeeds if and only if its name is in the concurrency-limit enumeration, giving its number |
| Workflows.ConcurrencyAsWrittenRejectsEvery | hatchet_sdk/v2/workflows.py:321 | with the real enumerations, the code as written rejects every concurrency strategy and the corrected version accepts every one |
| Workflows.ValidateSticky | hatchet_sdk/v2/workflows.py:327-337 | `None` gives `None`; a strategy succeeds if and only if its name is in the sticky enumeration, giving its number |
| Workflows.StepOpts | hatchet_sdk/v2/workflows.py:362-378 | step options: the readable id is the name; the action is `service:name`; the timeout is the step's, or `"60s"` when that is empty; parents, retries, rate limits, labels and both backoff settings are copied |
| Workflows.MapStepOpts | hatchet_sdk/v2/workflows.py:362-378 | one option record per step, in order |
| Workflows.WorkflowConfig.constructor | hatchet_sdk/v2/workflows.py:80-93 | records every field |
| Workflows.BaseWorkflow.constructor | hatchet_sdk/v2/workflows.py:209-212 | an empty configured name becomes the class name, written into the shared config |
| Workflows.BaseWorkflow.ServiceName | hatchet_sdk/v2/workflows.py:214-215 | the namespace followed by the lower-cased workflow name |
| Workflows.BaseWorkflow.Steps | hatchet_sdk/v2/workflows.py:237-238 | the DEFAULT steps, then the concurrency actions, then the ON_FAILURE steps, each in class order; as a multiset, exactly the class's step attributes |
| Workflows.BaseWorkflow.DefaultOfSteps | hatchet_sdk/v2/workflows.py:233-238 | the DEFAULT steps of `steps` are exactly `default_steps`, in order |
| Workflows.BaseWorkflow.CreateActionName | hatchet_sdk/v2/workflows.py:240-241 | the service name, `:`, then the step name |
| Workflows.BaseWorkflow.GetName | hatchet_sdk/v2/workflows.py:243-244 | the namespace followed by the workflow name |
| Workflows.BaseWorkflow.ValidateConcurrencyActions | hatchet_sdk/v2/workflows.py:246-273 | an action together with an expression raises ValueError; otherwise the first concurrency action is used: action `service:name`, no expression, its max runs, and its limit strategy validated by the corrected `ValidateConcurrency` and sent as its enum number (or none); otherwise the expression; otherwise `None` |
| Workflows.BaseWorkflow.ValidateOnFailureSteps | hatchet_sdk/v2/workflows.py:275-298 | `None` if and only if there is no on-failure step; otherwise one job named `name-on-failure` built from the first one: no parents, no labels, its timeout or `"60s"`, its retries, rate limits and backoff settings |
| Workflows.BaseWorkflow.GetCreateOpts | hatchet_sdk/v2/workflows.py:339-383 | fails exactly when the concurrency validation (the corrected one) or the sticky validation fails; event triggers are namespace-prefixed one for one, in order; the one job's steps are exactly `MapStepOpts` of the DEFAULT steps in class order |
| Workflows.SharedConfigNaming | hatchet_sdk/v2/workflows.py:209-212 | two subclasses sharing the class-level config both take the first subclass's name |
| Hatchet.TransformDesiredWorkerLabel | hatchet_sdk/v2/hatchet.py:47-55 | copies required, weight and comparator; an int value sets only `intValue`, any other only `strValue` |
| Hatchet.TransformLabels | hatchet_sdk/v2/hatchet.py:161-164 | the same key set, each value transformed |
| Hatchet.RateLimitRequests | hatchet_sdk/v2/hatchet.py:160 | keeps exactly the limits that have a request |
| Hatchet.RateLimitRequestsAppend | hatchet_sdk/v2/hatchet.py:160 | the selection distributes over concatenation, so order is kept |
| Hatchet.StepName | hatchet_sdk/v2/hatchet.py:156 | the lower-cased name, or the lower-cased function name when the name is empty |
| Hatchet.DecoratedStep | hatchet_sdk/v2/hatchet.py:152-167 | a step with the given type, the derived name, timeout, parents and retries, the filtered limits, every label transformed under its own key, and both backoff settings |
| Hatchet.HatchetStep | hatchet_sdk/v2/hatchet.py:141-169 | `step` builds a DEFAULT step |
| Hatchet.HatchetOnFailureStep | hatchet_sdk/v2/hatchet.py:171-199 | `on_failure_step` builds an ON_FAILURE step |
| Hatchet.OnFailureStepDiffersOnlyInType | hatchet_sdk/v2/hatchet.py:141-199 | the two decorators build the same step apart from its type |
| Hatchet.Function | hatchet_sdk/v2/hatchet.py:201-248 | the workflow is named `name or func.__name__`; it has exactly one step, a DEFAULT step named after the workflow in lower case, with retries 0, no parents, rate limits or worker labels, and no backoff settings |
| Loader.TlsServerName | hatchet_sdk/loader.py:19-26 | never empty: the environment override, else the host before the first `:`, else `"localhost"` |
| Loader.LoadTlsConfig | hatchet_sdk/loader.py:19-34 | the strategy defaults to `"tls"`, the files come from the environment, and the server name is `TlsServerName` of the environment and host |
| Loader.ValidateToken | hatchet_sdk/loader.py:106-112 | an empty token raises ValueError("Token must be set"); any other is kept |
| Loader.ValidateNamespace | hatchet_sdk/loader.py:144-153 | empty stays empty; an input already ending in `_` is only lower-cased; any other non-empty input is lower-cased with one `_` appended; the result is lower-case and ends with `_` |
| Loader.ValidateNamespaceIdempotent | hatchet_sdk/loader.py:144-153 | validating twice equals validating once |
| Loader.ValidateNamespaceFixedPoints | hatchet_sdk/loader.py:144-153 | a validated namespace is unchanged by validation |
| Loader.ValidateListenerTimeout | hatchet_sdk/loader.py:133-142 | `None` stays `None`, an int is kept, a string is parsed to an int or the call fails |
| Loader.ListenerTimeoutRoundTrip | hatchet_sdk/loader.py:133-142 | a formatted integer parses back to itself |
| Loader.ValidateTenantId | hatchet_sdk/loader.py:155-166 | a non-empty tenant is kept; with no tenant and no token it raises; otherwise the tenant comes from the token |
| Loader.ValidateHostPort | hatchet_sdk/loader.py:168-181 | a non-default host and port is kept; the default one needs a token; with one, it succeeds exactly when the token decodes, giving its broadcast address, and otherwise raises the decoder's error |
| Loader.ValidateServerUrl | hatchet_sdk/loader.py:183-201 | a non-default host and port becomes the server URL; otherwise a token is needed; with one, it succeeds exactly when the token decodes, giving its server URL, and otherwise raises the decoder's error |
| Loader.ServerUrlIgnoresItsInput | hatchet_sdk/loader.py:183-201 | the given server URL never affects the result |
| Loader.ValidateTlsConfig | hatchet_sdk/loader.py:203-213 | the given TLS config is replaced by the one loaded for the host and port |
| Loader.ResolveAddresses | hatchet_sdk/loader.py:116-131 | a non-default host and port becomes the server URL; the default one is replaced from the token, whose decoding error is raised; an empty TLS server name is filled from the host, else `"localhost"` |
| Loader.ClientConfig.constructor | hatchet_sdk/loader.py:60-105 | records every field |
| Loader.ClientConfig.ValidateAddresses | hatchet_sdk/loader.py:114-131 | updates host, server URL and TLS server name as `ResolveAddresses` says; the other fields are unchanged |
| Admin.ApplyNamespace | hatchet_sdk/clients/admin.py:304-307 | prefixes with the effective namespace (`Python.NamespaceOr`) exactly when it is non-empty and the name does not start with the client namespace |
| Admin.ApplyNamespaceIdempotent | hatchet_sdk/clients/admin.py:304-307 | without a per-call namespace, prefixing twice equals prefixing once |
| Admin.EmptyClientNamespaceNeverPrefixes | hatchet_sdk/clients/admin.py:304-307 | with an empty client namespace no name is ever prefixed, even when a per-call namespace is given |
| Admin.CallNamespaceStacks | hatchet_sdk/clients/admin.py:304-307 | for any name and non-empty per-call namespace, when neither the name nor the once-prefixed name starts with the client namespace, prefixing twice stacks the per-call namespace twice |
| Admin.CallNamespaceStacksExample | hatchet_sdk/clients/admin.py:304-307 | "wf" with per-call namespace "a_" on a "b_" client becomes "a_a_wf" |
| Admin.PrepareWorkflowRequestAsWritten | hatchet_sdk/clients/admin.py:82-105 | as written: an encoding failure escapes as the encoder's own error |
| Admin.PrepareWorkflowRequest | hatchet_sdk/clients/admin.py:82-105 | corrected: succeeds exactly when input and metadata encode; the failure is ValueError("Error encoding payload: ..."); the request carries the name, the encoded input and the options' fields, and its metadata bytes decode back to the metadata's JSON |
| Admin.PrepareAsWrittenLeaksEncoderError | hatchet_sdk/clients/admin.py:98-105 | whenever encoding fails, the corrected version gives ValueError("Error encoding payload: ...") where the code as written lets the encoder's own exception escape (`JsonEncodeError`: a TypeError, or for a circular value a ValueError carrying the encoder's message); otherwise both agree |
| Admin.ParseSchedule | hatchet_sdk/clients/admin.py:122-135 | a timestamp is kept, a datetime is converted, and anything else is a ValueError |
| Admin.ParseSchedules | hatchet_sdk/clients/admin.py:137-151 | succeeds exactly when every schedule parses; the results are in order |
| Admin.PrepareScheduleWorkflowRequest | hatchet_sdk/clients/admin.py:137-151 | succeeds exactly when every schedule parses and the input encodes; schedule errors come first, then the unwrapped encoding error; the request carries the name, the parsed schedules, the encoded input, and the parent id, parent step run id, child index, child key and namespace of the options |
| Admin.TranslateRpcError | hatchet_sdk/clients/admin.py:286-290 | ALREADY_EXISTS becomes DedupeViolationErr with the same details; any other code is re-raised unchanged |
| Admin.PrepareWorkflowRunRequest | hatchet_sdk/clients/admin.py:330-344 | each workflow is namespaced and prepared with its own options, by the corrected `PrepareWorkflowRequest` |
| Admin.BatchOptionsIgnored | hatchet_sdk/clients/admin.py:330-344 | the batch `options` argument never affects the request |
| Admin.PrepareWorkflowRunRequests | hatchet_sdk/clients/admin.py:346-365 | succeeds exactly when every workflow's request does; one request per workflow, in order; a failure is a ValueError, as the corrected `PrepareWorkflowRequest` makes it |
| Admin.RunRefs | hatchet_sdk/clients/admin.py:366-373 | one ref per returned run id, in response order, all on the pooled listener |
| Admin.RunWorkflowResult | hatchet_sdk/clients/admin.py:294-328 | request errors (of the corrected preparation), then RPC errors translated as above, else a ref to the returned run id |
| Admin.ScheduleWorkflowResult | hatchet_sdk/clients/admin.py:262-292 | request errors, then RPC errors translated, else the server's reply |
| Admin.RunWorkflowsResult | hatchet_sdk/clients/admin.py:346-373 | request errors (of the corrected preparation), else RPC errors re-raised without dedupe translation, else exactly one ref per returned id |
| Admin.AdminClient.constructor | hatchet_sdk/clients/admin.py:72-80 | no pooled listener yet |
| Admin.AdminClient.EnsureListener | hatchet_sdk/clients/admin.py:301-302 | creates the pooled listener only when absent, and reuses it afterwards |
| Admin.AdminClient.RunWorkflow | hatchet_sdk/clients/admin.py:294-328 | ensures the listener, then gives `RunWorkflowResult`, built on the corrected preparation |
| Admin.AdminClient.ScheduleWorkflow | hatchet_sdk/clients/admin.py:262-292 | gives `ScheduleWorkflowResult` |
| Admin.AdminClient.RunWorkflows | hatchet_sdk/clients/admin.py:346-373 | ensures the listener, then gives `RunWorkflowsResult`, built on the corrected preparation |
| Admin.AdminClient.GetWorkflowRun | hatchet_sdk/clients/admin.py:375-383 | a ref to the given id on the pooled listener |
| Admin.ListenerShared | hatchet_sdk/clients/admin.py:375-383 | successive calls share one listener, created once |
| Events.PushRequest | hatchet_sdk/clients/events.py:79-104 | the key is the effective namespace followed by the event key, with no check; metadata is encoded first (failure: ValueError "Error encoding meta: ..."), then the payload (failure: ValueError "Error encoding payload: ..."); the request carries the encoded payload, the timestamp, and the encoded metadata, or none when there is none |
| Events.Push | hatchet_sdk/clients/events.py:79-106 | sends the prepared request, or raises its error |
| Events.CreatePushEventRequest | hatchet_sdk/clients/events.py:108-133 | succeeds exactly when metadata and payload encode; the key is namespace followed by key; a metadata failure gives ValueError "Error encoding meta: ...", then a payload failure ValueError "Error encoding payload: ..." |
| Events.BulkPushRequests | hatchet_sdk/clients/events.py:144-148 | one request per input event, in order, all with the same namespace; a failure is a ValueError |
| Events.BulkPushFirstError | hatchet_sdk/clients/events.py:144-148 | a failed preparation raises the error of the first event whose request fails; every earlier event's request was built |
| Events.BulkPushKeysNamespaced | hatchet_sdk/clients/events.py:142-148 | every bulk key is the effective namespace followed by that event's key |
| Events.BulkPush | hatchet_sdk/clients/events.py:137-155 | sends one bulk request, or raises the preparation error (the first event's, by `Events.BulkPushFirstError`) |
| Events.LogRequest | hatchet_sdk/clients/events.py:157-164 | carries the message, the step run id and the current time |
| Events.StreamRequest | hatchet_sdk/clients/events.py:166-180 | a str is UTF-8 encoded (it decodes back), bytes pass unchanged, anything else raises ValueError("Invalid data type. Expected str, bytes, or file.") |
| Python.NamespaceOr | hatchet_sdk/clients/admin.py:270 | `options.namespace or self.namespace`, shared by the admin calls (admin.py:304, :337) and the event pushes (events.py:85, :142): a given non-empty per-call namespace wins, otherwise the client's; the result is empty exactly when neither is set |
| Python.TimestampOf | hatchet_sdk/clients/events.py:31-36 | nanoseconds lie in [0, 10^9); for non-negative times, seconds plus nanoseconds is the time truncated to the nanosecond |

## Left out

- Real concurrency. Asyncio scheduling, `run_in_executor`, the thread pool and `contextvars` copying are reduced to atomic steps that interleave in any order. `asyncio.create_task` in `run` is folded into the action's step: the start handler runs at once up to its first suspension.
- A worker thread registers only while its task is running (`ThreadActionFunc`). In the code the thread may start after a cancellation has already cleaned up the run id. The model does not capture a thread registering after cleanup.
- The wrapper's `finally` and the done callback run as one step (`Finish`). Nothing the event loop runs between them is modelled.
- The outcome of a task that was asked to cancel is left free (`Finish`). The model does not force such a task to end cancelled, because the step function may catch the cancellation.
- `force_kill_thread`, tracing spans, logging and the warning about a still-running thread. They do not affect the ledger or the event queue.
- The exception message and its formatted traceback are inputs (`Raised(message, trace)`). Python's `traceback.format_exception` is not part of this model.
- The run loop's awaited `action_queue.get` becomes the `Waiting` phase, and `Step` is that `get` returning the head of the queue. The multiprocessing queue's own behaviour (a worker thread blocking in `get`, delivery across processes) is not modelled.
- `Step` runs the action and the next `killing` check as one step. No `await` lies between them in the code, so nothing can run in between.
- `capture_logs`, `start`/`async_start` of the run-loop manager, and the manager's debug logging. They only schedule the loop.
- `aio_*` wrappers, `tenacity_retry`, `put_workflow`, `put_rate_limit`, `_prepare_put_workflow_request` and protobuf `MergeFrom`. They are thin delegations, retries or protobuf plumbing outside the named core.
- `WorkflowRunRef`'s event listener and the REST client. A ref is modelled as the run id plus the pooled listener it will be awaited on.
- The generated protobuf modules. The enumerations `StickyStrategy` and `ConcurrencyLimitStrategy` are numbered in declaration order.
- `Lower` folds only ASCII letters, `Strip` removes only ASCII whitespace, and `ParseInt` accepts only ASCII digits. Python's full Unicode case folding, whitespace and digit classes are not modelled.
- `Utf8Encode` assumes characters are Unicode scalar values. Strings holding lone surrogates, which Python refuses to encode, are not modelled.
- Python.TimestampOf states its bound for non-negative times only. Floating-point rounding is not modelled, since times are reals.
- Exceptions that are `BaseException` but not `Exception` (cancellation, `KeyboardInterrupt`). Apart from task cancellation they are not modelled.
- `input_validator` and the `WorkflowDeclaration` wrapper. They do not affect the registered workflow.
- Mutable default arguments shared between calls (`parents=[]`, `rate_limits=[]`). Every call gets fresh values.
- The text of error messages built from an exception's `str()`. These are approximated by the encoder's error string.
- Workflows.ValidateConcurrencyAsWritten, Workflows.ValidateConcurrency and Workflows.ValidateSticky: the message text is approximated. The code interpolates the repr of the Python list of names (`['SOFT', 'HARD']`); the model writes the enumeration's name followed by "names". The rejected member is interpolated as Python formats it, which depends on the Python version; the model writes its name.
- Loader.ValidateListenerTimeout: the message text is approximated. Python's `int()` quotes the rejected string with `repr`; the model appends it unquoted.
- Workflows.BaseWorkflow.ValidateConcurrencyActions: follows the corrected `validate_concurrency` (Workflows.ValidateConcurrency) of the first finding. The code as written at hatchet_sdk/v2/workflows.py:262 rejects every concurrency action's strategy.
- Workflows.BaseWorkflow.GetCreateOpts: follows the corrected `validate_concurrency` through `ValidateConcurrencyActions`. As written, any workflow whose first concurrency action has a limit strategy fails here with ValueError; one whose first concurrency action has no limit strategy passes in both.
- Admin.PrepareWorkflowRunRequest: follows the corrected `_prepare_workflow_request` (Admin.PrepareWorkflowRequest) of the second finding. As written, an encoding failure escapes as the encoder's own exception (a TypeError, or a ValueError without the "Error encoding payload" message for a circular value).
- Admin.PrepareWorkflowRunRequests: follows the corrected `_prepare_workflow_request`. Its "a failure is a ValueError" holds only for the corrected preparation.
- Admin.RunWorkflowResult: follows the corrected `_prepare_workflow_request`. As written, an encoding failure escapes `run_workflow` as the encoder's own exception.
- Admin.RunWorkflowsResult: follows the corrected `_prepare_workflow_request`. As written, the same escape happens in `run_workflows`.
- Admin.AdminClient.RunWorkflow: follows the corrected `_prepare_workflow_request`, through `RunWorkflowResult`.
- Admin.AdminClient.RunWorkflows: follows the corrected `_prepare_workflow_request`, through `RunWorkflowsResult`.
- `BaseWorkflowImpl`, which `hatchet.py` imports but which `v2/workflows.py` does not define. The model treats it as `BaseWorkflow`.

## Findings

| source | as written | input that shows it | evidently intended | confidence | as-written member | corrected member |
|---|---|---|---|---|---|---|
| hatchet_sdk/v2/workflows.py:321 | `validate_concurrency` looks the concurrency strategy's name up in the sticky-strategy enumeration | any `ConcurrencyLimitStrategy`, e.g. `CANCEL_IN_PROGRESS`: its name is not SOFT or HARD, so the lookup raises ValueError | look the name up in the concurrency-limit enumeration | not executed | Workflows.ValidateConcurrencyAsWritten | Workflows.ValidateConcurrency |
| hatchet_sdk/clients/admin.py:98-105 | the `except` clauses around `json.dumps` catch `json.JSONDecodeError`, which encoding never raises | an input dict holding a non-serialisable value: `json.dumps` raises TypeError, which escapes instead of becoming "Error encoding payload" | catch the encoder's TypeError and ValueError and raise ValueError("Error encoding payload: ...") | not executed | Admin.PrepareWorkflowRequestAsWritten | Admin.PrepareWorkflowRequest |
