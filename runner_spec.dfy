/** The worker action runner of hatchet_sdk/worker/runner/runner.py as a
    sequential state machine. The event loop's concurrency is reduced to
    atomic steps: an action arriving (`run`, with the start handler it
    schedules run to its first suspension), a worker thread starting a
    synchronous step, a task finishing (the wrapper's `finally` followed by
    its done callback), and a cancel handler waking up after its grace
    sleep. Any interleaving of these steps is a trace. */
module RunnerSpec {
  import opened Wrappers
  import opened Text
  import opened Python
  import Workflows

  type RunId = string

  /** Tasks are numbered in creation order. */
  type TaskId = nat

  datatype ActionType = StartStepRun | CancelStepRun | StartGetGroupKey | OtherActionType(code: int)

  /** The fields of a dispatcher action the runner reads. */
  datatype Action = Action(
    workerId: string, tenantId: string, workflowRunId: string, getGroupKeyRunId: string,
    stepId: string, stepRunId: string, actionId: string, actionType: ActionType, retryCount: int)

  /** The two kinds of run a start action begins. */
  datatype RunKind = StepRun | GroupKeyRun

  /** The ledger key of a run of the given kind. */
  function RunIdOf(a: Action, k: RunKind): RunId
  {
    match k
    case StepRun => a.stepRunId
    case GroupKeyRun => a.getGroupKeyRunId
  }

  datatype EventType =
    | StepStarted | StepCompleted | StepFailed
    | GroupKeyStarted | GroupKeyCompleted | GroupKeyFailed

  function StartedType(k: RunKind): EventType
  {
    match k
    case StepRun => StepStarted
    case GroupKeyRun => GroupKeyStarted
  }

  function CompletedType(k: RunKind): EventType
  {
    match k
    case StepRun => StepCompleted
    case GroupKeyRun => GroupKeyCompleted
  }

  function FailedType(k: RunKind): EventType
  {
    match k
    case StepRun => StepFailed
    case GroupKeyRun => GroupKeyFailed
  }

  function KindOf(t: EventType): RunKind
  {
    match t
    case StepStarted => StepRun
    case StepCompleted => StepRun
    case StepFailed => StepRun
    case _ => GroupKeyRun
  }

  predicate IsStarted(t: EventType) { t == StepStarted || t == GroupKeyStarted }

  predicate IsTerminal(t: EventType) { !IsStarted(t) }

  /** What the runner puts on the event queue. */
  datatype ActionEvent = ActionEvent(action: Action, eventType: EventType, payload: string)

  /** A step context, as far as the runner touches it. */
  datatype Context = Context(action: Action, cancelled: bool)

  /** The registry of step handlers by action id. */
  type Registry = map<string, Workflows.Step>

  /** A task created by a start handler. */
  datatype Launch = Launch(action: Action, kind: RunKind, isAsync: bool)

  function LaunchRunId(l: Launch): RunId { RunIdOf(l.action, l.kind) }

  /** How a task ended: its step returned a value, raised an exception
      (its `str()` and its formatted traceback), or was cancelled. */
  datatype Outcome = Returned(value: PyValue) | Raised(message: string, trace: string) | Cancelled

  /** The runner's fields (`tasks`, `threads`, `contexts`, the worker id, the
      event queue) together with what the event loop knows: every task
      created so far, which task each queued event reports on, the tasks not
      yet done, how each done task ended, the tasks asked to cancel, and the
      cancel handlers inside their grace sleep. */
  datatype State = State(
    workerId: Option<string>,
    tasks: map<RunId, TaskId>,
    threads: map<RunId, nat>,
    contexts: map<RunId, Context>,
    events: seq<ActionEvent>,
    launched: seq<Launch>,
    sources: seq<TaskId>,
    live: set<TaskId>,
    finished: map<TaskId, Outcome>,
    cancelRequested: set<TaskId>,
    sleepingCancels: multiset<RunId>)

  function Init(): State
  {
    State(None, map[], map[], map[], [], [], [], {}, map[], {}, multiset{})
  }

  // ---------------------------------------------------------------------------
  // The operations

  /** `cleanup_run_id`. */
  function CleanupRunId(s: State, r: RunId): (s': State)
    ensures r !in s'.tasks && r !in s'.threads && r !in s'.contexts
    ensures forall q :: q != r ==> (q in s'.tasks <==> q in s.tasks) && (q in s'.threads <==> q in s.threads)
                                    && (q in s'.contexts <==> q in s.contexts)
    ensures forall q :: q != r && q in s.tasks ==> s'.tasks[q] == s.tasks[q]
    ensures forall q :: q != r && q in s.threads ==> s'.threads[q] == s.threads[q]
    ensures forall q :: q != r && q in s.contexts ==> s'.contexts[q] == s.contexts[q]
    ensures s'.events == s.events && s'.live == s.live && s'.launched == s.launched
  {
    s.(tasks := s.tasks - {r}, threads := s.threads - {r}, contexts := s.contexts - {r})
  }

  /** `event_queue.put`, remembering which task the event reports on. */
  function Emit(s: State, t: TaskId, e: ActionEvent): State
  {
    s.(events := s.events + [e], sources := s.sources + [t])
  }

  /** `handle_start_step_run` (kind StepRun) and `handle_start_group_key_run`
      (kind GroupKeyRun) up to their `await task`. */
  function HandleStart(s: State, a: Action, k: RunKind, registry: Registry): (s': State)
    ensures RunIdOf(a, k) in s'.contexts && s'.contexts[RunIdOf(a, k)] == Context(a, false)
    ensures a.actionId in registry ==>
              && s'.events == s.events + [ActionEvent(a, StartedType(k), "")]
              && RunIdOf(a, k) in s'.tasks && s'.tasks[RunIdOf(a, k)] == |s.launched|
              && s'.live == s.live + {|s.launched|}
    ensures a.actionId !in registry ==> s' == s.(contexts := s'.contexts)
  {
    var r := RunIdOf(a, k);
    var s1 := s.(contexts := s.contexts[r := Context(a, false)]);
    if a.actionId in registry then
      var t := |s.launched|;
      var s2 := Emit(s1, t, ActionEvent(a, StartedType(k), ""));
      s2.(launched := s2.launched + [Launch(a, k, registry[a.actionId].isAsyncFunction)],
          live := s2.live + {t},
          tasks := s2.tasks[r := t])
    else s1
  }

  /** `handle_cancel_action` up to its `asyncio.sleep(1)`. */
  function CancelSignal(s: State, r: RunId): (s': State)
    ensures s' == s.(contexts := s'.contexts, sleepingCancels := s'.sleepingCancels)
    ensures s'.sleepingCancels == s.sleepingCancels + multiset{r}
    ensures s'.contexts.Keys == s.contexts.Keys
    ensures r in s.contexts ==> s'.contexts[r].cancelled
  {
    var s1 := if r in s.contexts then s.(contexts := s.contexts[r := s.contexts[r].(cancelled := true)]) else s;
    s1.(sleepingCancels := s1.sleepingCancels + multiset{r})
  }

  /** `run`. */
  function Run(s: State, a: Action, registry: Registry): (s': State)
    ensures s'.workerId == if s.workerId.None? then Some(a.workerId) else s.workerId
    ensures s.events <= s'.events && |s'.events| <= |s.events| + 1
  {
    var s0 := if s.workerId.None? then s.(workerId := Some(a.workerId)) else s;
    match a.actionType
    case StartStepRun => HandleStart(s0, a, StepRun, registry)
    case CancelStepRun => CancelSignal(s0, a.stepRunId)
    case StartGetGroupKey => HandleStart(s0, a, GroupKeyRun, registry)
    case OtherActionType(_) => s0
  }

  /** `thread_action_func`, run by the worker thread of a synchronous task. */
  function ThreadActionFunc(s: State, t: TaskId, thread: nat): (s': State)
    ensures s' == s.(threads := s'.threads)
    ensures t !in s.live ==> s' == s
    ensures forall q :: q in s'.threads ==> (q in s.threads && s'.threads[q] == s.threads[q]) || s'.threads[q] == thread
  {
    if t in s.live && t < |s.launched| && !s.launched[t].isAsync then
      var a := s.launched[t].action;
      if a.stepRunId != "" then s.(threads := s.threads[a.stepRunId := thread])
      else if a.getGroupKeyRunId != "" then s.(threads := s.threads[a.getGroupKeyRunId := thread])
      else s
    else s
  }

  /** `serialize_output`: it never fails. */
  function SerializeOutput(output: PyValue, json: Json): (r: string)
    ensures output.PyModel? ==> r == output.modelJson
    ensures output.PyNone? ==> r == ""
    ensures !output.PyModel? && !output.PyNone? && json.dumps(output).Ok? ==> r == json.dumps(output).value
    ensures !output.PyModel? && !output.PyNone? && json.dumps(output).Err? ==> r == json.str(output)
  {
    match output
    case PyModel(text) => text
    case PyNone => ""
    case _ =>
      match json.dumps(output)
      case Ok(text) => text
      case Err(_) => json.str(output)
  }

  /** `errorWithTraceback`. */
  function ErrorWithTraceback(message: string, trace: string): (r: string)
    ensures StartsWith(r, message + "\n")
  {
    assert (message + "\n" + trace)[..|message + "\n"|] == message + "\n";
    message + "\n" + trace
  }

  /** The exception text is recovered as the payload's first line whenever
      it has no line break of its own. */
  lemma FailedPayloadFirstLine(message: string, trace: string)
    requires '\n' !in message
    ensures BeforeFirst(ErrorWithTraceback(message, trace), '\n') == message
  {
    assert ErrorWithTraceback(message, trace) == message + ['\n'] + trace;
    BeforeFirstOfJoin(message, '\n', trace);
  }

  /** `step_run_callback` / `group_key_run_callback`: cleanup first, then
      at most one event. */
  function RunCallback(s: State, t: TaskId, l: Launch, outcome: Outcome, json: Json): (s': State)
    ensures LaunchRunId(l) !in s'.tasks && LaunchRunId(l) !in s'.threads && LaunchRunId(l) !in s'.contexts
    ensures s.events <= s'.events && |s'.events| == |s.events| + (if outcome.Cancelled? then 0 else 1)
    ensures s'.live == s.live && s'.launched == s.launched && s'.finished == s.finished
  {
    var s1 := CleanupRunId(s, LaunchRunId(l));
    match outcome
    case Cancelled => s1
    case Raised(message, trace) => Emit(s1, t, ActionEvent(l.action, FailedType(l.kind), ErrorWithTraceback(message, trace)))
    case Returned(v) => Emit(s1, t, ActionEvent(l.action, CompletedType(l.kind), SerializeOutput(v, json)))
  }

  /** Task `t` is done: it leaves the running tasks and its outcome is
      recorded. */
  function Retire(s: State, t: TaskId, outcome: Outcome): (s': State)
    ensures t !in s'.live && t in s'.finished && s'.finished[t] == outcome
    ensures s' == s.(live := s'.live, finished := s'.finished)
  {
    s.(live := s.live - {t}, finished := s.finished[t := outcome])
  }

  /** Task `t` ending with `outcome`: it stops running, the `finally` of
      `async_wrapped_action_func` cleans up its run id, then the done
      callback runs. A task that is not running cannot finish. */
  function Finish(s: State, t: TaskId, outcome: Outcome, json: Json): (s': State)
    ensures !(t in s.live && t < |s.launched|) ==> s' == s
    ensures t in s.live && t < |s.launched| ==> t !in s'.live && t in s'.finished && s'.finished[t] == outcome
    ensures s.events <= s'.events && |s'.events| <= |s.events| + 1
  {
    if t in s.live && t < |s.launched| then
      var l := s.launched[t];
      var s1 := CleanupRunId(Retire(s, t, outcome), LaunchRunId(l));
      RunCallback(s1, t, l, outcome, json)
    else s
  }

  /** A cancel handler for `r` waking from its grace sleep: it asks the
      task it finds to cancel, then cleans up `r` in its `finally`. */
  function CancelFinish(s: State, r: RunId): (s': State)
    ensures r !in s.sleepingCancels ==> s' == s
    ensures r in s.sleepingCancels ==>
              && r !in s'.tasks && r !in s'.threads && r !in s'.contexts
              && s'.sleepingCancels == s.sleepingCancels - multiset{r}
    ensures s'.events == s.events && s'.live == s.live && s'.launched == s.launched
  {
    if r in s.sleepingCancels then
      var s1 := s.(sleepingCancels := s.sleepingCancels - multiset{r});
      var s2 := if r in s1.tasks then s1.(cancelRequested := s1.cancelRequested + {s1.tasks[r]}) else s1;
      CleanupRunId(s2, r)
    else s
  }

  /** One atomic step of a trace. */
  datatype Op =
    | RunOp(action: Action)
    | ThreadOp(task: TaskId, thread: nat)
    | FinishOp(task: TaskId, outcome: Outcome)
    | CancelFinishOp(runId: RunId)

  function Apply(s: State, op: Op, registry: Registry, json: Json): State
  {
    match op
    case RunOp(a) => Run(s, a, registry)
    case ThreadOp(t, th) => ThreadActionFunc(s, t, th)
    case FinishOp(t, o) => Finish(s, t, o, json)
    case CancelFinishOp(r) => CancelFinish(s, r)
  }

  /** The state after a trace. */
  function Execute(s: State, ops: seq<Op>, registry: Registry, json: Json): State
    decreases |ops|
  {
    if ops == [] then s
    else Apply(Execute(s, ops[..|ops| - 1], registry, json), ops[|ops| - 1], registry, json)
  }

  // ---------------------------------------------------------------------------
  // The invariant

  /** Each queued event names an existing task and carries that task's
      action and kind. */
  predicate EventsWellSourced(s: State)
  {
    && |s.events| == |s.sources|
    && forall i :: 0 <= i < |s.sources| ==>
         && s.sources[i] < |s.launched|
         && s.events[i].action == s.launched[s.sources[i]].action
         && KindOf(s.events[i].eventType) == s.launched[s.sources[i]].kind
  }

  /** Every ledger task is running, under its own run id. */
  predicate LedgerCoherent(s: State)
  {
    && (forall t :: t in s.live ==> t < |s.launched|)
    && forall r :: r in s.tasks ==>
         s.tasks[r] in s.live && s.tasks[r] < |s.launched| && LaunchRunId(s.launched[s.tasks[r]]) == r
  }

  predicate HasStarted(events: seq<ActionEvent>, sources: seq<TaskId>, t: TaskId)
    requires |events| == |sources|
  {
    exists i :: 0 <= i < |events| && sources[i] == t && IsStarted(events[i].eventType)
  }

  predicate EveryLaunchStarted(s: State)
    requires |s.events| == |s.sources|
  {
    forall t :: 0 <= t < |s.launched| ==> HasStarted(s.events, s.sources, t)
  }

  /** No two STARTED events report on the same task. */
  predicate StartedAtMostOnce(events: seq<ActionEvent>, sources: seq<TaskId>)
    requires |events| == |sources|
  {
    forall i, j :: 0 <= i < j < |events| && sources[i] == sources[j] ==>
      !(IsStarted(events[i].eventType) && IsStarted(events[j].eventType))
  }

  /** No two terminal events report on the same task. */
  predicate TerminalAtMostOnce(events: seq<ActionEvent>, sources: seq<TaskId>)
    requires |events| == |sources|
  {
    forall i, j :: 0 <= i < j < |events| && sources[i] == sources[j] ==>
      !(IsTerminal(events[i].eventType) && IsTerminal(events[j].eventType))
  }

  /** No terminal event precedes a STARTED event of the same task. */
  predicate StartedFirst(events: seq<ActionEvent>, sources: seq<TaskId>)
    requires |events| == |sources|
  {
    forall i, j :: 0 <= i < j < |events| && sources[i] == sources[j] ==>
      !(IsTerminal(events[i].eventType) && IsStarted(events[j].eventType))
  }

  /** A running task has not been reported finished. */
  predicate NoReportWhileLive(s: State)
    requires |s.events| == |s.sources|
  {
    forall i :: 0 <= i < |s.events| && IsTerminal(s.events[i].eventType) ==> s.sources[i] !in s.live
  }

  predicate HasTerminal(events: seq<ActionEvent>, sources: seq<TaskId>, t: TaskId)
    requires |events| == |sources|
  {
    exists i :: 0 <= i < |events| && sources[i] == t && IsTerminal(events[i].eventType)
  }

  /** The created tasks that are no longer running are exactly the ones
      with a recorded outcome. */
  predicate OutcomesRecorded(s: State)
  {
    && (forall t :: t in s.finished ==> t < |s.launched| && t !in s.live)
    && (forall t :: 0 <= t < |s.launched| && t !in s.live ==> t in s.finished)
  }

  /** A terminal event reports on a task that ended other than by
      cancellation. */
  predicate TerminalsMatchOutcomes(s: State)
    requires |s.events| == |s.sources|
  {
    forall i :: 0 <= i < |s.events| && IsTerminal(s.events[i].eventType) ==>
      s.sources[i] in s.finished && !s.finished[s.sources[i]].Cancelled?
  }

  /** Every task that ended other than by cancellation, apart from those in
      `pending`, has been reported on. */
  predicate OutcomesReported(s: State, pending: set<TaskId>)
    requires |s.events| == |s.sources|
  {
    forall t :: t in s.finished && !s.finished[t].Cancelled? && t !in pending ==> HasTerminal(s.events, s.sources, t)
  }

  /** The runner invariant, except that the tasks in `pending` may have
      ended without their terminal event yet: the moment between a task
      stopping and its callback reporting on it. */
  predicate InvPending(s: State, pending: set<TaskId>)
  {
    && EventsWellSourced(s)
    && LedgerCoherent(s)
    && EveryLaunchStarted(s)
    && StartedAtMostOnce(s.events, s.sources)
    && TerminalAtMostOnce(s.events, s.sources)
    && StartedFirst(s.events, s.sources)
    && NoReportWhileLive(s)
    && OutcomesRecorded(s)
    && TerminalsMatchOutcomes(s)
    && OutcomesReported(s, pending)
  }

  predicate Inv(s: State)
  {
    InvPending(s, {})
  }

  lemma InitInv()
    ensures Inv(Init())
  {
  }

  /** Appending a STARTED event for a task nothing has reported on yet. */
  lemma AppendStarted(events: seq<ActionEvent>, sources: seq<TaskId>, e: ActionEvent, t: TaskId)
    requires |events| == |sources| && IsStarted(e.eventType)
    requires forall i :: 0 <= i < |sources| ==> sources[i] != t
    requires StartedAtMostOnce(events, sources) && TerminalAtMostOnce(events, sources) && StartedFirst(events, sources)
    ensures StartedAtMostOnce(events + [e], sources + [t])
    ensures TerminalAtMostOnce(events + [e], sources + [t])
    ensures StartedFirst(events + [e], sources + [t])
  {
    var ev, src := events + [e], sources + [t];
    forall i, j | 0 <= i < j < |ev| && src[i] == src[j]
      ensures !(IsStarted(ev[i].eventType) && IsStarted(ev[j].eventType))
      ensures !(IsTerminal(ev[i].eventType) && IsTerminal(ev[j].eventType))
      ensures !(IsTerminal(ev[i].eventType) && IsStarted(ev[j].eventType))
    {
      assert src[i] == sources[i] && ev[i] == events[i];
      if j < |events| {
        assert ev[j] == events[j] && src[j] == sources[j];
      }
    }
  }

  /** Appending a terminal event for a task that has none yet. */
  lemma AppendTerminal(events: seq<ActionEvent>, sources: seq<TaskId>, e: ActionEvent, t: TaskId)
    requires |events| == |sources| && IsTerminal(e.eventType)
    requires forall i :: 0 <= i < |sources| && sources[i] == t ==> !IsTerminal(events[i].eventType)
    requires StartedAtMostOnce(events, sources) && TerminalAtMostOnce(events, sources) && StartedFirst(events, sources)
    ensures StartedAtMostOnce(events + [e], sources + [t])
    ensures TerminalAtMostOnce(events + [e], sources + [t])
    ensures StartedFirst(events + [e], sources + [t])
  {
    var ev, src := events + [e], sources + [t];
    forall i, j | 0 <= i < j < |ev| && src[i] == src[j]
      ensures !(IsStarted(ev[i].eventType) && IsStarted(ev[j].eventType))
      ensures !(IsTerminal(ev[i].eventType) && IsTerminal(ev[j].eventType))
      ensures !(IsTerminal(ev[i].eventType) && IsStarted(ev[j].eventType))
    {
      assert ev[i] == events[i] && src[i] == sources[i];
      if j < |events| {
        assert ev[j] == events[j] && src[j] == sources[j];
      } else {
        assert ev[j] == e && src[j] == t;
      }
    }
  }

  lemma CleanupInv(s: State, r: RunId, pending: set<TaskId>)
    requires InvPending(s, pending)
    ensures InvPending(CleanupRunId(s, r), pending)
  {
  }

  /** How a START changes the state: one STARTED report on a new task
      `t`, its launch, `t` running, and the ledger pointing `r` at it. */
  predicate AddsLaunch(s: State, s': State, e: ActionEvent, l: Launch, r: RunId)
  {
    var t := |s.launched|;
    && s'.events == s.events + [e] && s'.sources == s.sources + [t]
    && s'.launched == s.launched + [l] && s'.live == s.live + {t} && s'.tasks == s.tasks[r := t]
    && s'.finished == s.finished
    && IsStarted(e.eventType) && e.action == l.action && KindOf(e.eventType) == l.kind && LaunchRunId(l) == r
  }

  lemma AddLaunchSourced(s: State, s': State, e: ActionEvent, l: Launch, r: RunId)
    requires Inv(s) && AddsLaunch(s, s', e, l, r)
    ensures EventsWellSourced(s') && NoReportWhileLive(s')
  {
    forall i | 0 <= i < |s'.sources|
      ensures s'.sources[i] < |s'.launched|
      ensures s'.events[i].action == s'.launched[s'.sources[i]].action
      ensures KindOf(s'.events[i].eventType) == s'.launched[s'.sources[i]].kind
    {
      if i < |s.sources| {
        assert s'.sources[i] == s.sources[i] && s'.events[i] == s.events[i];
        assert s'.launched[s.sources[i]] == s.launched[s.sources[i]];
      }
    }
    forall i | 0 <= i < |s'.events| && IsTerminal(s'.events[i].eventType)
      ensures s'.sources[i] !in s'.live
    {
      assert i < |s.events|;
      assert s'.sources[i] == s.sources[i] && s'.events[i] == s.events[i];
    }
  }

  lemma AddLaunchLedger(s: State, s': State, e: ActionEvent, l: Launch, r: RunId)
    requires Inv(s) && AddsLaunch(s, s', e, l, r)
    ensures LedgerCoherent(s') && EveryLaunchStarted(s')
  {
    forall q | q in s'.tasks
      ensures s'.tasks[q] in s'.live && s'.tasks[q] < |s'.launched| && LaunchRunId(s'.launched[s'.tasks[q]]) == q
    {
      if q != r {
        assert s'.launched[s.tasks[q]] == s.launched[s.tasks[q]];
      }
    }
    forall u | 0 <= u < |s'.launched|
      ensures HasStarted(s'.events, s'.sources, u)
    {
      if u < |s.launched| {
        assert HasStarted(s.events, s.sources, u);
        var i :| 0 <= i < |s.events| && s.sources[i] == u && IsStarted(s.events[i].eventType);
        assert s'.sources[i] == u && s'.events[i] == s.events[i];
      } else {
        assert s'.sources[|s.events|] == u;
      }
    }
  }

  lemma AddLaunchOutcomes(s: State, s': State, e: ActionEvent, l: Launch, r: RunId)
    requires Inv(s) && AddsLaunch(s, s', e, l, r)
    ensures |s'.events| == |s'.sources|
    ensures OutcomesRecorded(s') && TerminalsMatchOutcomes(s') && OutcomesReported(s', {})
  {
    forall i | 0 <= i < |s'.events| && IsTerminal(s'.events[i].eventType)
      ensures s'.sources[i] in s'.finished && !s'.finished[s'.sources[i]].Cancelled?
    {
      assert i < |s.events|;
      assert s'.sources[i] == s.sources[i] && s'.events[i] == s.events[i];
    }
    forall u | u in s'.finished && !s'.finished[u].Cancelled?
      ensures HasTerminal(s'.events, s'.sources, u)
    {
      var i :| 0 <= i < |s.events| && s.sources[i] == u && IsTerminal(s.events[i].eventType);
      assert s'.sources[i] == u && s'.events[i] == s.events[i];
    }
  }

  lemma HandleStartInv(s: State, a: Action, k: RunKind, registry: Registry)
    requires Inv(s)
    ensures Inv(HandleStart(s, a, k, registry))
  {
    var r := RunIdOf(a, k);
    var s1 := s.(contexts := s.contexts[r := Context(a, false)]);
    if a.actionId in registry {
      var e := ActionEvent(a, StartedType(k), "");
      var l := Launch(a, k, registry[a.actionId].isAsyncFunction);
      var s' := HandleStart(s, a, k, registry);
      assert AddsLaunch(s, s', e, l, r);
      AppendStarted(s.events, s.sources, e, |s.launched|);
      AddLaunchSourced(s, s', e, l, r);
      AddLaunchLedger(s, s', e, l, r);
      AddLaunchOutcomes(s, s', e, l, r);
    } else {
      InvOfSameReports(s, s1);
    }
  }

  /** The invariant reads only the reports, the launches, the running set
      and the task ledger. */
  lemma InvOfSameReports(s: State, s': State)
    requires Inv(s)
    requires s'.events == s.events && s'.sources == s.sources && s'.launched == s.launched
    requires s'.live == s.live && s'.tasks == s.tasks && s'.finished == s.finished
    ensures Inv(s')
  {
  }

  lemma CancelSignalInv(s: State, r: RunId)
    requires Inv(s)
    ensures Inv(CancelSignal(s, r))
  {
    InvOfSameReports(s, CancelSignal(s, r));
  }

  lemma CancelFinishInv(s: State, r: RunId)
    requires Inv(s)
    ensures Inv(CancelFinish(s, r))
  {
    if r in s.sleepingCancels {
      var s1 := s.(sleepingCancels := s.sleepingCancels - multiset{r});
      var s2 := if r in s1.tasks then s1.(cancelRequested := s1.cancelRequested + {s1.tasks[r]}) else s1;
      InvOfSameReports(s, s2);
      CleanupInv(s2, r, {});
    }
  }

  lemma ThreadInv(s: State, t: TaskId, thread: nat)
    requires Inv(s)
    ensures Inv(ThreadActionFunc(s, t, thread))
  {
    InvOfSameReports(s, ThreadActionFunc(s, t, thread));
  }

  /** A running task ending, together with the wrapper's cleanup: the
      invariant holds except that the task may still be owed its terminal
      event, which it has not had yet. */
  lemma RetireInv(s: State, t: TaskId, outcome: Outcome)
    requires Inv(s) && t in s.live && t < |s.launched|
    ensures var s1 := CleanupRunId(Retire(s, t, outcome), LaunchRunId(s.launched[t]));
      && InvPending(s1, {t})
      && (outcome.Cancelled? ==> Inv(s1))
      && t !in s1.live && s1.finished == s.finished[t := outcome] && s1.launched == s.launched
      && forall i :: 0 <= i < |s1.sources| && s1.sources[i] == t ==> !IsTerminal(s1.events[i].eventType)
  {
    var s1 := CleanupRunId(Retire(s, t, outcome), LaunchRunId(s.launched[t]));
    forall q | q in s1.tasks
      ensures s1.tasks[q] in s1.live
    {
      assert s1.tasks[q] == s.tasks[q] && q != LaunchRunId(s.launched[t]);
    }
    assert t !in s.finished;
    forall i | 0 <= i < |s1.events| && IsTerminal(s1.events[i].eventType)
      ensures s1.sources[i] in s1.finished && !s1.finished[s1.sources[i]].Cancelled?
    {
      assert s1.sources[i] != t;
    }
  }

  /** Reporting the end of a task that is no longer running, ended other
      than by cancellation, and has not been reported on before. */
  lemma EmitTerminalInv(s: State, t: TaskId, e: ActionEvent)
    requires InvPending(s, {t}) && t < |s.launched| && t !in s.live && IsTerminal(e.eventType)
    requires t in s.finished && !s.finished[t].Cancelled?
    requires e.action == s.launched[t].action && KindOf(e.eventType) == s.launched[t].kind
    requires forall i :: 0 <= i < |s.sources| && s.sources[i] == t ==> !IsTerminal(s.events[i].eventType)
    ensures Inv(Emit(s, t, e))
  {
    AppendTerminal(s.events, s.sources, e, t);
    var s' := Emit(s, t, e);
    forall i | 0 <= i < |s'.sources|
      ensures s'.sources[i] < |s'.launched|
      ensures s'.events[i].action == s'.launched[s'.sources[i]].action
      ensures KindOf(s'.events[i].eventType) == s'.launched[s'.sources[i]].kind
    {
      if i < |s.sources| {
        assert s'.sources[i] == s.sources[i] && s'.events[i] == s.events[i];
      }
    }
    forall u | 0 <= u < |s'.launched|
      ensures HasStarted(s'.events, s'.sources, u)
    {
      assert HasStarted(s.events, s.sources, u);
      var i :| 0 <= i < |s.events| && s.sources[i] == u && IsStarted(s.events[i].eventType);
      assert s'.sources[i] == u && s'.events[i] == s.events[i];
    }
    forall i | 0 <= i < |s'.events| && IsTerminal(s'.events[i].eventType)
      ensures s'.sources[i] !in s'.live
      ensures s'.sources[i] in s'.finished && !s'.finished[s'.sources[i]].Cancelled?
    {
      if i < |s.events| {
        assert s'.sources[i] == s.sources[i] && s'.events[i] == s.events[i];
      }
    }
    forall u | u in s'.finished && !s'.finished[u].Cancelled?
      ensures HasTerminal(s'.events, s'.sources, u)
    {
      if u == t {
        assert s'.sources[|s.events|] == t && s'.events[|s.events|] == e;
      } else {
        var i :| 0 <= i < |s.events| && s.sources[i] == u && IsTerminal(s.events[i].eventType);
        assert s'.sources[i] == u && s'.events[i] == s.events[i];
      }
    }
  }

  lemma FinishInv(s: State, t: TaskId, outcome: Outcome, json: Json)
    requires Inv(s)
    ensures Inv(Finish(s, t, outcome, json))
  {
    if t in s.live && t < |s.launched| {
      var l := s.launched[t];
      var s1 := CleanupRunId(Retire(s, t, outcome), LaunchRunId(l));
      RetireInv(s, t, outcome);
      var s2 := CleanupRunId(s1, LaunchRunId(l));
      CleanupInv(s1, LaunchRunId(l), {t});
      match outcome
      case Cancelled =>
        CleanupInv(s1, LaunchRunId(l), {});
      case Raised(m, tr) =>
        EmitTerminalInv(s2, t, ActionEvent(l.action, FailedType(l.kind), ErrorWithTraceback(m, tr)));
      case Returned(v) =>
        EmitTerminalInv(s2, t, ActionEvent(l.action, CompletedType(l.kind), SerializeOutput(v, json)));
    }
  }

  lemma ApplyInv(s: State, op: Op, registry: Registry, json: Json)
    requires Inv(s)
    ensures Inv(Apply(s, op, registry, json))
  {
    match op
    case RunOp(a) =>
      var s0 := if s.workerId.None? then s.(workerId := Some(a.workerId)) else s;
      assert Inv(s0);
      match a.actionType {
        case StartStepRun => HandleStartInv(s0, a, StepRun, registry);
        case CancelStepRun => CancelSignalInv(s0, a.stepRunId);
        case StartGetGroupKey => HandleStartInv(s0, a, GroupKeyRun, registry);
        case OtherActionType(_) =>
      }
    case ThreadOp(t, th) => ThreadInv(s, t, th);
    case FinishOp(t, o) => FinishInv(s, t, o, json);
    case CancelFinishOp(r) => CancelFinishInv(s, r);
  }

  /** The invariant holds in every state a trace from the initial state reaches. */
  lemma {:induction false} ExecuteInv(s: State, ops: seq<Op>, registry: Registry, json: Json)
    requires Inv(s)
    ensures Inv(Execute(s, ops, registry, json))
    decreases |ops|
  {
    if ops != [] {
      ExecuteInv(s, ops[..|ops| - 1], registry, json);
      ApplyInv(Execute(s, ops[..|ops| - 1], registry, json), ops[|ops| - 1], registry, json);
    }
  }

  lemma ReachableInv(ops: seq<Op>, registry: Registry, json: Json)
    ensures Inv(Execute(Init(), ops, registry, json))
  {
    InitInv();
    ExecuteInv(Init(), ops, registry, json);
  }

  // ---------------------------------------------------------------------------
  // Properties of single operations

  /** Cleaning up twice is the same as cleaning up once. */
  lemma CleanupIdempotent(s: State, r: RunId)
    ensures CleanupRunId(CleanupRunId(s, r), r) == CleanupRunId(s, r)
  {
    var s1 := CleanupRunId(s, r);
    assert s1.tasks - {r} == s1.tasks && s1.threads - {r} == s1.threads && s1.contexts - {r} == s1.contexts;
  }

  /** Cleaning up a run id that is in none of the maps changes nothing. */
  lemma CleanupMissing(s: State, r: RunId)
    requires r !in s.tasks && r !in s.threads && r !in s.contexts
    ensures CleanupRunId(s, r) == s
  {
    assert s.tasks - {r} == s.tasks && s.threads - {r} == s.threads && s.contexts - {r} == s.contexts;
  }

  /** `run` records the first action's worker id and keeps it afterwards. */
  lemma RunWorkerId(s: State, a: Action, registry: Registry)
    ensures Run(s, a, registry).workerId == (if s.workerId.None? then Some(a.workerId) else s.workerId)
  {
    var s0 := if s.workerId.None? then s.(workerId := Some(a.workerId)) else s;
    match a.actionType {
      case StartStepRun => HandleStartWorkerId(s0, a, StepRun, registry);
      case CancelStepRun => assert CancelSignal(s0, a.stepRunId).workerId == s0.workerId;
      case StartGetGroupKey => HandleStartWorkerId(s0, a, GroupKeyRun, registry);
      case OtherActionType(_) =>
    }
  }

  lemma HandleStartWorkerId(s: State, a: Action, k: RunKind, registry: Registry)
    ensures HandleStart(s, a, k, registry).workerId == s.workerId
  {
  }

  /** `run` routes a start-step action to the step-run start handler under
      the step run id, a cancel action to the cancel handler under the step
      run id, and a get-group-key action to the group-key start handler
      under the group-key run id; any other type changes nothing but the
      worker id. */
  lemma RunRoutes(s: State, a: Action, registry: Registry)
    ensures var s0 := s.(workerId := Run(s, a, registry).workerId);
      && (a.actionType.StartStepRun? ==> Run(s, a, registry) == HandleStart(s0, a, StepRun, registry))
      && (a.actionType.CancelStepRun? ==> Run(s, a, registry) == CancelSignal(s0, a.stepRunId))
      && (a.actionType.StartGetGroupKey? ==> Run(s, a, registry) == HandleStart(s0, a, GroupKeyRun, registry))
      && (a.actionType.OtherActionType? ==> Run(s, a, registry) == s0)
  {
    var s0 := if s.workerId.None? then s.(workerId := Some(a.workerId)) else s;
    assert s.(workerId := s0.workerId) == s0;
    match a.actionType {
      case StartStepRun =>
        assert Run(s, a, registry).workerId == s0.workerId;
      case CancelStepRun =>
        assert Run(s, a, registry) == CancelSignal(s0, a.stepRunId);
      case StartGetGroupKey =>
        assert Run(s, a, registry).workerId == s0.workerId;
      case OtherActionType(_) =>
    }
  }

  /** Starting a registered action emits exactly one STARTED event, carrying
      the action, and stores the new task under the run id with its
      context; nothing else in the ledger changes. */
  lemma StartRegistered(s: State, a: Action, k: RunKind, registry: Registry)
    requires a.actionId in registry
    ensures var s' := HandleStart(s, a, k, registry);
      && s'.events == s.events + [ActionEvent(a, StartedType(k), "")]
      && s'.sources == s.sources + [|s.launched|]
      && s'.launched == s.launched + [Launch(a, k, registry[a.actionId].isAsyncFunction)]
      && s'.tasks == s.tasks[RunIdOf(a, k) := |s.launched|]
      && s'.contexts == s.contexts[RunIdOf(a, k) := Context(a, false)]
      && s'.threads == s.threads
      && s'.live == s.live + {|s.launched|}
  {
  }

  /** Starting an unregistered action emits nothing and creates no task, but
      still stores the context. */
  lemma StartUnregistered(s: State, a: Action, k: RunKind, registry: Registry)
    requires a.actionId !in registry
    ensures HandleStart(s, a, k, registry) == s.(contexts := s.contexts[RunIdOf(a, k) := Context(a, false)])
  {
  }

  /** The callback removes the run from every map, then emits nothing for a
      cancelled task, one FAILED event whose payload is the exception text,
      a line break and the trace for a task that raised, and one COMPLETED
      event with the serialised result otherwise. */
  lemma CallbackReports(s: State, t: TaskId, l: Launch, outcome: Outcome, json: Json)
    ensures var s' := RunCallback(s, t, l, outcome, json);
      && LaunchRunId(l) !in s'.tasks && LaunchRunId(l) !in s'.threads && LaunchRunId(l) !in s'.contexts
      && s'.live == s.live && s'.launched == s.launched
      && (outcome.Cancelled? ==> s'.events == s.events)
      && (outcome.Raised? ==>
            s'.events == s.events + [ActionEvent(l.action, FailedType(l.kind), outcome.message + "\n" + outcome.trace)])
      && (outcome.Returned? ==>
            s'.events == s.events + [ActionEvent(l.action, CompletedType(l.kind), SerializeOutput(outcome.value, json))])
  {
  }

  /** A task that is not running cannot finish again: nothing changes. */
  lemma FinishNotLive(s: State, t: TaskId, outcome: Outcome, json: Json)
    requires t !in s.live
    ensures Finish(s, t, outcome, json) == s
  {
  }

  /** Finishing a running task retires it with its outcome, clears its run
      id from the ledger, and appends at most one event: a terminal event
      on that task's action, appended exactly when the task was not
      cancelled. */
  lemma FinishReports(s: State, t: TaskId, outcome: Outcome, json: Json)
    requires t in s.live && t < |s.launched|
    ensures var s' := Finish(s, t, outcome, json);
      && s'.live == s.live - {t} && s'.finished == s.finished[t := outcome]
      && LaunchRunId(s.launched[t]) !in s'.tasks
      && s'.launched == s.launched
      && s.events <= s'.events && |s'.events| <= |s.events| + 1
      && s.sources <= s'.sources && (|s'.sources| == |s.sources| + 1 ==> s'.sources[|s.sources|] == t)
      && (|s'.events| == |s.events| + 1 <==> !outcome.Cancelled?)
      && (|s'.events| == |s.events| + 1 ==>
            IsTerminal(s'.events[|s.events|].eventType) && s'.events[|s.events|].action == s.launched[t].action)
  {
  }

  /** A synchronous task's thread registers under the step run id when it
      is non-empty, else under the group-key run id when that is non-empty,
      else nowhere; the other maps are untouched. */
  lemma ThreadRegistration(s: State, t: TaskId, thread: nat)
    requires t in s.live && t < |s.launched| && !s.launched[t].isAsync
    ensures var s' := ThreadActionFunc(s, t, thread);
      var a := s.launched[t].action;
      && s'.tasks == s.tasks && s'.contexts == s.contexts && s'.events == s.events
      && (a.stepRunId != "" ==> s'.threads == s.threads[a.stepRunId := thread])
      && (a.stepRunId == "" && a.getGroupKeyRunId != "" ==> s'.threads == s.threads[a.getGroupKeyRunId := thread])
      && (a.stepRunId == "" && a.getGroupKeyRunId == "" ==> s'.threads == s.threads)
  {
  }

  /** The cancel handler emits no event at either of its steps. */
  lemma CancelNeverEmits(s: State, r: RunId)
    ensures CancelSignal(s, r).events == s.events && CancelFinish(s, r).events == s.events
    ensures CancelSignal(s, r).live == s.live && CancelFinish(s, r).live == s.live
  {
  }

  /** A cancel handler running without interruption flags the context,
      asks the run's task to cancel, and clears `r` from every map while
      leaving every other run id's entries as they were. */
  lemma CancelRun(s: State, r: RunId)
    ensures var s' := CancelFinish(CancelSignal(s, r), r);
      && r !in s'.tasks && r !in s'.threads && r !in s'.contexts
      && s'.cancelRequested == s.cancelRequested + (if r in s.tasks then {s.tasks[r]} else {})
      && s'.sleepingCancels == s.sleepingCancels
      && s'.events == s.events
      && (forall q :: q != r ==> (q in s'.tasks <==> q in s.tasks) && (q in s'.tasks ==> s'.tasks[q] == s.tasks[q]))
      && (forall q :: q != r ==> (q in s'.threads <==> q in s.threads) && (q in s'.threads ==> s'.threads[q] == s.threads[q]))
      && (forall q :: q != r ==> (q in s'.contexts <==> q in s.contexts) && (q in s'.contexts ==> s'.contexts[q] == s.contexts[q]))
  {
    var s1 := CancelSignal(s, r);
    assert s1.tasks == s.tasks && s1.threads == s.threads && s1.events == s.events;
    assert s1.cancelRequested == s.cancelRequested;
    assert r in s1.sleepingCancels && s1.sleepingCancels - multiset{r} == s.sleepingCancels;
    var s2 := s1.(sleepingCancels := s.sleepingCancels);
    var s3 := if r in s2.tasks then s2.(cancelRequested := s2.cancelRequested + {s2.tasks[r]}) else s2;
    assert CancelFinish(s1, r) == CleanupRunId(s3, r);
  }

  /** Cancelling an unknown run id is a no-op. */
  lemma CancelUnknown(s: State, r: RunId)
    requires r !in s.tasks && r !in s.threads && r !in s.contexts
    ensures CancelFinish(CancelSignal(s, r), r) == s
  {
    var s1 := CancelSignal(s, r);
    assert s1.sleepingCancels - multiset{r} == s.sleepingCancels;
    CleanupMissing(s, r);
  }

  /** In every reachable state, the ledger holds only running tasks, each
      under its own run id, and each created task has exactly one STARTED
      event and at most one terminal event, the STARTED one first and the
      terminal one only after the task stopped running. */
  lemma ReportsInOrder(ops: seq<Op>, registry: Registry, json: Json)
    ensures var s := Execute(Init(), ops, registry, json);
      && |s.events| == |s.sources|
      && (forall r :: r in s.tasks ==> s.tasks[r] in s.live && s.tasks[r] < |s.launched| && LaunchRunId(s.launched[s.tasks[r]]) == r)
      && (forall t :: 0 <= t < |s.launched| ==> HasStarted(s.events, s.sources, t))
      && (forall i, j :: 0 <= i < j < |s.events| && s.sources[i] == s.sources[j] ==>
            && !(IsStarted(s.events[i].eventType) && IsStarted(s.events[j].eventType))
            && !(IsTerminal(s.events[i].eventType) && IsTerminal(s.events[j].eventType))
            && IsStarted(s.events[i].eventType) && IsTerminal(s.events[j].eventType))
  {
    ReachableInv(ops, registry, json);
    var s := Execute(Init(), ops, registry, json);
    forall i, j | 0 <= i < j < |s.events| && s.sources[i] == s.sources[j]
      ensures IsStarted(s.events[i].eventType) && IsTerminal(s.events[j].eventType)
    {
      var ei, ej := s.events[i].eventType, s.events[j].eventType;
      assert !(IsStarted(ei) && IsStarted(ej)) && !(IsTerminal(ei) && IsTerminal(ej)) && !(IsTerminal(ei) && IsStarted(ej));
    }
  }

  /** Both start handlers only ever append to the event queue. */
  lemma HandleStartKeepsEvents(s: State, a: Action, k: RunKind, registry: Registry)
    ensures s.events <= HandleStart(s, a, k, registry).events && s.sources <= HandleStart(s, a, k, registry).sources
  {
    if a.actionId in registry {
      StartRegistered(s, a, k, registry);
    } else {
      StartUnregistered(s, a, k, registry);
    }
  }

  /** A step only ever appends to the event queue. */
  lemma ApplyKeepsEvents(s: State, op: Op, registry: Registry, json: Json)
    ensures s.events <= Apply(s, op, registry, json).events && s.sources <= Apply(s, op, registry, json).sources
  {
    match op
    case RunOp(a) =>
      RunRoutes(s, a, registry);
      var s0 := s.(workerId := Run(s, a, registry).workerId);
      match a.actionType {
        case StartStepRun => HandleStartKeepsEvents(s0, a, StepRun, registry);
        case CancelStepRun => assert CancelSignal(s0, a.stepRunId).sources == s.sources;
        case StartGetGroupKey => HandleStartKeepsEvents(s0, a, GroupKeyRun, registry);
        case OtherActionType(_) =>
      }
    case ThreadOp(t, th) =>
    case FinishOp(t, o) =>
      if t in s.live && t < |s.launched| {
        FinishReports(s, t, o, json);
      }
    case CancelFinishOp(r) =>
  }

  /** No event is ever taken back: every trace extends the queue it starts
      from. */
  lemma {:induction false} ExecuteKeepsEvents(s: State, ops: seq<Op>, registry: Registry, json: Json)
    ensures s.events <= Execute(s, ops, registry, json).events
    ensures s.sources <= Execute(s, ops, registry, json).sources
    decreases |ops|
  {
    if ops != [] {
      var before := Execute(s, ops[..|ops| - 1], registry, json);
      ExecuteKeepsEvents(s, ops[..|ops| - 1], registry, json);
      ApplyKeepsEvents(before, ops[|ops| - 1], registry, json);
    }
  }

  /** Two terminal events on one task are the same event. */
  lemma TerminalUnique(events: seq<ActionEvent>, sources: seq<TaskId>, i: nat, j: nat)
    requires |events| == |sources| && TerminalAtMostOnce(events, sources)
    requires i < |events| && j < |events| && sources[i] == sources[j]
    requires IsTerminal(events[i].eventType) && IsTerminal(events[j].eventType)
    ensures i == j
  {
  }

  /** What the invariant says about the reports on one created task. */
  lemma InvTerminals(s: State, t: TaskId)
    requires Inv(s) && t < |s.launched|
    ensures |s.events| == |s.sources|
    ensures t in s.live ==> !HasTerminal(s.events, s.sources, t)
    ensures t !in s.live <==> t in s.finished
    ensures t in s.finished && s.finished[t].Cancelled? ==> !HasTerminal(s.events, s.sources, t)
    ensures t in s.finished && !s.finished[t].Cancelled? ==>
              exists i :: 0 <= i < |s.events| && s.sources[i] == t && IsTerminal(s.events[i].eventType)
                && forall j :: 0 <= j < |s.events| && s.sources[j] == t && IsTerminal(s.events[j].eventType) ==> j == i
  {
    if t in s.finished && !s.finished[t].Cancelled? {
      assert HasTerminal(s.events, s.sources, t);
      var i :| 0 <= i < |s.events| && s.sources[i] == t && IsTerminal(s.events[i].eventType);
      forall j | 0 <= j < |s.events| && s.sources[j] == t && IsTerminal(s.events[j].eventType)
        ensures j == i
      {
        TerminalUnique(s.events, s.sources, i, j);
      }
    }
  }

  /** In every reachable state a created task has no terminal event while it
      runs; once it has ended its outcome is recorded, and it has exactly one
      terminal event if it ended other than by cancellation and none if it
      was cancelled. */
  lemma ExactlyOneTerminal(ops: seq<Op>, registry: Registry, json: Json)
    ensures var s := Execute(Init(), ops, registry, json);
      && |s.events| == |s.sources|
      && forall t :: 0 <= t < |s.launched| ==>
           && (t in s.live ==> !HasTerminal(s.events, s.sources, t))
           && (t !in s.live <==> t in s.finished)
           && (t in s.finished && s.finished[t].Cancelled? ==> !HasTerminal(s.events, s.sources, t))
           && (t in s.finished && !s.finished[t].Cancelled? ==>
                 exists i :: 0 <= i < |s.events| && s.sources[i] == t && IsTerminal(s.events[i].eventType)
                   && forall j :: 0 <= j < |s.events| && s.sources[j] == t && IsTerminal(s.events[j].eventType) ==> j == i)
  {
    ReachableInv(ops, registry, json);
    var s := Execute(Init(), ops, registry, json);
    forall t | 0 <= t < |s.launched|
      ensures && (t in s.live ==> !HasTerminal(s.events, s.sources, t))
              && (t !in s.live <==> t in s.finished)
              && (t in s.finished && s.finished[t].Cancelled? ==> !HasTerminal(s.events, s.sources, t))
              && (t in s.finished && !s.finished[t].Cancelled? ==>
                    exists i :: 0 <= i < |s.events| && s.sources[i] == t && IsTerminal(s.events[i].eventType)
                      && forall j :: 0 <= j < |s.events| && s.sources[j] == t && IsTerminal(s.events[j].eventType) ==> j == i)
    {
      InvTerminals(s, t);
    }
  }

  // ---------------------------------------------------------------------------
  // The run URL

  /** `create_workflow_run_url`. */
  function RunUrl(serverUrl: string, a: Action): (u: string)
    ensures StartsWith(u, serverUrl + "/workflow-runs/")
    ensures |a.tenantId| <= |u| && u[|u| - |a.tenantId|..] == a.tenantId
  {
    serverUrl + "/workflow-runs/" + a.workflowRunId + "?tenant=" + a.tenantId
  }

  /** Reads the workflow run id and tenant back out of a run URL. */
  function ParseRunUrl(serverUrl: string, url: string): Option<(string, string)>
  {
    var prefix := serverUrl + "/workflow-runs/";
    if !StartsWith(url, prefix) then None
    else
      var rest := url[|prefix|..];
      var wf := BeforeFirst(rest, '?');
      var query := rest[|wf|..];
      if StartsWith(query, "?tenant=") then Some((wf, query[8..])) else None
  }

  /** The URL determines the workflow run and tenant whenever the run id
      holds no `?`. */
  lemma RunUrlParses(serverUrl: string, a: Action)
    requires '?' !in a.workflowRunId
    ensures ParseRunUrl(serverUrl, RunUrl(serverUrl, a)) == Some((a.workflowRunId, a.tenantId))
  {
    var prefix := serverUrl + "/workflow-runs/";
    var query := "?tenant=" + a.tenantId;
    var url := RunUrl(serverUrl, a);
    assert url == prefix + (a.workflowRunId + query);
    assert url[..|prefix|] == prefix && url[|prefix|..] == a.workflowRunId + query;
    var rest := a.workflowRunId + query;
    assert "?tenant=" == ['?'] + "tenant=";
    assert query == ['?'] + ("tenant=" + a.tenantId);
    assert rest == a.workflowRunId + ['?'] + ("tenant=" + a.tenantId);
    BeforeFirstOfJoin(a.workflowRunId, '?', "tenant=" + a.tenantId);
    assert rest[|a.workflowRunId|..] == query;
    assert query[..8] == "?tenant=" && query[8..] == a.tenantId;
  }

  // ---------------------------------------------------------------------------
  // Traces

  /** A step action with the given run id and action id. */
  function StepAction(actionId: string, stepRunId: string): Action
  {
    Action("worker", "tenant", "wf-run", "", "step", stepRunId, actionId, StartStepRun, 0)
  }

  lemma ExecuteTwo(s: State, o1: Op, o2: Op, registry: Registry, json: Json)
    ensures Execute(s, [o1, o2], registry, json) == Apply(Apply(s, o1, registry, json), o2, registry, json)
  {
    assert [o1, o2][..1] == [o1] && [o1][..0] == [];
    assert Execute(s, [o1], registry, json) == Apply(Execute(s, [], registry, json), o1, registry, json);
  }

  /** The first START on a fresh runner, written out field by field. */
  lemma FirstStart(registry: Registry)
    requires "act" in registry
    ensures var a := StepAction("act", "sr");
      Run(Init(), a, registry)
      == State(Some("worker"), map["sr" := 0], map[], map["sr" := Context(a, false)],
               [ActionEvent(a, StepStarted, "")], [Launch(a, StepRun, registry["act"].isAsyncFunction)],
               [0], {0}, map[], {}, multiset{})
  {
  }

  /** A step that starts, runs and returns is reported as STARTED, then
      COMPLETED with its serialised result, and leaves the ledger empty. */
  lemma SuccessfulRun(registry: Registry, json: Json, v: PyValue)
    requires "act" in registry
    ensures var a := StepAction("act", "sr");
      var s := Execute(Init(), [RunOp(a), FinishOp(0, Returned(v))], registry, json);
      && s.events == [ActionEvent(a, StepStarted, ""), ActionEvent(a, StepCompleted, SerializeOutput(v, json))]
      && s.tasks == map[] && s.contexts == map[] && s.live == {} && s.finished == map[0 := Returned(v)]
  {
    var a := StepAction("act", "sr");
    ExecuteTwo(Init(), RunOp(a), FinishOp(0, Returned(v)), registry, json);
    FirstStart(registry);
    var s1 := Run(Init(), a, registry);
    var s2 := CleanupRunId(Retire(s1, 0, Returned(v)), "sr");
    assert s2.tasks == map[] && s2.contexts == map[];
    assert Finish(s1, 0, Returned(v), json) == Emit(CleanupRunId(s2, "sr"), 0, ActionEvent(a, StepCompleted, SerializeOutput(v, json)));
  }

  /** A step that raises is reported as STARTED, then FAILED with the
      exception text as the first line of the payload. */
  lemma FailedRun(registry: Registry, json: Json, message: string, trace: string)
    requires "act" in registry && '\n' !in message
    ensures var a := StepAction("act", "sr");
      var s := Execute(Init(), [RunOp(a), FinishOp(0, Raised(message, trace))], registry, json);
      && |s.events| == 2 && s.events[1].eventType == StepFailed
      && BeforeFirst(s.events[1].payload, '\n') == message
      && s.tasks == map[]
  {
    var a := StepAction("act", "sr");
    ExecuteTwo(Init(), RunOp(a), FinishOp(0, Raised(message, trace)), registry, json);
    FirstStart(registry);
    var s1 := Run(Init(), a, registry);
    var s2 := CleanupRunId(Retire(s1, 0, Raised(message, trace)), "sr");
    assert s2.tasks == map[];
    assert Finish(s1, 0, Raised(message, trace), json)
        == Emit(CleanupRunId(s2, "sr"), 0, ActionEvent(a, StepFailed, ErrorWithTraceback(message, trace)));
    FailedPayloadFirstLine(message, trace);
  }

  /** A step cancelled while it runs is reported as STARTED and nothing
      else: the cancel handler asks the task to stop and clears the ledger,
      and the cancelled task's callback emits nothing. */
  lemma CancelledRun(registry: Registry, json: Json)
    requires "act" in registry
    ensures var a := StepAction("act", "sr");
      var c := a.(actionType := CancelStepRun);
      var s := Execute(Execute(Init(), [RunOp(a), RunOp(c)], registry, json), [CancelFinishOp("sr"), FinishOp(0, Cancelled)], registry, json);
      && s.events == [ActionEvent(a, StepStarted, "")]
      && s.cancelRequested == {0}
      && s.tasks == map[] && s.contexts == map[] && s.live == {} && s.finished == map[0 := Cancelled]
  {
    var a := StepAction("act", "sr");
    var c := a.(actionType := CancelStepRun);
    ExecuteTwo(Init(), RunOp(a), RunOp(c), registry, json);
    FirstStart(registry);
    var l := Launch(a, StepRun, registry["act"].isAsyncFunction);
    var e := [ActionEvent(a, StepStarted, "")];
    var s1 := Run(Init(), a, registry);
    var s2 := State(Some("worker"), map["sr" := 0], map[], map["sr" := Context(a, true)], e, [l], [0], {0}, map[], {}, multiset{"sr"});
    assert Run(s1, c, registry) == s2;
    ExecuteTwo(s2, CancelFinishOp("sr"), FinishOp(0, Cancelled), registry, json);
    var s3 := State(Some("worker"), map[], map[], map[], e, [l], [0], {0}, map[], {0}, multiset{});
    assert s2.(sleepingCancels := multiset{}, cancelRequested := {0}).tasks - {"sr"} == map[];
    assert CancelFinish(s2, "sr") == s3;
    assert Finish(s3, 0, Cancelled, json) == s3.(live := {}, finished := map[0 := Cancelled]);
  }

  /** The ledger is keyed by run id alone: when a second task starts under
      the same run id while the first is still running, the first task's
      cleanup removes the second task's entry, so `tasks` no longer shows a
      task that is still running. */
  lemma LateCleanupDropsNewerRun(registry: Registry, json: Json)
    requires "act" in registry
    ensures var a := StepAction("act", "sr");
      var s := Apply(Execute(Init(), [RunOp(a), RunOp(a)], registry, json), FinishOp(0, Returned(PyNone)), registry, json);
      && 1 in s.live && |s.launched| == 2 && LaunchRunId(s.launched[1]) == "sr"
      && "sr" !in s.tasks
  {
    var a := StepAction("act", "sr");
    ExecuteTwo(Init(), RunOp(a), RunOp(a), registry, json);
    var s1 := Run(Init(), a, registry);
    assert s1.live == {0} && |s1.launched| == 1;
    var s2 := Run(s1, a, registry);
    assert s2.live == {0, 1} && |s2.launched| == 2 && s2.launched[1].action == a;
  }
}
