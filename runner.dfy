/** The `Runner` object of hatchet_sdk/worker/runner/runner.py: its ledger
    maps and event queue are fields updated in place, and each method is
    proved to perform exactly the step of the state machine in RunnerSpec,
    so every property proved there holds of the object. */
module WorkerRunner {
  import opened Wrappers
  import opened Python
  import opened RunnerSpec

  /** The traces that run while `wait_for_tasks` sleeps, concatenated. */
  function Concat(batches: seq<seq<Op>>): (ops: seq<Op>)
    ensures batches == [] ==> ops == []
    decreases |batches|
  {
    if batches == [] then [] else Concat(batches[..|batches| - 1]) + batches[|batches| - 1]
  }

  /** Running the steps of two traces one after the other. */
  lemma {:induction false} ExecuteAppend(s: State, ops: seq<Op>, more: seq<Op>, registry: Registry, json: Json)
    ensures Execute(s, ops + more, registry, json) == Execute(Execute(s, ops, registry, json), more, registry, json)
    decreases |more|
  {
    if more == [] {
      assert ops + more == ops;
    } else {
      var last := more[|more| - 1];
      assert (ops + more)[..|ops + more| - 1] == ops + more[..|more| - 1];
      ExecuteAppend(s, ops, more[..|more| - 1], registry, json);
    }
  }

  /** The state after the first `k` sleeps of a wait. */
  function Waited(s: State, during: seq<seq<Op>>, k: nat, registry: Registry, json: Json): State
    requires k <= |during|
  {
    Execute(s, Concat(during[..k]), registry, json)
  }

  lemma WaitedNext(s: State, during: seq<seq<Op>>, k: nat, registry: Registry, json: Json)
    requires k < |during|
    ensures Waited(s, during, k + 1, registry, json) == Execute(Waited(s, during, k, registry, json), during[k], registry, json)
  {
    assert during[..k + 1][..k] == during[..k];
    assert Concat(during[..k + 1]) == Concat(during[..k]) + during[k];
    ExecuteAppend(s, Concat(during[..k]), during[k], registry, json);
  }

  /** Every sleep before the `n`-th found the ledger non-empty. */
  predicate BusyBefore(s: State, during: seq<seq<Op>>, n: nat, registry: Registry, json: Json)
    requires n <= |during|
  {
    forall k :: 0 <= k < n ==> |Waited(s, during, k, registry, json).tasks| > 0
  }

  lemma BusyNext(s: State, during: seq<seq<Op>>, n: nat, registry: Registry, json: Json)
    requires n < |during| && BusyBefore(s, during, n, registry, json)
    requires |Waited(s, during, n, registry, json).tasks| > 0
    ensures BusyBefore(s, during, n + 1, registry, json)
  {
  }

  class Runner {
    /** The worker name, prefixed with the client namespace. */
    const name: string
    const registry: Registry
    const json: Json
    const serverUrl: string

    var workerId: Option<string>
    var tasks: map<RunId, TaskId>
    var threads: map<RunId, nat>
    var contexts: map<RunId, Context>
    /** The event queue the runner writes to. */
    var events: seq<ActionEvent>
    /** What the asyncio event loop holds rather than the runner object: the
        tasks created so far, the tasks not yet done, and the cancel handlers
        inside their grace sleep. They are fields here so that the finishing
        and waking steps can branch on them. */
    var launched: seq<Launch>
    var live: set<TaskId>
    var sleepingCancels: multiset<RunId>
    /** The tasks `future.cancel()` was called on: event-loop state that no
        step branches on. */
    ghost var cancelRequested: set<TaskId>
    /** Which task each queued event reports on, and how each done task
        ended: bookkeeping for the proofs, not fields of the source object. */
    ghost var sources: seq<TaskId>
    ghost var finished: map<TaskId, Outcome>

    /** The object's fields as a state of the state machine. */
    ghost function State(): State
      reads this
    {
      RunnerSpec.State(workerId, tasks, threads, contexts, events, launched, sources, live, finished, cancelRequested,
                       sleepingCancels)
    }

    ghost predicate Valid()
      reads this
    {
      Inv(State())
    }

    constructor (name: string, namespace: string, registry: Registry, json: Json, serverUrl: string)
      ensures this.name == namespace + name && this.registry == registry && this.json == json
      ensures this.serverUrl == serverUrl
      ensures State() == Init() && Valid()
    {
      this.name := namespace + name;
      this.registry := registry;
      this.json := json;
      this.serverUrl := serverUrl;
      workerId := None;
      tasks, threads, contexts := map[], map[], map[];
      events, launched, sources := [], [], [];
      live, cancelRequested := {}, {};
      finished := map[];
      sleepingCancels := multiset{};
      new;
      InitInv();
    }

    /** `cleanup_run_id`: each key is deleted only if present. */
    method CleanupRunId(r: RunId)
      modifies this
      ensures State() == RunnerSpec.CleanupRunId(old(State()), r)
    {
      if r in tasks {
        tasks := tasks - {r};
      } else {
        assert tasks - {r} == tasks;
      }
      if r in threads {
        threads := threads - {r};
      } else {
        assert threads - {r} == threads;
      }
      if r in contexts {
        contexts := contexts - {r};
      } else {
        assert contexts - {r} == contexts;
      }
    }

    /** `event_queue.put`. */
    method Emit(t: TaskId, e: ActionEvent)
      modifies this
      ensures State() == RunnerSpec.Emit(old(State()), t, e)
    {
      events := events + [e];
      sources := sources + [t];
    }

    /** The common body of the two start handlers. */
    method HandleStart(a: Action, k: RunKind)
      modifies this
      ensures State() == RunnerSpec.HandleStart(old(State()), a, k, registry)
    {
      var r := RunIdOf(a, k);
      contexts := contexts[r := Context(a, false)];
      if a.actionId in registry {
        var t := |launched|;
        Emit(t, ActionEvent(a, StartedType(k), ""));
        launched := launched + [Launch(a, k, registry[a.actionId].isAsyncFunction)];
        live := live + {t};
        tasks := tasks[r := t];
      }
    }

    /** `handle_start_step_run`. */
    method HandleStartStepRun(a: Action)
      requires Valid()
      modifies this
      ensures State() == RunnerSpec.HandleStart(old(State()), a, StepRun, registry)
      ensures Valid()
    {
      HandleStartInv(State(), a, StepRun, registry);
      HandleStart(a, StepRun);
    }

    /** `handle_start_group_key_run`. */
    method HandleStartGroupKeyRun(a: Action)
      requires Valid()
      modifies this
      ensures State() == RunnerSpec.HandleStart(old(State()), a, GroupKeyRun, registry)
      ensures Valid()
    {
      HandleStartInv(State(), a, GroupKeyRun, registry);
      HandleStart(a, GroupKeyRun);
    }

    /** `handle_cancel_action` up to its grace sleep. */
    method HandleCancelAction(r: RunId)
      requires Valid()
      modifies this
      ensures State() == CancelSignal(old(State()), r)
      ensures Valid()
    {
      CancelSignalInv(State(), r);
      if r in contexts {
        contexts := contexts[r := contexts[r].(cancelled := true)];
      }
      sleepingCancels := sleepingCancels + multiset{r};
    }

    /** `handle_cancel_action` after its grace sleep. */
    method FinishCancelAction(r: RunId)
      requires Valid()
      modifies this
      ensures State() == CancelFinish(old(State()), r)
      ensures Valid()
    {
      CancelFinishInv(State(), r);
      if r in sleepingCancels {
        sleepingCancels := sleepingCancels - multiset{r};
        if r in tasks {
          cancelRequested := cancelRequested + {tasks[r]};
        }
        CleanupRunId(r);
      }
    }

    /** `run`. */
    method Run(a: Action)
      requires Valid()
      modifies this
      ensures State() == RunnerSpec.Run(old(State()), a, registry)
      ensures Valid()
    {
      if workerId.None? {
        workerId := Some(a.workerId);
      }
      match a.actionType
      case StartStepRun => HandleStartStepRun(a);
      case CancelStepRun => HandleCancelAction(a.stepRunId);
      case StartGetGroupKey => HandleStartGroupKeyRun(a);
      case OtherActionType(_) =>
    }

    /** `thread_action_func`, on the worker thread of task `t`. */
    method ThreadActionFunc(t: TaskId, thread: nat)
      requires Valid()
      modifies this
      ensures State() == RunnerSpec.ThreadActionFunc(old(State()), t, thread)
      ensures Valid()
    {
      ThreadInv(State(), t, thread);
      if t in live && t < |launched| && !launched[t].isAsync {
        var a := launched[t].action;
        if a.stepRunId != "" {
          threads := threads[a.stepRunId := thread];
        } else if a.getGroupKeyRunId != "" {
          threads := threads[a.getGroupKeyRunId := thread];
        }
      }
    }

    /** `step_run_callback` (a step run) and `group_key_run_callback` (a
        group-key run). */
    method RunCallback(t: TaskId, l: Launch, outcome: Outcome)
      modifies this
      ensures State() == RunnerSpec.RunCallback(old(State()), t, l, outcome, json)
    {
      CleanupRunId(LaunchRunId(l));
      match outcome
      case Cancelled =>
      case Raised(message, trace) =>
        Emit(t, ActionEvent(l.action, FailedType(l.kind), ErrorWithTraceback(message, trace)));
      case Returned(v) =>
        Emit(t, ActionEvent(l.action, CompletedType(l.kind), SerializeOutput(v, json)));
    }

    /** Task `t` ends: the `finally` of `async_wrapped_action_func`, then
        the done callback. */
    method Finish(t: TaskId, outcome: Outcome)
      requires Valid()
      modifies this
      ensures State() == RunnerSpec.Finish(old(State()), t, outcome, json)
      ensures Valid()
    {
      FinishInv(State(), t, outcome, json);
      if t in live && t < |launched| {
        var l := launched[t];
        live := live - {t};
        finished := finished[t := outcome];
        CleanupRunId(LaunchRunId(l));
        RunCallback(t, l, outcome);
      }
    }

    /** One step of the event loop. */
    method Step(op: Op)
      requires Valid()
      modifies this
      ensures State() == Apply(old(State()), op, registry, json)
      ensures Valid()
    {
      match op
      case RunOp(a) => Run(a);
      case ThreadOp(t, th) => ThreadActionFunc(t, th);
      case FinishOp(t, o) => Finish(t, o);
      case CancelFinishOp(r) => FinishCancelAction(r);
    }

    /** The steps the event loop runs while a coroutine sleeps. */
    method Steps(ops: seq<Op>)
      requires Valid()
      modifies this
      ensures State() == Execute(old(State()), ops, registry, json)
      ensures Valid()
      decreases |ops|
    {
      if ops != [] {
        Steps(ops[..|ops| - 1]);
        Step(ops[|ops| - 1]);
      }
    }

    /** `wait_for_tasks`: it polls the size of `tasks` once a second while
        it is positive. `during[k]` is what the event loop runs during the
        k-th sleep; the wait itself changes nothing. It returns having
        slept `polls` times, polling until the ledger is empty or no more
        steps are given. */
    method WaitForTasks(during: seq<seq<Op>>) returns (drained: bool, polls: nat)
      requires Valid()
      modifies this
      ensures polls <= |during|
      ensures State() == Waited(old(State()), during, polls, registry, json)
      ensures drained <==> |tasks| == 0
      ensures !drained ==> polls == |during|
      ensures BusyBefore(old(State()), during, polls, registry, json)
      ensures Valid()
    {
      ghost var s0 := State();
      var running := |tasks|;
      polls := 0;
      assert during[..0] == [];
      while running > 0 && polls < |during|
        invariant polls <= |during| && Valid()
        invariant State() == Waited(s0, during, polls, registry, json)
        invariant running == |tasks|
        invariant BusyBefore(s0, during, polls, registry, json)
        decreases |during| - polls
      {
        BusyNext(s0, during, polls, registry, json);
        Steps(during[polls]);
        WaitedNext(s0, during, polls, registry, json);
        polls := polls + 1;
        running := |tasks|;
      }
      drained := running == 0;
    }
  }
}
