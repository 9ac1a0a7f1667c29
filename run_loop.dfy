/** `WorkerActionRunLoopManager` of
    hatchet_sdk/worker/runner/run_loop_manager.py: the loop that takes
    actions off the action queue and hands them to a runner, and the
    shutdown calls that stop it. The loop awaits `action_queue.get` (in an
    executor) before every item, so each iteration is a step of its own:
    `Step` is the `get` returning one item, which is handed to the runner,
    followed by the next `killing` check. Anything else (more items, the
    shutdown calls, the runner's tasks) may happen between two steps. */
module RunLoop {
  import opened Python
  import RunnerSpec
  import WorkerRunner

  /** An item of the action queue: an action or the `STOP_LOOP` marker. */
  datatype QueueItem = ActionItem(action: RunnerSpec.Action) | StopLoop

  /** Why a stretch of the loop ended: a STOP marker, `killing` seen at the
      loop check, or an empty queue (the loop then waits in `get`). */
  datatype Exit = Stopped | Killed | Blocked

  datatype Dispatched = Dispatched(forwarded: seq<RunnerSpec.Action>, rest: seq<QueueItem>, exit: Exit)

  /** The loop from a given point: `pastCheck` says it is already past the
      `killing` check, waiting for the next item. */
  function Dispatch(queue: seq<QueueItem>, killing: bool, pastCheck: bool): (d: Dispatched)
    ensures |d.rest| <= |queue|
    decreases |queue|
  {
    if killing && !pastCheck then Dispatched([], queue, Killed)
    else if queue == [] then Dispatched([], [], Blocked)
    else match queue[0]
      case StopLoop => Dispatched([], queue[1..], Stopped)
      case ActionItem(a) =>
        var d := Dispatch(queue[1..], killing, false);
        Dispatched([a] + d.forwarded, d.rest, d.exit)
  }

  /** The actions among the items, in order. */
  function Actions(items: seq<QueueItem>): (actions: seq<RunnerSpec.Action>)
    ensures |actions| <= |items|
  {
    if items == [] then []
    else match items[0]
      case StopLoop => Actions(items[1..])
      case ActionItem(a) => [a] + Actions(items[1..])
  }

  /** The position of the first STOP marker, or the length if there is none. */
  function FirstStop(items: seq<QueueItem>): (n: nat)
    ensures n <= |items|
    ensures forall i :: 0 <= i < n ==> items[i].ActionItem?
    ensures n < |items| ==> items[n] == StopLoop
  {
    if items == [] then 0
    else if items[0] == StopLoop then 0
    else 1 + FirstStop(items[1..])
  }

  /** Without `killing`, the loop forwards in queue order every action up to
      the first STOP marker, consumes that marker and nothing after it, and
      waits in `get` when there is no marker. */
  lemma {:induction false} DispatchFifo(queue: seq<QueueItem>, pastCheck: bool)
    ensures var d := Dispatch(queue, false, pastCheck);
      var n := FirstStop(queue);
      && d.forwarded == Actions(queue[..n])
      && (n < |queue| ==> d.exit == Stopped && d.rest == queue[n + 1..])
      && (n == |queue| ==> d.exit == Blocked && d.rest == [])
    decreases |queue|
  {
    if queue != [] && queue[0] != StopLoop {
      DispatchFifo(queue[1..], false);
      assert queue[..FirstStop(queue)][1..] == queue[1..][..FirstStop(queue[1..])];
      if FirstStop(queue) < |queue| {
        assert queue[1..][FirstStop(queue[1..]) + 1..] == queue[FirstStop(queue) + 1..];
      }
    } else if queue != [] {
      assert queue[..0] == [];
    }
  }

  /** Once `killing` is set, the loop dequeues nothing more at its check; a
      loop already waiting in `get` takes at most the one item it is
      waiting for. */
  lemma DispatchKilling(queue: seq<QueueItem>, pastCheck: bool)
    ensures var d := Dispatch(queue, true, pastCheck);
      && (!pastCheck ==> d == Dispatched([], queue, Killed))
      && (pastCheck && queue != [] ==> d.rest == queue[1..] && d.forwarded == Actions(queue[..1]))
      && (pastCheck && queue == [] ==> d == Dispatched([], [], Blocked))
  {
    if pastCheck && queue != [] {
      assert Actions(queue[..1][1..]) == [];
    }
  }

  /** A shutdown request. */
  datatype ExitCall = Graceful | Forceful

  /** `cleanup`. */
  function CleanupEffect(killing: bool, queue: seq<QueueItem>): (bool, seq<QueueItem>)
  {
    (true, queue + [StopLoop])
  }

  /** The effect of `exit_gracefully` or `exit_forcefully` on the manager's
      flag and queue. */
  function AfterExit(killing: bool, queue: seq<QueueItem>, call: ExitCall): (bool, seq<QueueItem>)
  {
    match call
    case Graceful => if killing then (killing, queue) else CleanupEffect(killing, queue)
    case Forceful => CleanupEffect(killing, queue)
  }

  function AfterExits(killing: bool, queue: seq<QueueItem>, calls: seq<ExitCall>): (bool, seq<QueueItem>)
    decreases |calls|
  {
    if calls == [] then (killing, queue)
    else
      var (k, q) := AfterExit(killing, queue, calls[0]);
      AfterExits(k, q, calls[1..])
  }

  function CountForceful(calls: seq<ExitCall>): nat
  {
    if calls == [] then 0 else (if calls[0] == Forceful then 1 else 0) + CountForceful(calls[1..])
  }

  /** Any series of shutdown calls only appends STOP markers: one per
      forceful call, plus one if the first call is graceful and `killing`
      was not yet set; `killing` is set as soon as any call is made. */
  lemma {:induction false} StopsAdded(killing: bool, queue: seq<QueueItem>, calls: seq<ExitCall>)
    ensures var (k, q) := AfterExits(killing, queue, calls);
      && k == (killing || calls != [])
      && queue <= q
      && (forall i :: |queue| <= i < |q| ==> q[i] == StopLoop)
      && |q| == |queue| + CountForceful(calls) + (if !killing && calls != [] && calls[0] == Graceful then 1 else 0)
    decreases |calls|
  {
    if calls != [] {
      var (k1, q1) := AfterExit(killing, queue, calls[0]);
      assert k1 && queue <= q1;
      StopsAdded(k1, q1, calls[1..]);
      var (k, q) := AfterExits(killing, queue, calls);
      assert (k, q) == AfterExits(k1, q1, calls[1..]);
      forall i | |queue| <= i < |q|
        ensures q[i] == StopLoop
      {
        if i < |q1| {
          assert q[i] == q1[i];
        }
      }
    }
  }

  /** The runner's trace for the forwarded actions. */
  function RunOps(actions: seq<RunnerSpec.Action>): (ops: seq<RunnerSpec.Op>)
    ensures |ops| == |actions|
    ensures forall i :: 0 <= i < |ops| ==> ops[i] == RunnerSpec.RunOp(actions[i])
  {
    seq(|actions|, i requires 0 <= i < |actions| => RunnerSpec.RunOp(actions[i]))
  }

  lemma ExecuteRunSnoc(s: RunnerSpec.State, fwd: seq<RunnerSpec.Action>, a: RunnerSpec.Action,
                       registry: RunnerSpec.Registry, json: Json)
    ensures RunnerSpec.Execute(s, RunOps(fwd + [a]), registry, json)
         == RunnerSpec.Run(RunnerSpec.Execute(s, RunOps(fwd), registry, json), a, registry)
  {
    assert RunOps(fwd + [a])[..|fwd|] == RunOps(fwd);
  }

  /** The loop, having forwarded `fwd` so far and now at `queue` (past its
      check or not), is on its way to the result of the whole stretch. */
  predicate Tracks(q0: seq<QueueItem>, killing: bool, pastCheck: bool,
                   fwd: seq<RunnerSpec.Action>, queue: seq<QueueItem>, past: bool)
  {
    var d := Dispatch(queue, killing, past);
    Dispatch(q0, killing, pastCheck) == Dispatched(fwd + d.forwarded, d.rest, d.exit)
  }

  /** Forwarding one action keeps the loop on track. */
  lemma TracksAction(q0: seq<QueueItem>, killing: bool, pastCheck: bool,
                     fwd: seq<RunnerSpec.Action>, queue: seq<QueueItem>, past: bool)
    requires Tracks(q0, killing, pastCheck, fwd, queue, past)
    requires !(killing && !past) && queue != [] && queue[0].ActionItem?
    ensures Tracks(q0, killing, pastCheck, fwd + [queue[0].action], queue[1..], false)
  {
    var d := Dispatch(queue[1..], killing, false);
    assert Dispatch(queue, killing, past) == Dispatched([queue[0].action] + d.forwarded, d.rest, d.exit);
    assert fwd + ([queue[0].action] + d.forwarded) == (fwd + [queue[0].action]) + d.forwarded;
  }

  /** Where the loop stops, the stretch's result is what was forwarded. */
  lemma TracksStop(q0: seq<QueueItem>, killing: bool, pastCheck: bool,
                   fwd: seq<RunnerSpec.Action>, queue: seq<QueueItem>, past: bool)
    requires Tracks(q0, killing, pastCheck, fwd, queue, past)
    requires (killing && !past) || queue == [] || queue[0] == StopLoop
    ensures var d := Dispatch(q0, killing, pastCheck);
      && d.forwarded == fwd
      && (killing && !past ==> d.rest == queue && d.exit == Killed)
      && (!(killing && !past) && queue == [] ==> d.rest == [] && d.exit == Blocked)
      && (!(killing && !past) && queue != [] ==> d.rest == queue[1..] && d.exit == Stopped)
  {
    assert fwd + [] == fwd;
  }

  /** Past the `killing` check, the check has nothing more to say. */
  lemma DispatchUnkilled(queue: seq<QueueItem>)
    ensures Dispatch(queue, false, false) == Dispatch(queue, false, true)
  {
  }

  /** Where the loop is: not started, awaiting `get` past its `killing`
      check, or left by a STOP marker or by `killing`. */
  datatype Phase = NotStarted | Waiting | Finished(exit: Exit)

  class WorkerActionRunLoopManager {
    const name: string
    const namespace: string
    const registry: RunnerSpec.Registry
    const json: Json
    const serverUrl: string

    var actionQueue: seq<QueueItem>
    var killing: bool
    var runner: WorkerRunner.Runner?
    var phase: Phase

    constructor (name: string, namespace: string, registry: RunnerSpec.Registry, json: Json, serverUrl: string)
      ensures this.name == name && this.namespace == namespace && this.registry == registry
      ensures this.json == json && this.serverUrl == serverUrl
      ensures actionQueue == [] && !killing && runner == null && phase == NotStarted
    {
      this.name := name;
      this.namespace := namespace;
      this.registry := registry;
      this.json := json;
      this.serverUrl := serverUrl;
      actionQueue := [];
      killing := false;
      runner := null;
      phase := NotStarted;
    }

    /** The action listener putting an item on the queue. */
    method Put(item: QueueItem)
      modifies this
      ensures actionQueue == old(actionQueue) + [item]
      ensures killing == old(killing) && runner == old(runner) && phase == old(phase)
    {
      actionQueue := actionQueue + [item];
    }

    /** `cleanup`. */
    method Cleanup()
      modifies this
      ensures (killing, actionQueue) == CleanupEffect(old(killing), old(actionQueue))
      ensures runner == old(runner) && phase == old(phase)
    {
      killing := true;
      actionQueue := actionQueue + [StopLoop];
    }

    /** `exit_gracefully`: nothing once `killing` is set. */
    method ExitGracefully()
      modifies this
      ensures (killing, actionQueue) == AfterExit(old(killing), old(actionQueue), Graceful)
      ensures runner == old(runner) && phase == old(phase)
    {
      if killing {
        return;
      }
      Cleanup();
    }

    /** `exit_forcefully`: it always cleans up. */
    method ExitForcefully()
      modifies this
      ensures (killing, actionQueue) == AfterExit(old(killing), old(actionQueue), Forceful)
      ensures runner == old(runner) && phase == old(phase)
    {
      Cleanup();
    }

    /** `_start_action_loop` up to its first `get`: it builds the runner,
        then checks `killing`. */
    method StartActionLoop()
      requires phase == NotStarted
      modifies this
      ensures fresh(runner) && runner.Valid() && runner.State() == RunnerSpec.Init()
      ensures runner.name == namespace + name && runner.registry == registry && runner.json == json
      ensures killing == old(killing) && actionQueue == old(actionQueue)
      ensures phase == if killing then Finished(Killed) else Waiting
    {
      runner := new WorkerRunner.Runner(name, namespace, registry, json, serverUrl);
      phase := if killing then Finished(Killed) else Waiting;
    }

    /** One iteration of the loop: the awaited `get` returns the next item;
        a STOP marker ends the loop, an action goes to `self.runner.run`
        and the loop checks `killing` before awaiting `get` again. With the
        queue empty the `get` has not returned and nothing changes. */
    method Step()
      requires phase == Waiting && runner != null && runner.Valid()
      requires runner.registry == registry && runner.json == json
      modifies this`actionQueue, this`phase, runner
      ensures runner.Valid() && killing == old(killing)
      ensures old(actionQueue) == [] ==> actionQueue == [] && phase == Waiting && runner.State() == old(runner.State())
      ensures old(actionQueue) != [] ==> actionQueue == old(actionQueue)[1..]
      ensures old(actionQueue) != [] && old(actionQueue)[0] == StopLoop
              ==> phase == Finished(Stopped) && runner.State() == old(runner.State())
      ensures old(actionQueue) != [] && old(actionQueue)[0].ActionItem?
              ==> runner.State() == RunnerSpec.Run(old(runner.State()), old(actionQueue)[0].action, registry)
                  && phase == (if killing then Finished(Killed) else Waiting)
    {
      if actionQueue == [] {
        return;
      }
      var item := actionQueue[0];
      actionQueue := actionQueue[1..];
      match item
      case StopLoop =>
        phase := Finished(Stopped);
      case ActionItem(a) =>
        runner.Run(a);
        if killing {
          phase := Finished(Killed);
        }
    }

    /** The loop when nothing else runs between its iterations: it steps
        until a STOP marker, `killing` at the check, or an empty queue, and
        so forwards exactly what `Dispatch` says. */
    method Drain() returns (ghost fwd: seq<RunnerSpec.Action>)
      requires phase == Waiting && runner != null && runner.Valid()
      requires runner.registry == registry && runner.json == json
      modifies this`actionQueue, this`phase, runner
      ensures runner.Valid() && killing == old(killing)
      ensures var d := Dispatch(old(actionQueue), killing, true);
        && fwd == d.forwarded
        && actionQueue == d.rest
        && runner.State() == RunnerSpec.Execute(old(runner.State()), RunOps(d.forwarded), registry, json)
        && phase == (if d.exit == Blocked then Waiting else Finished(d.exit))
    {
      ghost var q0 := actionQueue;
      ghost var s0 := runner.State();
      fwd := [];
      assert RunOps([]) == [];
      assert Tracks(q0, killing, true, [], q0, true);
      while phase == Waiting && actionQueue != []
        invariant runner.Valid() && phase != NotStarted
        invariant runner.State() == RunnerSpec.Execute(s0, RunOps(fwd), registry, json)
        invariant phase == Waiting ==> Tracks(q0, killing, true, fwd, actionQueue, true)
        invariant phase == Finished(Killed) ==> killing && Tracks(q0, killing, true, fwd, actionQueue, false)
        invariant phase == Finished(Stopped) ==> Dispatch(q0, killing, true) == Dispatched(fwd, actionQueue, Stopped)
        invariant phase.Finished? ==> phase.exit != Blocked
        decreases |actionQueue|
      {
        var item := actionQueue[0];
        ghost var queue := actionQueue;
        ghost var before := runner.State();
        Step();
        if item.ActionItem? {
          TracksAction(q0, killing, true, fwd, queue, true);
          ExecuteRunSnoc(s0, fwd, item.action, registry, json);
          fwd := fwd + [item.action];
          if !killing {
            DispatchUnkilled(actionQueue);
          }
        } else {
          TracksStop(q0, killing, true, fwd, queue, true);
        }
      }
      if phase == Waiting {
        TracksStop(q0, killing, true, fwd, actionQueue, true);
      } else if phase == Finished(Killed) {
        TracksStop(q0, killing, true, fwd, actionQueue, false);
      }
    }

    /** `wait_for_tasks`: it waits on the runner if there is one, and does
        nothing otherwise. */
    method WaitForTasks(during: seq<seq<RunnerSpec.Op>>) returns (drained: bool, polls: nat)
      requires runner != null ==> runner.Valid()
      modifies runner
      ensures runner != null ==>
                && runner.Valid() && polls <= |during|
                && runner.State() == WorkerRunner.Waited(old(runner.State()), during, polls, runner.registry, runner.json)
                && (drained <==> |runner.tasks| == 0)
                && (!drained ==> polls == |during|)
                && WorkerRunner.BusyBefore(old(runner.State()), during, polls, runner.registry, runner.json)
      ensures runner == null ==> drained && polls == 0
    {
      if runner != null {
        drained, polls := runner.WaitForTasks(during);
      } else {
        drained, polls := true, 0;
      }
    }
  }
}
