/** The workflow admin client of hatchet_sdk/clients/admin.py: request
    preparation, namespacing, the translation of gRPC errors, and the lazily
    created pooled workflow-run listener. The gRPC service is a parameter:
    its answer to each request. */
module Admin {
  import opened Wrappers
  import opened Text
  import opened Python

  datatype ScheduleTriggerWorkflowOptions = ScheduleTriggerWorkflowOptions(
    parentId: Option<string>, parentStepRunId: Option<string>, childIndex: Option<int>,
    childKey: Option<string>, namespace: Option<string>)

  datatype TriggerWorkflowOptions = TriggerWorkflowOptions(
    parentId: Option<string>, parentStepRunId: Option<string>, childIndex: Option<int>,
    childKey: Option<string>, namespace: Option<string>, additionalMetadata: PyValue,
    desiredWorkerId: Option<string>)

  datatype WorkflowRunDict = WorkflowRunDict(workflowName: string, input: PyValue, options: TriggerWorkflowOptions)

  datatype TriggerWorkflowRequest = TriggerWorkflowRequest(
    name: string, input: string, parentId: Option<string>, parentStepRunId: Option<string>,
    childIndex: Option<int>, childKey: Option<string>, additionalMetadata: seq<byte>,
    desiredWorkerId: Option<string>)

  /** What a schedule is given as: a `datetime` (its POSIX time), a
      protobuf timestamp, or anything else. */
  datatype ScheduleInput = ScheduleDatetime(posixTime: real) | ScheduleTimestamp(ts: Timestamp) | ScheduleOther

  datatype ScheduleWorkflowRequest = ScheduleWorkflowRequest(
    name: string, schedules: seq<Timestamp>, input: string, parentId: Option<string>,
    parentStepRunId: Option<string>, childIndex: Option<int>, childKey: Option<string>,
    namespace: Option<string>)

  /** The server's reply to `ScheduleWorkflow`, passed through untouched. */
  datatype WorkflowVersion = WorkflowVersion(id: string)

  /** The workflow service: its answer to each request. */
  datatype WorkflowService = WorkflowService(
    trigger: TriggerWorkflowRequest -> RpcOutcome<string>,
    bulkTrigger: seq<TriggerWorkflowRequest> -> RpcOutcome<seq<string>>,
    schedule: ScheduleWorkflowRequest -> RpcOutcome<WorkflowVersion>)

  /** A handle on a run: its id and the pooled listener it will be awaited on. */
  datatype WorkflowRunRef = WorkflowRunRef(workflowRunId: string, workflowListener: nat)

  // ---------------------------------------------------------------------------
  // Namespacing

  /** The prefixing done before every trigger and schedule: the effective
      namespace is prepended unless the name already starts with the CLIENT's
      namespace. */
  function ApplyNamespace(name: string, optNamespace: Option<string>, clientNamespace: string): (r: string)
    ensures r == name || r == NamespaceOr(optNamespace, clientNamespace) + name
    ensures r != name <==> NamespaceOr(optNamespace, clientNamespace) != "" && !StartsWith(name, clientNamespace)
  {
    var ns := NamespaceOr(optNamespace, clientNamespace);
    if ns != "" && !StartsWith(name, clientNamespace) then ns + name else name
  }

  /** Without a per-call namespace, prefixing twice is prefixing once. */
  lemma ApplyNamespaceIdempotent(name: string, clientNamespace: string)
    ensures ApplyNamespace(ApplyNamespace(name, None, clientNamespace), None, clientNamespace)
         == ApplyNamespace(name, None, clientNamespace)
  {
    var once := ApplyNamespace(name, None, clientNamespace);
    if once != name {
      assert once[..|clientNamespace|] == clientNamespace;
    }
  }

  /** A client without a namespace never prefixes, even when the call names
      one: every name starts with the empty string. */
  lemma EmptyClientNamespaceNeverPrefixes(name: string, optNamespace: Option<string>)
    ensures ApplyNamespace(name, optNamespace, "") == name
  {
    assert StartsWith(name, "");
  }

  /** A per-call namespace is checked against the client's namespace, not
      against itself, so it is prepended again to a name that already
      carries it. */
  lemma CallNamespaceStacks(name: string, callNamespace: string, clientNamespace: string)
    requires callNamespace != ""
    requires !StartsWith(name, clientNamespace) && !StartsWith(callNamespace + name, clientNamespace)
    ensures ApplyNamespace(ApplyNamespace(name, Some(callNamespace), clientNamespace), Some(callNamespace), clientNamespace)
         == callNamespace + callNamespace + name
  {
    assert ApplyNamespace(name, Some(callNamespace), clientNamespace) == callNamespace + name;
  }

  /** For instance "wf" with call namespace "a_" on a "b_" client. */
  lemma CallNamespaceStacksExample()
    ensures ApplyNamespace(ApplyNamespace("wf", Some("a_"), "b_"), Some("a_"), "b_") == "a_a_wf"
  {
    assert "wf"[..2][0] != "b_"[0];
    assert "a_wf"[..2][0] != "b_"[0];
    CallNamespaceStacks("wf", "a_", "b_");
  }

  // ---------------------------------------------------------------------------
  // Request preparation

  /** `_prepare_workflow_request` as written: the `except` clauses catch
      `json.JSONDecodeError`, which `json.dumps` never raises, so an
      encoding failure escapes as the encoder's own exception. */
  function PrepareWorkflowRequestAsWritten(name: string, input: PyValue, options: TriggerWorkflowOptions, json: Json)
    : (r: PyResult<TriggerWorkflowRequest>)
    ensures json.dumps(input).Err? ==> r == Err(JsonEncodeError(json.dumps(input).error))
    ensures json.dumps(input).Ok? && json.dumps(options.additionalMetadata).Err?
            ==> r == Err(JsonEncodeError(json.dumps(options.additionalMetadata).error))
  {
    match json.dumps(input)
    case Err(e) => Err(JsonEncodeError(e))
    case Ok(payload) =>
      match json.dumps(options.additionalMetadata)
      case Err(e) => Err(JsonEncodeError(e))
      case Ok(meta) =>
        Ok(TriggerWorkflowRequest(name, payload, options.parentId, options.parentStepRunId, options.childIndex,
                                  options.childKey, Utf8Encode(meta), options.desiredWorkerId))
  }

  /** `_prepare_workflow_request` as evidently intended: an encoding
      failure becomes `ValueError("Error encoding payload: ...")`. */
  function PrepareWorkflowRequest(name: string, input: PyValue, options: TriggerWorkflowOptions, json: Json)
    : (r: PyResult<TriggerWorkflowRequest>)
    ensures r.Ok? <==> json.dumps(input).Ok? && json.dumps(options.additionalMetadata).Ok?
    ensures r.Err? ==> r.error.ValueError? && StartsWith(r.error.message, "Error encoding payload: ")
    ensures r.Ok? ==>
              (r.value.name == name && r.value.input == json.dumps(input).value
               && Utf8Decode(r.value.additionalMetadata) == Some(json.dumps(options.additionalMetadata).value)
               && r.value.parentId == options.parentId && r.value.parentStepRunId == options.parentStepRunId
               && r.value.childIndex == options.childIndex && r.value.childKey == options.childKey
               && r.value.desiredWorkerId == options.desiredWorkerId)
  {
    match json.dumps(input)
    case Err(e) => Err(ValueError("Error encoding payload: " + e))
    case Ok(payload) =>
      match json.dumps(options.additionalMetadata)
      case Err(e) => Err(ValueError("Error encoding payload: " + e))
      case Ok(meta) =>
        Utf8RoundTrip(meta);
        Ok(TriggerWorkflowRequest(name, payload, options.parentId, options.parentStepRunId, options.childIndex,
                                  options.childKey, Utf8Encode(meta), options.desiredWorkerId))
  }

  /** The two versions agree on every input that encodes. On every input
      that does not, the one as written lets the encoder's own exception
      escape instead of ValueError("Error encoding payload: ..."). */
  lemma PrepareAsWrittenLeaksEncoderError(name: string, input: PyValue, options: TriggerWorkflowOptions, json: Json)
    ensures PrepareWorkflowRequest(name, input, options, json).Ok?
            ==> PrepareWorkflowRequestAsWritten(name, input, options, json) == PrepareWorkflowRequest(name, input, options, json)
    ensures PrepareWorkflowRequest(name, input, options, json).Err?
            ==> PrepareWorkflowRequestAsWritten(name, input, options, json).Err?
                && !PrepareWorkflowRequestAsWritten(name, input, options, json).error.ValueError?
  {
  }

  /** `_parse_schedule`. */
  function ParseSchedule(s: ScheduleInput): (r: PyResult<Timestamp>)
    ensures s.ScheduleTimestamp? ==> r == Ok(s.ts)
    ensures s.ScheduleOther? ==> r == Err(ValueError("Invalid schedule type. Must be datetime or timestamp_pb2.Timestamp."))
    ensures s.ScheduleDatetime? ==> r == Ok(TimestampOf(s.posixTime))
  {
    match s
    case ScheduleDatetime(t) => Ok(TimestampOf(t))
    case ScheduleTimestamp(ts) => Ok(ts)
    case ScheduleOther => Err(ValueError("Invalid schedule type. Must be datetime or timestamp_pb2.Timestamp."))
  }

  /** `[self._parse_schedule(schedule) for schedule in schedules]`: the first
      failure is raised. */
  function ParseSchedules(schedules: seq<ScheduleInput>): (r: PyResult<seq<Timestamp>>)
    ensures r.Ok? <==> forall i :: 0 <= i < |schedules| ==> ParseSchedule(schedules[i]).Ok?
    ensures r.Ok? ==>
              (|r.value| == |schedules|
               && forall i :: 0 <= i < |schedules| ==> r.value[i] == ParseSchedule(schedules[i]).value)
  {
    if schedules == [] then Ok([])
    else
      match ParseSchedule(schedules[0])
      case Err(e) => Err(e)
      case Ok(t) =>
        match ParseSchedules(schedules[1..])
        case Err(e) => Err(e)
        case Ok(ts) => Ok([t] + ts)
  }

  /** `_prepare_schedule_workflow_request`: the schedules are parsed before
      the input is encoded, and nothing wraps an encoding failure. */
  function PrepareScheduleWorkflowRequest(name: string, schedules: seq<ScheduleInput>, input: PyValue,
                                          options: ScheduleTriggerWorkflowOptions, json: Json)
    : (r: PyResult<ScheduleWorkflowRequest>)
    ensures ParseSchedules(schedules).Err? ==> r == Err(ParseSchedules(schedules).error)
    ensures ParseSchedules(schedules).Ok? && json.dumps(input).Err? ==> r == Err(JsonEncodeError(json.dumps(input).error))
    ensures r.Ok? <==> ParseSchedules(schedules).Ok? && json.dumps(input).Ok?
    ensures r.Ok? ==>
              (r.value.name == name && r.value.schedules == ParseSchedules(schedules).value
               && r.value.input == json.dumps(input).value
               && r.value.parentId == options.parentId && r.value.parentStepRunId == options.parentStepRunId
               && r.value.childIndex == options.childIndex && r.value.childKey == options.childKey
               && r.value.namespace == options.namespace)
  {
    match ParseSchedules(schedules)
    case Err(e) => Err(e)
    case Ok(ts) =>
      match json.dumps(input)
      case Err(e) => Err(JsonEncodeError(e))
      case Ok(payload) =>
        Ok(ScheduleWorkflowRequest(name, ts, payload, options.parentId, options.parentStepRunId,
                                   options.childIndex, options.childKey, options.namespace))
  }

  /** The `except (grpc.RpcError, ...)` clause of `run_workflow` and
      `schedule_workflow`. */
  function TranslateRpcError(code: GrpcCode, details: string): (e: PyError)
    ensures e.DedupeViolationErr? <==> code == AlreadyExists
    ensures e.DedupeViolationErr? ==> e.details == details
    ensures !e.DedupeViolationErr? ==> e == RpcError(code, details)
  {
    if code == AlreadyExists then DedupeViolationErr(details) else RpcError(code, details)
  }

  /** `_prepare_workflow_run_request`: the batch-wide options are ignored;
      each entry's own options decide namespace and metadata. */
  function PrepareWorkflowRunRequest(workflow: WorkflowRunDict, batchOptions: TriggerWorkflowOptions,
                                     clientNamespace: string, json: Json)
    : (r: PyResult<TriggerWorkflowRequest>)
    ensures r == PrepareWorkflowRequest(
                   ApplyNamespace(workflow.workflowName, workflow.options.namespace, clientNamespace),
                   workflow.input, workflow.options, json)
  {
    var name := ApplyNamespace(workflow.workflowName, workflow.options.namespace, clientNamespace);
    PrepareWorkflowRequest(name, workflow.input, workflow.options, json)
  }

  lemma BatchOptionsIgnored(workflow: WorkflowRunDict, a: TriggerWorkflowOptions, b: TriggerWorkflowOptions,
                            clientNamespace: string, json: Json)
    ensures PrepareWorkflowRunRequest(workflow, a, clientNamespace, json)
         == PrepareWorkflowRunRequest(workflow, b, clientNamespace, json)
  {
  }

  /** The list comprehension over `workflows` in `run_workflows`. */
  function PrepareWorkflowRunRequests(workflows: seq<WorkflowRunDict>, batchOptions: TriggerWorkflowOptions,
                                      clientNamespace: string, json: Json)
    : (r: PyResult<seq<TriggerWorkflowRequest>>)
    ensures r.Ok? <==> forall i :: 0 <= i < |workflows| ==>
                         PrepareWorkflowRunRequest(workflows[i], batchOptions, clientNamespace, json).Ok?
    ensures r.Ok? ==> |r.value| == |workflows| && forall i :: 0 <= i < |workflows| ==>
              r.value[i] == PrepareWorkflowRunRequest(workflows[i], batchOptions, clientNamespace, json).value
    ensures r.Err? ==> r.error.ValueError?
  {
    if workflows == [] then Ok([])
    else
      match PrepareWorkflowRunRequest(workflows[0], batchOptions, clientNamespace, json)
      case Err(e) => Err(e)
      case Ok(q) =>
        match PrepareWorkflowRunRequests(workflows[1..], batchOptions, clientNamespace, json)
        case Err(e) => Err(e)
        case Ok(qs) => Ok([q] + qs)
  }

  /** One reference per returned id, in order, all on the same listener. */
  function RunRefs(ids: seq<string>, listener: nat): (refs: seq<WorkflowRunRef>)
    ensures |refs| == |ids|
    ensures forall i :: 0 <= i < |ids| ==> refs[i] == WorkflowRunRef(ids[i], listener)
  {
    seq(|ids|, i requires 0 <= i < |ids| => WorkflowRunRef(ids[i], listener))
  }

  // ---------------------------------------------------------------------------
  // What one call returns, given the listener it runs with

  /** `run_workflow` after the listener is ensured. */
  function RunWorkflowResult(workflowName: string, input: PyValue, options: TriggerWorkflowOptions,
                             clientNamespace: string, json: Json, service: WorkflowService, listener: nat)
    : (r: PyResult<WorkflowRunRef>)
    ensures var req := PrepareWorkflowRequest(ApplyNamespace(workflowName, options.namespace, clientNamespace),
                                              input, options, json);
            && (req.Err? ==> r == Err(req.error))
            && (req.Ok? && service.trigger(req.value).RpcOk? ==>
                  r == Ok(WorkflowRunRef(service.trigger(req.value).response, listener)))
            && (req.Ok? && service.trigger(req.value).RpcFailed? ==>
                  r == Err(TranslateRpcError(service.trigger(req.value).code, service.trigger(req.value).details)))
    ensures r.Err? && r.error.DedupeViolationErr? ==>
              exists q :: service.trigger(q) == RpcFailed(AlreadyExists, r.error.details)
  {
    var name := ApplyNamespace(workflowName, options.namespace, clientNamespace);
    match PrepareWorkflowRequest(name, input, options, json)
    case Err(e) => Err(e)
    case Ok(q) =>
      match service.trigger(q)
      case RpcOk(id) => Ok(WorkflowRunRef(id, listener))
      case RpcFailed(code, details) => Err(TranslateRpcError(code, details))
  }

  /** `schedule_workflow`. */
  function ScheduleWorkflowResult(name: string, schedules: seq<ScheduleInput>, input: PyValue,
                                  options: ScheduleTriggerWorkflowOptions, clientNamespace: string, json: Json,
                                  service: WorkflowService)
    : (r: PyResult<WorkflowVersion>)
    ensures var req := PrepareScheduleWorkflowRequest(ApplyNamespace(name, options.namespace, clientNamespace),
                                                      schedules, input, options, json);
            && (req.Err? ==> r == Err(req.error))
            && (req.Ok? && service.schedule(req.value).RpcOk? ==> r == Ok(service.schedule(req.value).response))
            && (req.Ok? && service.schedule(req.value).RpcFailed? ==>
                  r == Err(TranslateRpcError(service.schedule(req.value).code, service.schedule(req.value).details)))
  {
    var namespaced := ApplyNamespace(name, options.namespace, clientNamespace);
    match PrepareScheduleWorkflowRequest(namespaced, schedules, input, options, json)
    case Err(e) => Err(e)
    case Ok(q) =>
      match service.schedule(q)
      case RpcOk(v) => Ok(v)
      case RpcFailed(code, details) => Err(TranslateRpcError(code, details))
  }

  /** `run_workflows` after the listener is ensured: no dedupe translation
      here, a failed bulk call is raised as it is. */
  function RunWorkflowsResult(workflows: seq<WorkflowRunDict>, options: TriggerWorkflowOptions,
                              clientNamespace: string, json: Json, service: WorkflowService, listener: nat)
    : (r: PyResult<seq<WorkflowRunRef>>)
    ensures var reqs := PrepareWorkflowRunRequests(workflows, options, clientNamespace, json);
            && (reqs.Err? ==> r == Err(reqs.error))
            && (reqs.Ok? && service.bulkTrigger(reqs.value).RpcOk? ==>
                  r.Ok? && |r.value| == |service.bulkTrigger(reqs.value).response|
                  && forall i :: 0 <= i < |r.value| ==>
                       r.value[i] == WorkflowRunRef(service.bulkTrigger(reqs.value).response[i], listener))
            && (reqs.Ok? && service.bulkTrigger(reqs.value).RpcFailed? ==>
                  r == Err(RpcError(service.bulkTrigger(reqs.value).code, service.bulkTrigger(reqs.value).details)))
    ensures r.Err? ==> !r.error.DedupeViolationErr?
  {
    match PrepareWorkflowRunRequests(workflows, options, clientNamespace, json)
    case Err(e) => Err(e)
    case Ok(qs) =>
      match service.bulkTrigger(qs)
      case RpcOk(ids) => Ok(RunRefs(ids, listener))
      case RpcFailed(code, details) => Err(RpcError(code, details))
  }

  // ---------------------------------------------------------------------------
  // The client object

  class AdminClient {
    const namespace: string
    const json: Json
    const service: WorkflowService
    /** The pooled listener, by creation number; None until first needed. */
    var pooledWorkflowListener: Option<nat>
    /** How many pooled listeners this client has created. */
    var listenersCreated: nat

    /** At most one listener is ever created, and it is the one held. */
    predicate Valid()
      reads this
    {
      && listenersCreated <= 1
      && (pooledWorkflowListener.None? <==> listenersCreated == 0)
      && (pooledWorkflowListener.Some? ==> pooledWorkflowListener.value == 0)
    }

    constructor(namespace: string, json: Json, service: WorkflowService)
      ensures Valid() && pooledWorkflowListener == None
      ensures this.namespace == namespace && this.json == json && this.service == service
    {
      this.namespace, this.json, this.service := namespace, json, service;
      pooledWorkflowListener := None;
      listenersCreated := 0;
    }

    /** `if not self.pooled_workflow_listener: self.pooled_workflow_listener = ...`. */
    method EnsureListener() returns (listener: nat)
      requires Valid()
      modifies this
      ensures Valid() && pooledWorkflowListener == Some(listener)
      ensures old(pooledWorkflowListener).Some? ==> pooledWorkflowListener == old(pooledWorkflowListener)
      ensures listenersCreated == 1
    {
      if pooledWorkflowListener.None? {
        pooledWorkflowListener := Some(listenersCreated);
        listenersCreated := listenersCreated + 1;
      }
      listener := pooledWorkflowListener.value;
    }

    /** `run_workflow`. The listener is created before anything can fail. */
    method RunWorkflow(workflowName: string, input: PyValue, options: TriggerWorkflowOptions)
      returns (r: PyResult<WorkflowRunRef>)
      requires Valid()
      modifies this
      ensures Valid() && pooledWorkflowListener.Some?
      ensures old(pooledWorkflowListener).Some? ==> pooledWorkflowListener == old(pooledWorkflowListener)
      ensures r == RunWorkflowResult(workflowName, input, options, namespace, json, service,
                                     pooledWorkflowListener.value)
    {
      var listener := EnsureListener();
      var name := ApplyNamespace(workflowName, options.namespace, namespace);
      var request := PrepareWorkflowRequest(name, input, options, json);
      if request.Err? {
        return Err(request.error);
      }
      var response := service.trigger(request.value);
      if response.RpcFailed? {
        return Err(TranslateRpcError(response.code, response.details));
      }
      r := Ok(WorkflowRunRef(response.response, listener));
    }

    /** `schedule_workflow`; it does not touch the listener. */
    method ScheduleWorkflow(name: string, schedules: seq<ScheduleInput>, input: PyValue,
                            options: ScheduleTriggerWorkflowOptions)
      returns (r: PyResult<WorkflowVersion>)
      ensures r == ScheduleWorkflowResult(name, schedules, input, options, namespace, json, service)
    {
      r := ScheduleWorkflowResult(name, schedules, input, options, namespace, json, service);
    }

    /** `run_workflows`. */
    method RunWorkflows(workflows: seq<WorkflowRunDict>, options: TriggerWorkflowOptions)
      returns (r: PyResult<seq<WorkflowRunRef>>)
      requires Valid()
      modifies this
      ensures Valid() && pooledWorkflowListener.Some?
      ensures old(pooledWorkflowListener).Some? ==> pooledWorkflowListener == old(pooledWorkflowListener)
      ensures r == RunWorkflowsResult(workflows, options, namespace, json, service, pooledWorkflowListener.value)
    {
      var listener := EnsureListener();
      r := RunWorkflowsResult(workflows, options, namespace, json, service, listener);
    }

    /** `get_workflow_run`. */
    method GetWorkflowRun(workflowRunId: string) returns (ref: WorkflowRunRef)
      requires Valid()
      modifies this
      ensures Valid() && pooledWorkflowListener.Some?
      ensures old(pooledWorkflowListener).Some? ==> pooledWorkflowListener == old(pooledWorkflowListener)
      ensures ref == WorkflowRunRef(workflowRunId, pooledWorkflowListener.value)
    {
      var listener := EnsureListener();
      ref := WorkflowRunRef(workflowRunId, listener);
    }
  }

  /** However many calls a client serves, they all share one listener. */
  method ListenerShared(client: AdminClient, first: string, second: string)
    returns (a: WorkflowRunRef, b: WorkflowRunRef)
    requires client.Valid()
    modifies client
    ensures a.workflowListener == b.workflowListener == 0 && client.listenersCreated == 1
  {
    a := client.GetWorkflowRun(first);
    b := client.GetWorkflowRun(second);
  }
}
