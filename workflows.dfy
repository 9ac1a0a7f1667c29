/** Workflow declarations of hatchet_sdk/v2/workflows.py: steps, the
    workflow base class, and the translation of a workflow class into the
    protobuf creation options sent to the server. */
module Workflows {
  import opened Wrappers
  import opened Text
  import opened Python

  datatype StickyStrategy = Soft | Hard

  /** The enum member's `.name`. */
  function StickyName(s: StickyStrategy): string
  {
    match s
    case Soft => "SOFT"
    case Hard => "HARD"
  }

  datatype ConcurrencyLimitStrategy = CancelInProgress | DropNewest | QueueNewest | GroupRoundRobin | CancelNewest

  function ConcurrencyName(c: ConcurrencyLimitStrategy): string
  {
    match c
    case CancelInProgress => "CANCEL_IN_PROGRESS"
    case DropNewest => "DROP_NEWEST"
    case QueueNewest => "QUEUE_NEWEST"
    case GroupRoundRobin => "GROUP_ROUND_ROBIN"
    case CancelNewest => "CANCEL_NEWEST"
  }

  datatype StepType = Default | Concurrency | OnFailure

  datatype ConcurrencyExpression = ConcurrencyExpression(
    expression: string, maxRuns: int, limitStrategy: ConcurrencyLimitStrategy)

  /** A workflow's configuration. It is a mutable object: the base class
      constructor writes the resolved name back into it, and every instance
      of a workflow class shares its class's configuration object. */
  class WorkflowConfig {
    var name: string
    const onEvents: seq<string>
    const onCrons: seq<string>
    const version: string
    const timeout: string
    const scheduleTimeout: string
    const sticky: Option<StickyStrategy>
    const defaultPriority: int
    const concurrency: Option<ConcurrencyExpression>

    constructor(name: string, onEvents: seq<string>, onCrons: seq<string>, version: string, timeout: string,
                scheduleTimeout: string, sticky: Option<StickyStrategy>, defaultPriority: int,
                concurrency: Option<ConcurrencyExpression>)
      ensures this.name == name && this.onEvents == onEvents && this.onCrons == onCrons
      ensures this.version == version && this.timeout == timeout && this.scheduleTimeout == scheduleTimeout
      ensures this.sticky == sticky && this.defaultPriority == defaultPriority && this.concurrency == concurrency
    {
      this.name, this.onEvents, this.onCrons, this.version := name, onEvents, onCrons, version;
      this.timeout, this.scheduleTimeout, this.sticky := timeout, scheduleTimeout, sticky;
      this.defaultPriority, this.concurrency := defaultPriority, concurrency;
    }
  }

  // ---------------------------------------------------------------------------
  // Protobuf messages

  /** A rate limit as the server receives it; built outside the core. */
  datatype CreateStepRateLimit = CreateStepRateLimit(key: string, units: int)

  datatype DesiredWorkerLabels = DesiredWorkerLabels(
    strValue: Option<string>, intValue: Option<int>, required: Option<bool>,
    weight: Option<int>, comparator: Option<int>)

  /** A protobuf enum field is set either by number or by value name. */
  datatype EnumField = EnumNumber(number: int) | EnumName(name: string)

  datatype WorkflowConcurrencyOpts = WorkflowConcurrencyOpts(
    action: Option<string>, expression: Option<string>, maxRuns: Option<int>, limitStrategy: Option<EnumField>)

  datatype CreateWorkflowStepOpts = CreateWorkflowStepOpts(
    readableId: string, action: string, timeout: string, inputs: string, parents: seq<string>,
    retries: int, rateLimits: seq<CreateStepRateLimit>, workerLabels: map<string, DesiredWorkerLabels>,
    backoffFactor: Option<real>, backoffMaxSeconds: Option<int>)

  datatype CreateWorkflowJobOpts = CreateWorkflowJobOpts(name: string, steps: seq<CreateWorkflowStepOpts>)

  datatype WorkflowKind = Dag

  datatype CreateWorkflowVersionOpts = CreateWorkflowVersionOpts(
    name: string, kind: WorkflowKind, version: string, eventTriggers: seq<string>, cronTriggers: seq<string>,
    scheduleTimeout: string, sticky: Option<int>, jobs: seq<CreateWorkflowJobOpts>,
    onFailureJob: Option<CreateWorkflowJobOpts>, concurrency: Option<WorkflowConcurrencyOpts>,
    defaultPriority: Option<int>)

  /** A protobuf enum's descriptor: its name and its values in declaration order. */
  datatype EnumDescriptor = EnumDescriptor(enumName: string, values: seq<(string, int)>)

  /** The two generated enums the translation consults. */
  datatype ProtoEnums = ProtoEnums(sticky: EnumDescriptor, concurrencyLimit: EnumDescriptor)

  /** `[item.name for item in DESCRIPTOR.values]`. */
  function Names(d: EnumDescriptor): (names: seq<string>)
    ensures |names| == |d.values| && forall i :: 0 <= i < |names| ==> names[i] == d.values[i].0
  {
    seq(|d.values|, i requires 0 <= i < |d.values| => d.values[i].0)
  }

  function FirstValue(values: seq<(string, int)>, name: string): (r: Option<int>)
    ensures r.Some? <==> exists i :: 0 <= i < |values| && values[i].0 == name
    ensures r.Some? ==> exists i :: 0 <= i < |values| && values[i] == (name, r.value)
  {
    if values == [] then None
    else if values[0].0 == name then Some(values[0].1)
    else FirstValue(values[1..], name)
  }

  /** `EnumTypeWrapper.Value(name)`: the number of the value called `name`. */
  function EnumValue(d: EnumDescriptor, name: string): (r: PyResult<int>)
    ensures r.Ok? <==> name in Names(d)
    ensures r.Ok? ==> (name, r.value) in d.values
    ensures r.Err? ==> r.error.ValueError?
  {
    match FirstValue(d.values, name)
    case Some(v) => Ok(v)
    case None =>
      assert forall i :: 0 <= i < |Names(d)| ==> Names(d)[i] != name;
      Err(ValueError("Enum " + d.enumName + " has no value defined for name '" + name + "'"))
  }

  // ---------------------------------------------------------------------------
  // Steps

  /** A user's step function, as far as the core looks at it. */
  datatype StepFn = StepFn(fnName: string, isCoroutine: bool)

  /** `is_async_fn`: `asyncio.iscoroutinefunction`. */
  function IsAsyncFn(fn: StepFn): (r: bool)
    ensures r <==> fn.isCoroutine
  {
    fn.isCoroutine
  }

  /** `is_sync_fn`: exactly the functions that are not coroutine functions. */
  function IsSyncFn(fn: StepFn): (r: bool)
    ensures r <==> !IsAsyncFn(fn)
  {
    !fn.isCoroutine
  }

  datatype Step = Step(
    fn: StepFn, isAsyncFunction: bool, stepType: StepType, name: string, timeout: string,
    parents: seq<string>, retries: int, rateLimits: seq<CreateStepRateLimit>,
    desiredWorkerLabels: map<string, DesiredWorkerLabels>, backoffFactor: Option<real>,
    backoffMaxSeconds: Option<int>, concurrencyMaxRuns: Option<int>,
    concurrencyLimitStrategy: Option<ConcurrencyLimitStrategy>)

  /** What `Step.__init__` always establishes: the async flag is the
      function's own nature. */
  predicate StepValid(s: Step) { s.isAsyncFunction == IsAsyncFn(s.fn) }

  /** `Step.__init__`. */
  function NewStep(
    fn: StepFn, stepType: StepType, name: string, timeout: string, parents: seq<string>, retries: int,
    rateLimits: seq<CreateStepRateLimit>, labels: map<string, DesiredWorkerLabels>,
    backoffFactor: Option<real>, backoffMaxSeconds: Option<int>,
    maxRuns: Option<int>, limitStrategy: Option<ConcurrencyLimitStrategy>): (s: Step)
    ensures StepValid(s)
    ensures s.fn == fn && s.stepType == stepType && s.name == name && s.timeout == timeout
    ensures s.parents == parents && s.retries == retries && s.rateLimits == rateLimits
    ensures s.desiredWorkerLabels == labels && s.backoffFactor == backoffFactor
    ensures s.backoffMaxSeconds == backoffMaxSeconds && s.concurrencyMaxRuns == maxRuns
    ensures s.concurrencyLimitStrategy == limitStrategy
  {
    Step(fn, IsAsyncFn(fn), stepType, name, timeout, parents, retries, rateLimits, labels,
         backoffFactor, backoffMaxSeconds, maxRuns, limitStrategy)
  }

  /** A step bound to the workflow instance it is called on. */
  datatype RegisteredStep = RegisteredStep(step: Step)

  /** `RegisteredStep.call`: `result` is what the step function returns
      when called. */
  function Call<R>(rs: RegisteredStep, result: R): (r: PyResult<R>)
    ensures r.Ok? <==> !rs.step.isAsyncFunction && IsSyncFn(rs.step.fn)
    ensures r.Ok? ==> r.value == result
    ensures r.Err? ==> r.error == TypeError(rs.step.name + " is not a sync function. Use `acall` instead.")
  {
    if rs.step.isAsyncFunction then Err(TypeError(rs.step.name + " is not a sync function. Use `acall` instead."))
    else if IsSyncFn(rs.step.fn) then Ok(result)
    else Err(TypeError(rs.step.name + " is not a sync function. Use `acall` instead."))
  }

  /** `RegisteredStep.acall`: `result` is what the awaited step returns. */
  function ACall<R>(rs: RegisteredStep, result: R): (r: PyResult<R>)
    ensures r.Ok? <==> rs.step.isAsyncFunction && IsAsyncFn(rs.step.fn)
    ensures r.Ok? ==> r.value == result
    ensures r.Err? ==> r.error == TypeError(rs.step.name + " is not an async function. Use `call` instead.")
  {
    if !rs.step.isAsyncFunction then Err(TypeError(rs.step.name + " is not an async function. Use `call` instead."))
    else if IsAsyncFn(rs.step.fn) then Ok(result)
    else Err(TypeError(rs.step.name + " is not an async function. Use `call` instead."))
  }

  /** For a step built by its constructor exactly one of `call` and `acall`
      succeeds. */
  lemma CallOrACall<R>(rs: RegisteredStep, result: R)
    requires StepValid(rs.step)
    ensures Call(rs, result).Ok? != ACall(rs, result).Ok?
  {
  }

  // ---------------------------------------------------------------------------
  // Collecting the steps of a workflow class

  /** One entry of a workflow class's own `__dict__`, in definition order. */
  datatype ClassAttr = StepAttr(step: Step) | OtherAttr(attrName: string)

  /** The steps of the given type among the class attributes, in order. */
  function StepsOfType(dict: seq<(string, ClassAttr)>, t: StepType): (r: seq<Step>)
    ensures forall i :: 0 <= i < |r| ==> r[i].stepType == t
    ensures |r| <= |dict|
  {
    if dict == [] then []
    else
      var rest := StepsOfType(dict[1..], t);
      match dict[0].1
      case StepAttr(s) => if s.stepType == t then [s] + rest else rest
      case OtherAttr(_) => rest
  }

  /** Every step among the class attributes, in order. */
  function AllSteps(dict: seq<(string, ClassAttr)>): seq<Step>
  {
    if dict == [] then []
    else
      match dict[0].1
      case StepAttr(s) => [s] + AllSteps(dict[1..])
      case OtherAttr(_) => AllSteps(dict[1..])
  }

  /** Filtering keeps definition order: it distributes over concatenation. */
  lemma {:induction false} StepsOfTypeAppend(a: seq<(string, ClassAttr)>, b: seq<(string, ClassAttr)>, t: StepType)
    ensures StepsOfType(a + b, t) == StepsOfType(a, t) + StepsOfType(b, t)
  {
    if a == [] {
      assert a + b == b;
    } else {
      assert (a + b)[1..] == a[1..] + b;
      StepsOfTypeAppend(a[1..], b, t);
    }
  }

  /** A step is collected under its type exactly when it is a class attribute. */
  lemma {:induction false} StepsOfTypeMembership(dict: seq<(string, ClassAttr)>, t: StepType, s: Step)
    ensures s in StepsOfType(dict, t) <==> s in AllSteps(dict) && s.stepType == t
  {
    if dict != [] {
      StepsOfTypeMembership(dict[1..], t, s);
    }
  }

  /** Splitting by type loses and duplicates nothing: default, concurrency
      and on-failure steps together are all the steps of the class. */
  lemma {:induction false} StepsPartition(dict: seq<(string, ClassAttr)>)
    ensures multiset(StepsOfType(dict, Default) + StepsOfType(dict, Concurrency) + StepsOfType(dict, OnFailure))
            == multiset(AllSteps(dict))
  {
    if dict != [] {
      StepsPartition(dict[1..]);
    }
  }

  /** Scanning an already collected step list for one type gives it back. */
  lemma {:induction false} StepsOfTypeOfSteps(steps: seq<Step>, t: StepType)
    requires forall i :: 0 <= i < |steps| ==> steps[i].stepType == t
    ensures FilterType(steps, t) == steps
  {
    if steps != [] {
      StepsOfTypeOfSteps(steps[1..], t);
    }
  }

  /** `[step for step in steps if step.type == t]`. */
  function FilterType(steps: seq<Step>, t: StepType): (r: seq<Step>)
    ensures |r| <= |steps|
    ensures forall i :: 0 <= i < |r| ==> r[i].stepType == t
  {
    if steps == [] then []
    else if steps[0].stepType == t then [steps[0]] + FilterType(steps[1..], t)
    else FilterType(steps[1..], t)
  }

  lemma {:induction false} FilterTypeAppend(a: seq<Step>, b: seq<Step>, t: StepType)
    ensures FilterType(a + b, t) == FilterType(a, t) + FilterType(b, t)
  {
    if a == [] {
      assert a + b == b;
    } else {
      assert (a + b)[1..] == a[1..] + b;
      FilterTypeAppend(a[1..], b, t);
    }
  }

  lemma {:induction false} FilterOtherType(steps: seq<Step>, t: StepType)
    requires forall i :: 0 <= i < |steps| ==> steps[i].stepType != t
    ensures FilterType(steps, t) == []
  {
    if steps != [] {
      FilterOtherType(steps[1..], t);
    }
  }

  // ---------------------------------------------------------------------------
  // Validation helpers that do not depend on the instance

  /** `validate_priority`: unset and 0 mean "no priority"; anything else is
      clamped into 1..3. */
  function ValidatePriority(p: Option<int>): (r: Option<int>)
    ensures r.None? <==> (p.None? || p.value == 0)
    ensures r.Some? ==> 1 <= r.value <= 3
    ensures p.Some? && 1 <= p.value <= 3 ==> r == p
    ensures p.Some? && p.value > 3 ==> r == Some(3)
    ensures p.Some? && p.value < 0 ==> r == Some(1)
  {
    if p.None? || p.value == 0 then None
    else Some(if p.value > 3 then 3 else if p.value < 1 then 1 else p.value)
  }

  lemma ValidatePriorityIdempotent(p: Option<int>)
    ensures ValidatePriority(ValidatePriority(p)) == ValidatePriority(p)
  {
  }

  /** `validate_concurrency` as written: the strategy is checked against the
      concurrency enum's names but its number is then looked up in the
      sticky enum. */
  function ValidateConcurrencyAsWritten(c: Option<ConcurrencyLimitStrategy>, enums: ProtoEnums)
    : (r: PyResult<Option<int>>)
    ensures c.None? ==> r == Ok(None)
    ensures c.Some? && ConcurrencyName(c.value) !in Names(enums.concurrencyLimit) ==> r.Err?
    ensures c.Some? && r.Ok? ==> ConcurrencyName(c.value) in Names(enums.sticky)
  {
    if c.None? then Ok(None)
    else if ConcurrencyName(c.value) in Names(enums.concurrencyLimit) then
      match EnumValue(enums.sticky, ConcurrencyName(c.value))
      case Ok(v) => Ok(Some(v))
      case Err(e) => Err(e)
    else Err(ValueError("Concurrency limit strategy must be one of " + enums.concurrencyLimit.enumName
                        + " names. Got: " + ConcurrencyName(c.value)))
  }

  /** `validate_concurrency` as evidently intended: the number comes from the
      concurrency enum itself. */
  function ValidateConcurrency(c: Option<ConcurrencyLimitStrategy>, enums: ProtoEnums): (r: PyResult<Option<int>>)
    ensures c.None? ==> r == Ok(None)
    ensures c.Some? ==> (r.Ok? <==> ConcurrencyName(c.value) in Names(enums.concurrencyLimit))
    ensures c.Some? && r.Ok? ==> r.value.Some? && (ConcurrencyName(c.value), r.value.value) in enums.concurrencyLimit.values
  {
    if c.None? then Ok(None)
    else if ConcurrencyName(c.value) in Names(enums.concurrencyLimit) then
      match EnumValue(enums.concurrencyLimit, ConcurrencyName(c.value))
      case Ok(v) => Ok(Some(v))
      case Err(e) => Err(e)
    else Err(ValueError("Concurrency limit strategy must be one of " + enums.concurrencyLimit.enumName
                        + " names. Got: " + ConcurrencyName(c.value)))
  }

  /** Descriptors with the value names of the Python-side enums (numbered in
      declaration order). */
  function StickyDescriptor(): EnumDescriptor
  {
    EnumDescriptor("StickyStrategy", [("SOFT", 0), ("HARD", 1)])
  }

  function ConcurrencyDescriptor(): EnumDescriptor
  {
    EnumDescriptor("ConcurrencyLimitStrategy",
      [("CANCEL_IN_PROGRESS", 0), ("DROP_NEWEST", 1), ("QUEUE_NEWEST", 2), ("GROUP_ROUND_ROBIN", 3),
       ("CANCEL_NEWEST", 4)])
  }

  /** The two enums share no value name, so as written every concurrency
      strategy on a concurrency step is rejected, while the intended lookup
      accepts every one of them. */
  lemma ConcurrencyAsWrittenRejectsEvery(c: ConcurrencyLimitStrategy)
    ensures ValidateConcurrencyAsWritten(Some(c), ProtoEnums(StickyDescriptor(), ConcurrencyDescriptor())).Err?
    ensures ValidateConcurrency(Some(c), ProtoEnums(StickyDescriptor(), ConcurrencyDescriptor())).Ok?
  {
    var enums := ProtoEnums(StickyDescriptor(), ConcurrencyDescriptor());
    assert Names(enums.sticky) == ["SOFT", "HARD"];
    assert Names(enums.concurrencyLimit)
        == ["CANCEL_IN_PROGRESS", "DROP_NEWEST", "QUEUE_NEWEST", "GROUP_ROUND_ROBIN", "CANCEL_NEWEST"];
  }

  /** `validate_sticky`. */
  function ValidateSticky(s: Option<StickyStrategy>, enums: ProtoEnums): (r: PyResult<Option<int>>)
    ensures s.None? ==> r == Ok(None)
    ensures s.Some? ==> (r.Ok? <==> StickyName(s.value) in Names(enums.sticky))
    ensures s.Some? && r.Ok? ==> r.value.Some? && (StickyName(s.value), r.value.value) in enums.sticky.values
  {
    if s.None? then Ok(None)
    else if StickyName(s.value) in Names(enums.sticky) then
      match EnumValue(enums.sticky, StickyName(s.value))
      case Ok(v) => Ok(Some(v))
      case Err(e) => Err(e)
    else Err(ValueError("Sticky strategy must be one of " + enums.sticky.enumName
                        + " names. Got: " + StickyName(s.value)))
  }

  /** The step options built for one default step. */
  function StepOpts(serviceName: string, step: Step): (o: CreateWorkflowStepOpts)
    ensures o.readableId == step.name && o.action == serviceName + ":" + step.name
    ensures o.timeout != "" && o.timeout == (if step.timeout == "" then "60s" else step.timeout)
    ensures o.inputs == "{}" && o.parents == step.parents && o.retries == step.retries
    ensures o.rateLimits == step.rateLimits && o.workerLabels == step.desiredWorkerLabels
    ensures o.backoffFactor == step.backoffFactor && o.backoffMaxSeconds == step.backoffMaxSeconds
  {
    CreateWorkflowStepOpts(step.name, serviceName + ":" + step.name, if step.timeout == "" then "60s" else step.timeout,
      "{}", step.parents, step.retries, step.rateLimits, step.desiredWorkerLabels,
      step.backoffFactor, step.backoffMaxSeconds)
  }

  function MapStepOpts(serviceName: string, steps: seq<Step>): (r: seq<CreateWorkflowStepOpts>)
    ensures |r| == |steps| && forall i :: 0 <= i < |steps| ==> r[i] == StepOpts(serviceName, steps[i])
  {
    seq(|steps|, i requires 0 <= i < |steps| => StepOpts(serviceName, steps[i]))
  }

  // ---------------------------------------------------------------------------
  // The workflow base class

  class BaseWorkflow {
    const className: string
    const config: WorkflowConfig
    /** The class's own attributes; inherited ones are not scanned. */
    const classDict: seq<(string, ClassAttr)>

    /** `BaseWorkflow.__init__`: an unnamed configuration takes the class
        name, written into the shared configuration object. */
    constructor(className: string, config: WorkflowConfig, classDict: seq<(string, ClassAttr)>)
      modifies config
      ensures this.className == className && this.config == config && this.classDict == classDict
      ensures config.name == if old(config.name) == "" then className else old(config.name)
    {
      this.className, this.config, this.classDict := className, config, classDict;
      config.name := if config.name == "" then className else config.name;
    }

    /** `get_service_name`. */
    function ServiceName(namespace: string): (r: string)
      reads config
      ensures StartsWith(r, namespace) && |r| == |namespace| + |config.name|
      ensures IsLowerCase(r[|namespace|..]) && r[|namespace|..] == Lower(config.name)
    {
      LowerIsLowerCase(config.name);
      var r := namespace + Lower(config.name);
      assert r[|namespace|..] == Lower(config.name);
      r
    }

    function OnFailureSteps(): seq<Step> { StepsOfType(classDict, OnFailure) }
    function ConcurrencyActions(): seq<Step> { StepsOfType(classDict, Concurrency) }
    function DefaultSteps(): seq<Step> { StepsOfType(classDict, Default) }

    /** The `steps` property. */
    function Steps(): (r: seq<Step>)
      ensures multiset(r) == multiset(AllSteps(classDict))
      ensures r == DefaultSteps() + ConcurrencyActions() + OnFailureSteps()
    {
      StepsPartition(classDict);
      DefaultSteps() + ConcurrencyActions() + OnFailureSteps()
    }

    /** Picking the default steps out of `steps` gives the default steps in
        class order. */
    lemma DefaultOfSteps()
      ensures FilterType(Steps(), Default) == DefaultSteps()
    {
      FilterTypeAppend(DefaultSteps() + ConcurrencyActions(), OnFailureSteps(), Default);
      FilterTypeAppend(DefaultSteps(), ConcurrencyActions(), Default);
      StepsOfTypeOfSteps(DefaultSteps(), Default);
      FilterOtherType(ConcurrencyActions(), Default);
      FilterOtherType(OnFailureSteps(), Default);
    }

    /** `create_action_name`. */
    function CreateActionName(namespace: string, step: Step): (r: string)
      reads config
      ensures r == ServiceName(namespace) + ":" + step.name
    {
      ServiceName(namespace) + ":" + step.name
    }

    /** `get_name`: unlike the service name, not lower-cased. */
    function GetName(namespace: string): (r: string)
      reads config
      ensures StartsWith(r, namespace) && r[|namespace|..] == config.name
    {
      namespace + config.name
    }

    /** `validate_concurrency_actions`. */
    function ValidateConcurrencyActions(serviceName: string, enums: ProtoEnums)
      : (r: PyResult<Option<WorkflowConcurrencyOpts>>)
      reads config
      ensures |ConcurrencyActions()| > 0 && config.concurrency.Some? ==> r.Err?
      ensures |ConcurrencyActions()| > 0 && config.concurrency.None? ==>
                (r.Ok? <==> ValidateConcurrency(ConcurrencyActions()[0].concurrencyLimitStrategy, enums).Ok?)
      ensures |ConcurrencyActions()| > 0 && r.Ok? ==>
                (r.value.Some?
                 && r.value.value.action == Some(serviceName + ":" + ConcurrencyActions()[0].name)
                 && r.value.value.maxRuns == ConcurrencyActions()[0].concurrencyMaxRuns
                 && r.value.value.expression == None
                 && var strategy := ValidateConcurrency(ConcurrencyActions()[0].concurrencyLimitStrategy, enums).value;
                    r.value.value.limitStrategy == if strategy.Some? then Some(EnumNumber(strategy.value)) else None)
      ensures |ConcurrencyActions()| == 0 && config.concurrency.Some? ==>
                r == Ok(Some(WorkflowConcurrencyOpts(None, Some(config.concurrency.value.expression),
                  Some(config.concurrency.value.maxRuns),
                  Some(EnumName(ConcurrencyName(config.concurrency.value.limitStrategy))))))
      ensures |ConcurrencyActions()| == 0 && config.concurrency.None? ==> r == Ok(None)
    {
      var actions := ConcurrencyActions();
      if |actions| > 0 && config.concurrency.Some? then
        Err(ValueError("Error: Both concurrencyActions and concurrency_expression are defined. "
                       + "Please use only one concurrency configuration method."))
      else if |actions| > 0 then
        var action := actions[0];
        match ValidateConcurrency(action.concurrencyLimitStrategy, enums)
        case Err(e) => Err(e)
        case Ok(strategy) =>
          Ok(Some(WorkflowConcurrencyOpts(Some(serviceName + ":" + action.name), None, action.concurrencyMaxRuns,
             if strategy.Some? then Some(EnumNumber(strategy.value)) else None)))
      else if config.concurrency.Some? then
        var c := config.concurrency.value;
        Ok(Some(WorkflowConcurrencyOpts(None, Some(c.expression), Some(c.maxRuns),
                                        Some(EnumName(ConcurrencyName(c.limitStrategy))))))
      else Ok(None)
    }

    /** `validate_on_failure_steps`: a job of its own holding the first
        on-failure step. */
    function ValidateOnFailureSteps(name: string, serviceName: string): (r: Option<CreateWorkflowJobOpts>)
      ensures r.None? <==> OnFailureSteps() == []
      ensures r.Some? ==> r.value.name == name + "-on-failure" && |r.value.steps| == 1
      ensures r.Some? ==> var o := r.value.steps[0]; var s := OnFailureSteps()[0];
                o.readableId == s.name && o.action == serviceName + ":" + s.name && o.parents == []
                && o.inputs == "{}" && o.timeout != "" && o.timeout == (if s.timeout == "" then "60s" else s.timeout)
                && o.retries == s.retries && o.rateLimits == s.rateLimits && o.workerLabels == map[]
                && o.backoffFactor == s.backoffFactor && o.backoffMaxSeconds == s.backoffMaxSeconds
    {
      if OnFailureSteps() == [] then None
      else
        var s := OnFailureSteps()[0];
        Some(CreateWorkflowJobOpts(name + "-on-failure", [
          CreateWorkflowStepOpts(s.name, serviceName + ":" + s.name, if s.timeout == "" then "60s" else s.timeout,
            "{}", [], s.retries, s.rateLimits, map[], s.backoffFactor, s.backoffMaxSeconds)]))
    }

    /** `get_create_opts`. */
    function GetCreateOpts(namespace: string, enums: ProtoEnums): (r: PyResult<CreateWorkflowVersionOpts>)
      reads config
      ensures r.Err? <==> ValidateConcurrencyActions(ServiceName(namespace), enums).Err?
                          || ValidateSticky(config.sticky, enums).Err?
      ensures ValidateConcurrencyActions(ServiceName(namespace), enums).Err?
              ==> r == Err(ValidateConcurrencyActions(ServiceName(namespace), enums).error)
      ensures r.Ok? ==> var o := r.value;
                o.name == GetName(namespace) && o.version == config.version && o.cronTriggers == config.onCrons
                && |o.eventTriggers| == |config.onEvents|
                && (forall i :: 0 <= i < |o.eventTriggers| ==> o.eventTriggers[i] == namespace + config.onEvents[i])
                && o.scheduleTimeout == config.scheduleTimeout
                && o.defaultPriority == ValidatePriority(Some(config.defaultPriority))
                && o.onFailureJob == ValidateOnFailureSteps(GetName(namespace), ServiceName(namespace))
                && o.concurrency == ValidateConcurrencyActions(ServiceName(namespace), enums).value
                && o.sticky == ValidateSticky(config.sticky, enums).value
      ensures r.Ok? ==> |r.value.jobs| == 1 && r.value.jobs[0].steps == MapStepOpts(ServiceName(namespace), DefaultSteps())
      ensures r.Ok? ==>
                (|r.value.jobs| == 1 && r.value.jobs[0].name == GetName(namespace)
                 && |r.value.jobs[0].steps| == |DefaultSteps()|
                 && forall i :: 0 <= i < |DefaultSteps()| ==>
                      r.value.jobs[0].steps[i].readableId == DefaultSteps()[i].name
                      && r.value.jobs[0].steps[i].action == CreateActionName(namespace, DefaultSteps()[i]))
    {
      var serviceName := ServiceName(namespace);
      var name := GetName(namespace);
      var eventTriggers := seq(|config.onEvents|, i requires 0 <= i < |config.onEvents| reads config
                               => namespace + config.onEvents[i]);
      DefaultOfSteps();
      var stepOpts := MapStepOpts(serviceName, FilterType(Steps(), Default));
      match ValidateConcurrencyActions(serviceName, enums)
      case Err(e) => Err(e)
      case Ok(concurrency) =>
        var onFailureJob := ValidateOnFailureSteps(name, serviceName);
        var priority := ValidatePriority(Some(config.defaultPriority));
        match ValidateSticky(config.sticky, enums)
        case Err(e) => Err(e)
        case Ok(sticky) =>
          Ok(CreateWorkflowVersionOpts(name, Dag, config.version, eventTriggers, config.onCrons,
            config.scheduleTimeout, sticky, [CreateWorkflowJobOpts(name, stepOpts)], onFailureJob,
            concurrency, priority))
    }
  }

  /** Two workflow classes that both fall back on one configuration object
      both end up named after whichever was instantiated first. */
  method SharedConfigNaming() returns (first: string, second: string)
    ensures first == "First" && second == "First"
  {
    var shared := new WorkflowConfig("", [], [], "", "60m", "5m", None, 1, None);
    var a := new BaseWorkflow("First", shared, []);
    var b := new BaseWorkflow("Second", shared, []);
    first, second := a.config.name, b.config.name;
  }
}
