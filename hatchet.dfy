/** The decorators of the v2 `Hatchet` client (hatchet_sdk/v2/hatchet.py)
    that turn user functions into steps and single-step workflows. */
module Hatchet {
  import opened Wrappers
  import opened Text
  import opened Workflows

  /** A desired worker label value is a string or an int. */
  datatype LabelValue = IntLabel(i: int) | StrLabel(s: string)

  /** `hatchet_sdk.labels.DesiredWorkerLabel`, as the user writes it. */
  datatype DesiredWorkerLabel = DesiredWorkerLabel(
    value: LabelValue, required: Option<bool>, weight: Option<int>, comparator: Option<int>)

  /** A user-side rate limit: `req` is its `_req` message, None when it
      produced none. */
  datatype RateLimit = RateLimit(req: Option<CreateStepRateLimit>)

  /** `transform_desired_worker_label`: exactly one of the two value fields is set. */
  function TransformDesiredWorkerLabel(d: DesiredWorkerLabel): (l: DesiredWorkerLabels)
    ensures l.intValue.Some? != l.strValue.Some?
    ensures d.value.IntLabel? ==> l.intValue == Some(d.value.i)
    ensures d.value.StrLabel? ==> l.strValue == Some(d.value.s)
    ensures l.required == d.required && l.weight == d.weight && l.comparator == d.comparator
  {
    DesiredWorkerLabels(
      if d.value.StrLabel? then Some(d.value.s) else None,
      if d.value.IntLabel? then Some(d.value.i) else None,
      d.required, d.weight, d.comparator)
  }

  /** `{key: transform_desired_worker_label(d) for key, d in labels.items()}`. */
  function TransformLabels(labels: map<string, DesiredWorkerLabel>): (r: map<string, DesiredWorkerLabels>)
    ensures r.Keys == labels.Keys
    ensures forall k :: k in labels ==> r[k] == TransformDesiredWorkerLabel(labels[k])
  {
    map k | k in labels :: TransformDesiredWorkerLabel(labels[k])
  }

  /** `[r for rate_limit in rate_limits if (r := rate_limit._req)]`. */
  function RateLimitRequests(rateLimits: seq<RateLimit>): (r: seq<CreateStepRateLimit>)
    ensures |r| <= |rateLimits|
    ensures forall x :: x in r <==> RateLimit(Some(x)) in rateLimits
  {
    if rateLimits == [] then []
    else
      var rest := RateLimitRequests(rateLimits[1..]);
      assert forall x :: RateLimit(Some(x)) in rateLimits <==>
        rateLimits[0] == RateLimit(Some(x)) || RateLimit(Some(x)) in rateLimits[1..];
      match rateLimits[0].req
      case Some(q) => [q] + rest
      case None => rest
  }

  /** Dropping the rate limits without a request keeps the order of the rest. */
  lemma {:induction false} RateLimitRequestsAppend(a: seq<RateLimit>, b: seq<RateLimit>)
    ensures RateLimitRequests(a + b) == RateLimitRequests(a) + RateLimitRequests(b)
  {
    if a == [] {
      assert a + b == b;
    } else {
      assert (a + b)[1..] == a[1..] + b;
      RateLimitRequestsAppend(a[1..], b);
    }
  }

  /** A step's name: the lower-cased given name, else the lower-cased
      function name. */
  function StepName(name: string, fn: StepFn): (r: string)
    ensures IsLowerCase(r)
    ensures Lower(name) != "" ==> r == Lower(name)
    ensures name == "" ==> r == Lower(fn.fnName)
  {
    LowerIsLowerCase(name);
    LowerIsLowerCase(fn.fnName);
    if Lower(name) != "" then Lower(name) else Lower(fn.fnName)
  }

  /** The body shared by `Hatchet.step` and `Hatchet.on_failure_step`. */
  function DecoratedStep(
    stepType: StepType, name: string, timeout: string, parents: seq<string>, retries: int,
    rateLimits: seq<RateLimit>, labels: map<string, DesiredWorkerLabel>,
    backoffFactor: Option<real>, backoffMaxSeconds: Option<int>, fn: StepFn): (s: Step)
    ensures StepValid(s) && s.stepType == stepType && s.fn == fn
    ensures s.name == StepName(name, fn) && IsLowerCase(s.name)
    ensures s.timeout == timeout && s.parents == parents && s.retries == retries
    ensures s.rateLimits == RateLimitRequests(rateLimits)
    ensures s.desiredWorkerLabels.Keys == labels.Keys
    ensures forall k :: k in labels ==> s.desiredWorkerLabels[k] == TransformDesiredWorkerLabel(labels[k])
    ensures s.backoffFactor == backoffFactor && s.backoffMaxSeconds == backoffMaxSeconds
    ensures s.concurrencyMaxRuns.None? && s.concurrencyLimitStrategy.None?
  {
    NewStep(fn, stepType, StepName(name, fn), timeout, parents, retries, RateLimitRequests(rateLimits),
            TransformLabels(labels), backoffFactor, backoffMaxSeconds, None, None)
  }

  /** `Hatchet.step(...)` applied to `fn`. */
  function HatchetStep(name: string, timeout: string, parents: seq<string>, retries: int,
                       rateLimits: seq<RateLimit>, labels: map<string, DesiredWorkerLabel>,
                       backoffFactor: Option<real>, backoffMaxSeconds: Option<int>, fn: StepFn): (s: Step)
    ensures s.stepType == Default && s.name == StepName(name, fn) && StepValid(s)
  {
    DecoratedStep(Default, name, timeout, parents, retries, rateLimits, labels, backoffFactor, backoffMaxSeconds, fn)
  }

  /** `Hatchet.on_failure_step(...)` applied to `fn`. */
  function HatchetOnFailureStep(name: string, timeout: string, parents: seq<string>, retries: int,
                                rateLimits: seq<RateLimit>, labels: map<string, DesiredWorkerLabel>,
                                backoffFactor: Option<real>, backoffMaxSeconds: Option<int>, fn: StepFn): (s: Step)
    ensures s.stepType == OnFailure && s.name == StepName(name, fn) && StepValid(s)
  {
    DecoratedStep(OnFailure, name, timeout, parents, retries, rateLimits, labels, backoffFactor, backoffMaxSeconds, fn)
  }

  /** The two decorators differ in the step type alone. */
  lemma OnFailureStepDiffersOnlyInType(name: string, timeout: string, parents: seq<string>, retries: int,
                                      rateLimits: seq<RateLimit>, labels: map<string, DesiredWorkerLabel>,
                                      backoffFactor: Option<real>, backoffMaxSeconds: Option<int>, fn: StepFn)
    ensures HatchetOnFailureStep(name, timeout, parents, retries, rateLimits, labels, backoffFactor, backoffMaxSeconds, fn)
         == HatchetStep(name, timeout, parents, retries, rateLimits, labels, backoffFactor, backoffMaxSeconds, fn)
              .(stepType := OnFailure)
  {
  }

  /** `Hatchet.function(...)` applied to `func`: a single-step workflow whose
      step is named after the workflow and wraps `func` in a synchronous
      method `fn`. Returns the workflow instance. */
  method Function(name: string, onEvents: seq<string>, onCrons: seq<string>, version: string, timeout: string,
                  scheduleTimeout: string, sticky: Option<StickyStrategy>, defaultPriority: int,
                  concurrency: Option<ConcurrencyExpression>, funcName: string)
    returns (w: BaseWorkflow)
    ensures fresh(w) && fresh(w.config)
    ensures var declared := if name != "" then name else funcName;
              w.config.name == (if declared != "" then declared else "Workflow")
    ensures w.config.onEvents == onEvents && w.config.onCrons == onCrons && w.config.version == version
    ensures w.config.timeout == timeout && w.config.scheduleTimeout == scheduleTimeout
    ensures w.config.sticky == sticky && w.config.defaultPriority == defaultPriority
    ensures w.config.concurrency == concurrency
    ensures w.className == "Workflow"
    ensures w.DefaultSteps() == AllSteps(w.classDict) && |w.DefaultSteps()| == 1
    ensures var declared := if name != "" then name else funcName;
            var s := w.DefaultSteps()[0];
              s.name == (if declared != "" then Lower(declared) else "fn")
              && s.timeout == timeout && s.retries == 0 && s.parents == []
              && s.rateLimits == [] && !s.isAsyncFunction && s.fn == StepFn("fn", false)
              && s.stepType == Default && s.desiredWorkerLabels == map[]
              && s.backoffFactor == None && s.backoffMaxSeconds == None
  {
    var declared := if name != "" then name else funcName;
    var config := new WorkflowConfig(declared, onEvents, onCrons, version, timeout,
                                     scheduleTimeout, sticky, defaultPriority, concurrency);
    var step := HatchetStep(config.name, timeout, [], 0, [], map[], None, None, StepFn("fn", false));
    var dict := [("__module__", OtherAttr("__module__")), ("__qualname__", OtherAttr("__qualname__")),
                 ("config", OtherAttr("config")), ("fn", StepAttr(step))];
    assert step.name == (if declared != "" then Lower(declared) else "fn") by {
      if declared != "" {
        assert |Lower(declared)| > 0;
      }
    }
    assert RateLimitRequests([]) == [];
    w := new BaseWorkflow("Workflow", config, dict);
    assert dict[1..][1..][1..][1..] == [];
    assert StepsOfType(dict[3..], Default) == [step] by {
      assert dict[3..][1..] == [];
    }
    assert AllSteps(dict[3..]) == [step] by {
      assert dict[3..][1..] == [];
    }
    assert dict[1..][1..] == dict[2..] && dict[2..][1..] == dict[3..];
    assert StepsOfType(dict, Default) == StepsOfType(dict[1..], Default) == StepsOfType(dict[2..], Default)
        == StepsOfType(dict[3..], Default);
    assert AllSteps(dict) == AllSteps(dict[1..]) == AllSteps(dict[2..]) == AllSteps(dict[3..]);
    assert w.DefaultSteps() == [step];
  }
}
