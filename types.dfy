// The data contracts shared by the integrated systems (src/types.ts).
// Optional properties (`x?: T`) are Option fields; `unknown` payloads are
// JsValue.Value; the two capability interfaces keep only what the core uses.

module Types {
  import opened JsValue

  datatype Option<+T> = None | Some(value: T) {
    /** `x ?? default` */
    function GetOr(default: T): T
    {
      match this
      case Some(v) => v
      case None => default
    }
  }

  /**
   * A thrown `Error`, known by its message: the handler's rejections and
   * whatever a collaborator throws, which is passed on as it is.
   */
  datatype Error = Error(message: string)

  /** A call that either returns a value or throws. */
  datatype Result<+T> = Ok(value: T) | Err(error: Error)

  /** `if (s)` on an optional string: present and non-empty. */
  predicate Present(s: Option<string>)
  {
    s.Some? && s.value != ""
  }

  /** The declared model tiers `'fast' | 'balanced' | 'quality'`. */
  datatype ModelTier = Fast | Balanced | Quality

  function TierName(t: ModelTier): string
  {
    match t
    case Fast => "fast"
    case Balanced => "balanced"
    case Quality => "quality"
  }

  /** The tier a string names, if it names one of the three declared tiers. */
  function ParseTier(s: string): (r: Option<ModelTier>)
    ensures r.Some? <==> s == "fast" || s == "balanced" || s == "quality"
    ensures r.Some? ==> TierName(r.value) == s
  {
    if s == "fast" then Some(Fast)
    else if s == "balanced" then Some(Balanced)
    else if s == "quality" then Some(Quality)
    else None
  }

  lemma TierNameRoundTrip(t: ModelTier)
    ensures ParseTier(TierName(t)) == Some(t)
  {
  }

  /**
   * Advisory routing hints. `modelTier` is declared as a ModelTier but is a
   * plain string at run time (nothing checks it), so it is kept as a string;
   * DeclaredTier says when it is one of the declared names.
   */
  datatype RoutingHints = RoutingHints(
    preferredProvider: Option<string>,
    modelTier: Option<string>,
    maxLatencyMs: Option<int>,
    costBudget: Option<int>)

  predicate DeclaredTier(h: RoutingHints)
  {
    h.modelTier.None? || ParseTier(h.modelTier.value).Some?
  }

  /** Options passed through to the orchestrator; the core never reads them. */
  datatype ExecutionOptions = ExecutionOptions(
    timeout: Option<int>,
    retryPolicy: Option<string>,
    traceId: Option<string>)

  /** The request accepted by the core; `input` is declared as a string-keyed record. */
  datatype AutomationRequest = AutomationRequest(
    pipelineId: Option<string>,
    workflowId: Option<string>,
    input: Value,
    routingHints: Option<RoutingHints>,
    options: Option<ExecutionOptions>)

  datatype ExecutionMetadata = ExecutionMetadata(
    pipelineId: string,
    workflowId: Option<string>,
    providerId: string,
    modelId: string,
    durationMs: int,
    optimizationApplied: Option<string>)

  datatype AutomationResult = AutomationResult(
    success: bool,
    output: Value,
    metadata: ExecutionMetadata)

  datatype PipelineStep = PipelineStep(id: string, stepType: string, config: map<string, Value>)

  datatype PipelineDefinition = PipelineDefinition(
    id: string,
    steps: seq<PipelineStep>,
    defaultProvider: Option<string>)

  /** Every field is optional: the empty signal is a legal answer of the advisor. */
  datatype OptimizationSignal = OptimizationSignal(
    recommendedProvider: Option<string>,
    recommendedModel: Option<string>,
    pipelineOverrides: Option<map<string, Value>>,
    reason: Option<string>)

  /**
   * A provider handle: its id and the answer its `isAvailable()` gives
   * (which may itself throw). Its `execute` capability is used only by the
   * workflow engine and is not part of this model.
   */
  datatype ProviderAdapter = ProviderAdapter(id: string, isAvailable: Result<bool>)

  /** A workflow context; its state belongs to the engine and is never read by the core. */
  datatype WorkflowContext = WorkflowContext(workflowId: string, state: map<string, Value>)
}
