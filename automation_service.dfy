// The orchestration sequence (src/services/automation-service.ts) and the
// simulator wiring of the four collaborators (src/lib.ts).

module AutomationService {
  import opened JsValue
  import opened Types
  import opened Calls
  import Forge = ForgeAdapter
  import Optimizer = OptimizerAdapter
  import Connector = ConnectorAdapter
  import Orchestrator = OrchestratorAdapter

  /** The four collaborator clients the service is wired with once and only reads. */
  datatype Deps = Deps(
    forge: Forge.ForgeClient,
    optimizer: Optimizer.OptimizerClient,
    orchestrator: Orchestrator.OrchestratorClient,
    connector: Connector.ConnectorHubClient)

  /**
   * The metadata of a finished request: what was resolved and ran, the
   * advisor's model (or "default") and reason, and the time between the two
   * clock readings.
   */
  function AssembleMetadata(
    pipeline: PipelineDefinition, workflowId: string, provider: ProviderAdapter,
    signal: OptimizationSignal, startTime: int, endTime: int): (m: ExecutionMetadata)
    ensures m.pipelineId == pipeline.id && m.providerId == provider.id && m.workflowId == Some(workflowId)
    ensures signal.recommendedModel.Some? ==> m.modelId == signal.recommendedModel.value
    ensures signal.recommendedModel.None? ==> m.modelId == "default"
    ensures m.optimizationApplied.Some? <==> signal.reason.Some?
    ensures m.optimizationApplied == signal.reason
    ensures m.durationMs == endTime - startTime
    ensures startTime <= endTime ==> m.durationMs >= 0
  {
    ExecutionMetadata(
      pipeline.id,
      Some(workflowId),
      provider.id,
      signal.recommendedModel.GetOr("default"),
      endTime - startTime,
      signal.reason)
  }

  /**
   * One request: resolve the pipeline, ask the advisor, resolve the provider,
   * run the workflow, each step fed the previous one's result; the first
   * failure aborts the request. `startTime` and `endTime` are the two clock
   * readings, taken before the first step and after the last.
   */
  function Execute(deps: Deps, request: AutomationRequest, startTime: int, endTime: int): (s: Step<AutomationResult>)
    // collaborators are called in the fixed order registry, advisor, hub, engine
    ensures InOrder(s.calls) && ServedUpTo(s.calls, 3) && s.calls != []
    ensures s.calls[0].GetPipeline? || s.calls[0].GetDefaultPipeline?
    ensures s.result.Ok? ==>
              var r := s.result.value;
              var last := s.calls[|s.calls| - 1];
              && r.success
              // the metadata names what the engine actually ran, and the input reached it unchanged
              && last.ExecuteWorkflow?
              && r.metadata.workflowId == Some(last.workflowId)
              && r.metadata.pipelineId == last.pipeline.id
              && r.metadata.providerId == last.providerId
              && last.input == request.input
              // the advisor was asked about the resolved pipeline with the request's hints
              && GetOptimizationSignal(r.metadata.pipelineId, request.routingHints) in s.calls
              && CreateWorkflow(r.metadata.pipelineId) in s.calls
              && r.metadata.durationMs == endTime - startTime
              && (startTime <= endTime ==> r.metadata.durationMs >= 0)
  {
    var ps := Forge.ResolvePipeline(deps.forge, request.pipelineId);
    if ps.result.Err? then Step(Err(ps.result.error), ps.calls) else
    var pipeline := ps.result.value;
    var ss := Optimizer.GetSignal(deps.optimizer, pipeline, request.routingHints);
    InOrderAppend([], ps.calls, 0);
    InOrderAppend(ps.calls, ss.calls, 1);
    if ss.result.Err? then Step(Err(ss.result.error), ps.calls + ss.calls) else
    var signal := ss.result.value;
    var cs := Connector.ResolveProvider(deps.connector, signal);
    InOrderAppend(ps.calls + ss.calls, cs.calls, 2);
    if cs.result.Err? then Step(Err(cs.result.error), ps.calls + ss.calls + cs.calls) else
    var provider := cs.result.value;
    var ws := Orchestrator.Execute(deps.orchestrator, pipeline, provider, request.input);
    InOrderAppend(ps.calls + ss.calls + cs.calls, ws.calls, 3);
    var calls := ps.calls + ss.calls + cs.calls + ws.calls;
    if ws.result.Err? then Step(Err(ws.result.error), calls) else
    var run := ws.result.value;
    assert calls[|ps.calls|] == GetOptimizationSignal(pipeline.id, request.routingHints);
    assert calls[|calls| - 2] == CreateWorkflow(pipeline.id);
    Step(
      Ok(AutomationResult(true, run.output, AssembleMetadata(pipeline, run.workflowId, provider, signal, startTime, endTime))),
      calls)
  }

  /** A failing pipeline registry aborts the request before any other collaborator is called. */
  lemma RegistryFailureAborts(deps: Deps, request: AutomationRequest, startTime: int, endTime: int)
    requires Forge.ResolvePipeline(deps.forge, request.pipelineId).result.Err?
    ensures var s := Execute(deps, request, startTime, endTime);
            && s.result == Err(Forge.ResolvePipeline(deps.forge, request.pipelineId).result.error)
            && Served(s.calls, 0)
  {
  }

  /** A failing advisor aborts the request with its error; the hub and the engine are never called. */
  lemma AdvisorFailureAborts(deps: Deps, request: AutomationRequest, startTime: int, endTime: int, pipeline: PipelineDefinition)
    requires Forge.ResolvePipeline(deps.forge, request.pipelineId).result == Ok(pipeline)
    requires Optimizer.GetSignal(deps.optimizer, pipeline, request.routingHints).result.Err?
    ensures var s := Execute(deps, request, startTime, endTime);
            && s.result == Err(Optimizer.GetSignal(deps.optimizer, pipeline, request.routingHints).result.error)
            && ServedUpTo(s.calls, 1)
  {
  }

  /** A failing hub aborts the request with its error; the engine is never called. */
  lemma HubFailureAborts(
    deps: Deps, request: AutomationRequest, startTime: int, endTime: int,
    pipeline: PipelineDefinition, signal: OptimizationSignal)
    requires Forge.ResolvePipeline(deps.forge, request.pipelineId).result == Ok(pipeline)
    requires Optimizer.GetSignal(deps.optimizer, pipeline, request.routingHints).result == Ok(signal)
    requires Connector.ResolveProvider(deps.connector, signal).result.Err?
    ensures var s := Execute(deps, request, startTime, endTime);
            && s.result == Err(Connector.ResolveProvider(deps.connector, signal).result.error)
            && ServedUpTo(s.calls, 2)
  {
  }

  /** A failing engine (create or execute) fails the request with the engine's error. */
  lemma EngineFailureAborts(
    deps: Deps, request: AutomationRequest, startTime: int, endTime: int,
    pipeline: PipelineDefinition, signal: OptimizationSignal, provider: ProviderAdapter)
    requires Forge.ResolvePipeline(deps.forge, request.pipelineId).result == Ok(pipeline)
    requires Optimizer.GetSignal(deps.optimizer, pipeline, request.routingHints).result == Ok(signal)
    requires Connector.ResolveProvider(deps.connector, signal).result == Ok(provider)
    requires Orchestrator.Execute(deps.orchestrator, pipeline, provider, request.input).result.Err?
    ensures var s := Execute(deps, request, startTime, endTime);
            && s.result == Err(Orchestrator.Execute(deps.orchestrator, pipeline, provider, request.input).result.error)
            && s.calls == Forge.ResolvePipeline(deps.forge, request.pipelineId).calls
                          + Optimizer.GetSignal(deps.optimizer, pipeline, request.routingHints).calls
                          + Connector.ResolveProvider(deps.connector, signal).calls
                          + Orchestrator.Execute(deps.orchestrator, pipeline, provider, request.input).calls
  {
  }

  /**
   * When every step succeeds, the request succeeds with the engine's output
   * unchanged and the metadata of exactly what was resolved: the registry's
   * pipeline for the requested id, the advisor's signal for that pipeline,
   * the hub's provider for that signal, and the engine's workflow id. The
   * calls are those of the four steps, in order.
   */
  lemma CompletedRequest(
    deps: Deps, request: AutomationRequest, startTime: int, endTime: int,
    pipeline: PipelineDefinition, signal: OptimizationSignal, provider: ProviderAdapter, run: Orchestrator.WorkflowRun)
    requires Forge.ResolvePipeline(deps.forge, request.pipelineId).result == Ok(pipeline)
    requires Optimizer.GetSignal(deps.optimizer, pipeline, request.routingHints).result == Ok(signal)
    requires Connector.ResolveProvider(deps.connector, signal).result == Ok(provider)
    requires Orchestrator.Execute(deps.orchestrator, pipeline, provider, request.input).result == Ok(run)
    ensures var s := Execute(deps, request, startTime, endTime);
            && s.result == Ok(AutomationResult(
                 true, run.output, AssembleMetadata(pipeline, run.workflowId, provider, signal, startTime, endTime)))
            && s.calls == Forge.ResolvePipeline(deps.forge, request.pipelineId).calls
                          + Optimizer.GetSignal(deps.optimizer, pipeline, request.routingHints).calls
                          + Connector.ResolveProvider(deps.connector, signal).calls
                          + Orchestrator.Execute(deps.orchestrator, pipeline, provider, request.input).calls
  {
  }

  /** A request succeeds only when all four steps do. */
  lemma SucceedsOnlyIfEveryStepDoes(deps: Deps, request: AutomationRequest, startTime: int, endTime: int)
    requires Execute(deps, request, startTime, endTime).result.Ok?
    ensures var ps := Forge.ResolvePipeline(deps.forge, request.pipelineId);
            && ps.result.Ok?
            && var ss := Optimizer.GetSignal(deps.optimizer, ps.result.value, request.routingHints);
            && ss.result.Ok?
            && var cs := Connector.ResolveProvider(deps.connector, ss.result.value);
            && cs.result.Ok?
            && Orchestrator.Execute(deps.orchestrator, ps.result.value, cs.result.value, request.input).result.Ok?
  {
  }

  /** The request's workflow id and options are never consulted. */
  lemma IgnoresWorkflowIdAndOptions(
    deps: Deps, request: AutomationRequest, workflowId: Option<string>, options: Option<ExecutionOptions>,
    startTime: int, endTime: int)
    ensures Execute(deps, request.(workflowId := workflowId, options := options), startTime, endTime)
            == Execute(deps, request, startTime, endTime)
  {
  }

  /**
   * Against fixed collaborators, repeating a request repeats everything but
   * the duration: the same calls, the same outcome, the same resolved ids.
   */
  lemma RepeatableUpToDuration(deps: Deps, request: AutomationRequest, start1: int, end1: int, start2: int, end2: int)
    ensures var s1 := Execute(deps, request, start1, end1);
            var s2 := Execute(deps, request, start2, end2);
            && s1.calls == s2.calls
            && s1.result.Ok? == s2.result.Ok?
            && (s1.result.Ok? ==>
                  s1.result.value.(metadata := s1.result.value.metadata.(durationMs := 0))
                  == s2.result.value.(metadata := s2.result.value.metadata.(durationMs := 0)))
  {
  }

  /** createAutomationCore: every collaborator is its simulator. */
  function SimulatorCore(stamp: string): Deps
  {
    Deps(Forge.SimulatorClient(), Optimizer.SimulatorClient(),
         Orchestrator.SimulatorClient(stamp), Connector.SimulatorClient())
  }

  /** The pipeline id the simulator core resolves a request to. */
  function SimulatorPipelineId(request: AutomationRequest): string
  {
    if Present(request.pipelineId) then request.pipelineId.value else "default"
  }

  /** The provider id the simulator core resolves a request to. */
  function SimulatorProviderId(request: AutomationRequest): string
  {
    var hints := request.routingHints;
    if hints.Some? && Present(hints.value.preferredProvider) then hints.value.preferredProvider.value
    else "default-provider"
  }

  /**
   * Against the simulator core every request succeeds: the requested pipeline
   * (or "default"), the preferred provider (or "default-provider"), the fast
   * model exactly for the fast tier, the simulator's reason, and the input
   * echoed back.
   */
  lemma SimulatorExecute(stamp: string, request: AutomationRequest, startTime: int, endTime: int)
    ensures var s := Execute(SimulatorCore(stamp), request, startTime, endTime);
            var pipelineId := SimulatorPipelineId(request);
            && s.result.Ok?
            && s.result.value == AutomationResult(
                 true,
                 Orchestrator.SimulatorOutput(request.input),
                 ExecutionMetadata(
                   pipelineId,
                   Some("wf-" + pipelineId + "-" + stamp),
                   SimulatorProviderId(request),
                   if Optimizer.FastTier(request.routingHints) then "fast-model" else "balanced-model",
                   endTime - startTime,
                   Some("simulator-default")))
  {
  }

  /** A request with only an input resolves to the default pipeline and provider. */
  lemma ScenarioBasic(stamp: string, startTime: int, endTime: int)
    requires startTime <= endTime
    ensures var s := Execute(SimulatorCore(stamp),
                             AutomationRequest(None, None, Obj(map["prompt" := Str("test prompt")]), None, None),
                             startTime, endTime);
            && s.result.Ok? && s.result.value.success
            && s.result.value.metadata.pipelineId == "default"
            && s.result.value.metadata.providerId == "default-provider"
            && s.result.value.metadata.durationMs >= 0
            && s.result.value.metadata.optimizationApplied.Some?
  {
  }

  /** A named pipeline is the one that runs. */
  lemma ScenarioCustomPipeline(stamp: string, startTime: int, endTime: int)
    ensures var s := Execute(SimulatorCore(stamp),
                             AutomationRequest(Some("custom-pipeline"), None, Obj(map["data" := Str("test")]), None, None),
                             startTime, endTime);
            && s.result.Ok? && s.result.value.success
            && s.result.value.metadata.pipelineId == "custom-pipeline"
  {
  }

  /** The fast tier yields the fast model, and the preferred provider is used. */
  lemma ScenarioFastTier(stamp: string, startTime: int, endTime: int)
    ensures var hints := RoutingHints(Some("fast-provider"), Some("fast"), None, None);
            var s := Execute(SimulatorCore(stamp),
                             AutomationRequest(None, None, Obj(map["query" := Str("fast query")]), Some(hints), None),
                             startTime, endTime);
            && s.result.Ok? && s.result.value.success
            && s.result.value.metadata.modelId == "fast-model"
            && s.result.value.metadata.providerId == "fast-provider"
  {
  }
}
