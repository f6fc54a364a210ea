// Routing advice from the optimization advisor (src/adapters/optimizer-adapter.ts).

module OptimizerAdapter {
  import opened Types
  import opened Calls

  /** The advisor's one operation, over a pipeline id and the caller's hints. */
  datatype OptimizerClient = OptimizerClient(
    getOptimizationSignal: (string, Option<RoutingHints>) -> Result<OptimizationSignal>)

  /**
   * A pass-through: the advisor is asked once, with the pipeline's id and the
   * hints unchanged, and its signal (or its failure) is returned unmodified.
   */
  function GetSignal(client: OptimizerClient, pipeline: PipelineDefinition, hints: Option<RoutingHints>)
    : (s: Step<OptimizationSignal>)
    ensures Served(s.calls, 1)
    ensures s.calls == [GetOptimizationSignal(pipeline.id, hints)]
    ensures s.result == client.getOptimizationSignal(pipeline.id, hints)
  {
    Step(client.getOptimizationSignal(pipeline.id, hints), [GetOptimizationSignal(pipeline.id, hints)])
  }

  /** `hints?.modelTier === 'fast'` */
  predicate FastTier(hints: Option<RoutingHints>)
  {
    hints.Some? && hints.value.modelTier == Some("fast")
  }

  /** The simulator's rule: the preferred provider (else "default-provider"), and a model by tier. */
  function SimulatorSignal(pipelineId: string, hints: Option<RoutingHints>): (sig: OptimizationSignal)
    // `??` replaces only an absent provider; an empty one is kept
    ensures hints.Some? && hints.value.preferredProvider.Some?
            ==> sig.recommendedProvider == hints.value.preferredProvider
    ensures hints.None? || hints.value.preferredProvider.None?
            ==> sig.recommendedProvider == Some("default-provider")
    ensures sig.recommendedModel == Some("fast-model") <==> FastTier(hints)
    ensures sig.recommendedModel == Some("fast-model") || sig.recommendedModel == Some("balanced-model")
    ensures sig.reason == Some("simulator-default") && sig.pipelineOverrides.None?
  {
    var provider := if hints.Some? then hints.value.preferredProvider else None;
    OptimizationSignal(
      Some(provider.GetOr("default-provider")),
      Some(if FastTier(hints) then "fast-model" else "balanced-model"),
      None,
      Some("simulator-default"))
  }

  function SimulatorClient(): OptimizerClient
  {
    OptimizerClient((pipelineId, hints) => Ok(SimulatorSignal(pipelineId, hints)))
  }

  /** The preferred provider and the tier of the hints, as the simulator reads them. */
  function SimulatorView(hints: Option<RoutingHints>): (Option<string>, Option<string>)
  {
    if hints.Some? then (hints.value.preferredProvider, hints.value.modelTier) else (None, None)
  }

  /**
   * The simulator's signal depends on nothing but the preferred provider and
   * the tier: the pipeline id, the latency bound and the cost budget are ignored.
   */
  lemma SimulatorIgnoresRest(p1: string, h1: Option<RoutingHints>, p2: string, h2: Option<RoutingHints>)
    requires SimulatorView(h1) == SimulatorView(h2)
    ensures SimulatorSignal(p1, h1) == SimulatorSignal(p2, h2)
  {
  }
}
