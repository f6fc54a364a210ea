// Pipeline resolution through the pipeline registry (src/adapters/forge-adapter.ts).

module ForgeAdapter {
  import opened Types
  import opened Calls

  /** The registry's two operations: a lookup that may miss, and the default pipeline. */
  datatype ForgeClient = ForgeClient(
    getPipeline: string -> Result<Option<PipelineDefinition>>,
    getDefaultPipeline: Result<PipelineDefinition>)

  /**
   * The named pipeline if an id is given and the registry knows it, else the
   * registry's default. An unknown id is not an error: it falls back silently.
   */
  function ResolvePipeline(client: ForgeClient, pipelineId: Option<string>): (s: Step<PipelineDefinition>)
    ensures Served(s.calls, 0)
    // no id (or the empty id): only the default is asked for
    ensures !Present(pipelineId) ==> s == Step(client.getDefaultPipeline, [GetDefaultPipeline])
    // an id is always looked up first, exactly once
    ensures Present(pipelineId) ==> 1 <= |s.calls| <= 2 && s.calls[0] == GetPipeline(pipelineId.value)
    // a hit is returned as is, without consulting the default
    ensures Present(pipelineId) && client.getPipeline(pipelineId.value).Ok?
            && client.getPipeline(pipelineId.value).value.Some?
            ==> s == Step(Ok(client.getPipeline(pipelineId.value).value.value), [GetPipeline(pipelineId.value)])
    // a failing lookup is passed on, without a second lookup and without the default
    ensures Present(pipelineId) && client.getPipeline(pipelineId.value).Err?
            ==> s == Step(Err(client.getPipeline(pipelineId.value).error), [GetPipeline(pipelineId.value)])
    // whenever the default is asked for, it is what comes back, and it is asked for last
    ensures GetDefaultPipeline in s.calls
            ==> s.result == client.getDefaultPipeline && s.calls[|s.calls| - 1] == GetDefaultPipeline
    // the default is asked for exactly when there is no id or the lookup missed
    ensures GetDefaultPipeline in s.calls
            <==> !Present(pipelineId) || client.getPipeline(pipelineId.value) == Ok(None)
  {
    if Present(pipelineId) then
      var lookup := GetPipeline(pipelineId.value);
      match client.getPipeline(pipelineId.value)
      case Err(e) => Step(Err(e), [lookup])
      case Ok(Some(p)) => Step(Ok(p), [lookup])
      case Ok(None) => Step(client.getDefaultPipeline, [lookup, GetDefaultPipeline])
    else
      Step(client.getDefaultPipeline, [GetDefaultPipeline])
  }

  /** An unknown id resolves to the default pipeline, exactly as if no id were given. */
  lemma UnknownIdFallsBack(client: ForgeClient, id: string)
    requires client.getPipeline(id) == Ok(None)
    ensures ResolvePipeline(client, Some(id)).result == ResolvePipeline(client, None).result
  {
  }

  /** The one-step pipeline the simulator serves under any id. */
  function SimulatorPipeline(id: string): PipelineDefinition
  {
    PipelineDefinition(id, [PipelineStep("step-1", "llm-call", map[])], None)
  }

  /** The simulator registry: it knows every id, and its default is named "default". */
  function SimulatorClient(): ForgeClient
  {
    ForgeClient(id => Ok(Some(SimulatorPipeline(id))), Ok(SimulatorPipeline("default")))
  }

  /** With the simulator, a non-empty id resolves to itself, and anything else to "default". */
  lemma SimulatorResolves(pipelineId: Option<string>)
    ensures ResolvePipeline(SimulatorClient(), pipelineId).result
            == Ok(SimulatorPipeline(if Present(pipelineId) then pipelineId.value else "default"))
  {
  }
}
