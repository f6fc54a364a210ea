// Workflow execution through the workflow engine (src/adapters/orchestrator-adapter.ts).

module OrchestratorAdapter {
  import opened JsValue
  import opened Types
  import opened Calls

  /** The engine's two operations: allocate a context for a pipeline, then run it. */
  datatype OrchestratorClient = OrchestratorClient(
    createWorkflow: string -> Result<WorkflowContext>,
    executeWorkflow: (WorkflowContext, PipelineDefinition, ProviderAdapter, Value) -> Result<Value>)

  /** What a finished workflow hands back to the service. */
  datatype WorkflowRun = WorkflowRun(workflowId: string, output: Value)

  /**
   * Create-then-execute. The context is created for the pipeline's id; the
   * run gets that context with the pipeline, provider and input unchanged;
   * a failure of either call is passed on, and a failed create is never
   * followed by an execute.
   */
  function Execute(client: OrchestratorClient, pipeline: PipelineDefinition, provider: ProviderAdapter, input: Value)
    : (s: Step<WorkflowRun>)
    ensures Served(s.calls, 3) && 1 <= |s.calls| <= 2
    ensures s.calls[0] == CreateWorkflow(pipeline.id)
    ensures client.createWorkflow(pipeline.id).Err?
            ==> s == Step(Err(client.createWorkflow(pipeline.id).error), [CreateWorkflow(pipeline.id)])
    ensures client.createWorkflow(pipeline.id).Ok? ==>
              var context := client.createWorkflow(pipeline.id).value;
              && s.calls == [CreateWorkflow(pipeline.id), ExecuteWorkflow(context.workflowId, pipeline, provider.id, input)]
              && match client.executeWorkflow(context, pipeline, provider, input)
                 case Ok(output) => s.result == Ok(WorkflowRun(context.workflowId, output))
                 case Err(e) => s.result == Err(e)
  {
    var create := CreateWorkflow(pipeline.id);
    match client.createWorkflow(pipeline.id)
    case Err(e) => Step(Err(e), [create])
    case Ok(context) =>
      var run := ExecuteWorkflow(context.workflowId, pipeline, provider.id, input);
      match client.executeWorkflow(context, pipeline, provider, input)
      case Err(e) => Step(Err(e), [create, run])
      case Ok(output) => Step(Ok(WorkflowRun(context.workflowId, output)), [create, run])
  }

  /** The simulator's output: a marker and the input it was given. */
  function SimulatorOutput(input: Value): Value
  {
    Obj(map["processed" := Bool(true), "input" := input])
  }

  /**
   * The simulator engine. `stamp` stands for the rendering of the clock
   * reading the simulator puts into each workflow id.
   */
  function SimulatorClient(stamp: string): OrchestratorClient
  {
    OrchestratorClient(
      pipelineId => Ok(WorkflowContext("wf-" + pipelineId + "-" + stamp, map[])),
      (context, pipeline, provider, input) => Ok(SimulatorOutput(input)))
  }

  /** With the simulator, the run always succeeds, names the pipeline in its id and echoes the input. */
  lemma SimulatorRuns(stamp: string, pipeline: PipelineDefinition, provider: ProviderAdapter, input: Value)
    ensures Execute(SimulatorClient(stamp), pipeline, provider, input).result
            == Ok(WorkflowRun("wf-" + pipeline.id + "-" + stamp, SimulatorOutput(input)))
  {
  }
}
