// The programmatic client (src/sdk.ts).

module Sdk {
  import opened JsValue
  import opened Types
  import opened Calls
  import Service = AutomationService
  import Optimizer = OptimizerAdapter

  /** A client holds the service it was built with and never replaces it. */
  datatype AutomationClient = AutomationClient(service: Service.Deps)

  /** `new AutomationClient(service?)`: the given service, or the simulator-wired core. */
  function NewClient(service: Option<Service.Deps>, stamp: string): (c: AutomationClient)
    ensures service.Some? ==> c.service == service.value
    ensures service.None? ==> c.service == Service.SimulatorCore(stamp)
  {
    AutomationClient(if service.Some? then service.value else Service.SimulatorCore(stamp))
  }

  /** `execute`: the request goes to the service unchanged, and its answer comes back unchanged. */
  function Execute(client: AutomationClient, request: AutomationRequest, startTime: int, endTime: int)
    : (s: Step<AutomationResult>)
    ensures s == Service.Execute(client.service, request, startTime, endTime)
  {
    Service.Execute(client.service, request, startTime, endTime)
  }

  /** The convenience options of `run`. */
  datatype RunOptions = RunOptions(pipelineId: Option<string>, hints: Option<RoutingHints>)

  /** The request `run` builds: the input as is, the pipeline id and hints from the options. */
  function RunRequest(input: Value, options: Option<RunOptions>): (r: AutomationRequest)
    ensures r.input == input && r.workflowId.None? && r.options.None?
    ensures options.Some? ==> r.pipelineId == options.value.pipelineId && r.routingHints == options.value.hints
    ensures options.None? ==> r.pipelineId.None? && r.routingHints.None?
  {
    AutomationRequest(
      if options.Some? then options.value.pipelineId else None,
      None,
      input,
      if options.Some? then options.value.hints else None,
      None)
  }

  /** `run`: execute the request built from the input and the options. */
  function Run(client: AutomationClient, input: Value, options: Option<RunOptions>, startTime: int, endTime: int)
    : (s: Step<AutomationResult>)
    ensures s == Service.Execute(client.service, RunRequest(input, options), startTime, endTime)
  {
    Execute(client, RunRequest(input, options), startTime, endTime)
  }

  /** With the default client, a fast-tier hint yields the fast model whatever the input. */
  lemma RunFastTier(stamp: string, input: Value, options: Option<RunOptions>, startTime: int, endTime: int)
    requires options.Some? && options.value.hints.Some? && options.value.hints.value.modelTier == Some("fast")
    ensures var s := Run(NewClient(None, stamp), input, options, startTime, endTime);
            s.result.Ok? && s.result.value.success && s.result.value.metadata.modelId == "fast-model"
  {
  }

  /** The SDK tests: execute gives a defined output; run with the fast tier gives "fast-model". */
  lemma SdkScenarios(stamp: string, startTime: int, endTime: int)
    ensures var s := Execute(NewClient(None, stamp), AutomationRequest(None, None, Obj(map["message" := Str("hello")]), None, None),
                             startTime, endTime);
            s.result.Ok? && s.result.value.success && s.result.value.output != Undefined
    ensures var s := Run(NewClient(None, stamp), Obj(map["prompt" := Str("quick test")]),
                         Some(RunOptions(None, Some(RoutingHints(None, Some("fast"), None, None)))),
                         startTime, endTime);
            s.result.Ok? && s.result.value.metadata.modelId == "fast-model"
  {
  }
}
