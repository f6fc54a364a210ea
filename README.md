# automation-core orchestration policy in Dafny

This project models the request-orchestration core of LLM-Automation-Core. The core accepts an
automation request and resolves a pipeline through the pipeline registry (LLM-Forge). It asks
the optimization advisor (LLM-Auto-Optimizer) for a routing signal. It resolves a provider
through the provider registry (LLM-Connector-Hub). It then drives the workflow engine
(LLM-Orchestrator) and returns a result with execution metadata.

Modules, one per source file:

- `JsValue` (`js_value.dfy`): the untyped values that cross the boundary (`unknown`), with
  JavaScript truthiness and `typeof`.
- `Types` (`types.dfy`): the data contracts of `src/types.ts`. Optional properties are `Option`
  fields. A thrown error is the `Err` side of `Result`.
- `Calls` (`calls.dfy`): the collaborator calls a request makes, in order. Every adapter returns
  a `Step`, which is its result or error plus the calls it issued. This is how the model states
  call order, call counts and short-circuiting.
- `ForgeAdapter`, `OptimizerAdapter`, `ConnectorAdapter`, `OrchestratorAdapter`: the four
  adapters, each with its simulator client. A collaborator client is a datatype of function
  values. Registries are lookup functions plus a default. Availability is the provider's
  `isAvailable` answer. Every collaborator call may fail, and failures propagate unchanged.
- `AutomationService`: the four-step sequence, metadata assembly, and the simulator wiring of
  `src/lib.ts` (`SimulatorCore`). The two `Date.now()` readings are the inputs `startTime` and
  `endTime`.
- `ExecuteHandler`: `validateRequest` and `handleExecute`.
- `Sdk`: `AutomationClient` construction, `execute` and `run`.
- `Cli`: `getArg` as an imperative loop proved against a recursive scan, and the request that
  `executeCommand` builds. `JSON.parse` is a function parameter.

Where the declared TypeScript types and the run-time behaviour differ, the model follows the
run-time behaviour, except for `routingHints` and `options` (see "## Left out"):

- `validateRequest` accepts any non-null object, arrays included, as the request and as `input`.
- `--tier` reaches the request as an unchecked string, so `RoutingHints.modelTier` is a string.
  `Types.DeclaredTier` says when it names one of the three declared tiers.
- The CLI does not validate: a parsed `--input` that is not an object is sent as is.

## Model

| member | source | states |
|---|---|---|
| `JsValue.IsObject` | src/handlers/execute-handler.ts:21-27 | the guard `v && typeof v === 'object'` holds exactly for arrays and plain objects (never null) |
| `Types.ParseTier` | src/types.ts:16 | a string names a model tier iff it is "fast", "balanced" or "quality", and the tier's name is that string |
| `Types.TierNameRoundTrip` | src/types.ts:16 | every declared tier parses back from its name |
| `ForgeAdapter.ResolvePipeline` | src/adapters/forge-adapter.ts:20-26 | no id or the empty id asks only for the default; a given id is looked up first, once; a hit is returned without asking for the default; a failing lookup is passed on with no second lookup and no default; the default is asked for (last, at most once) exactly when there is no id or the lookup missed, and is then the result |
| `ForgeAdapter.UnknownIdFallsBack` | src/adapters/forge-adapter.ts:21-25 | an unknown id resolves to the same result as no id at all, with no error |
| `ForgeAdapter.SimulatorResolves` | src/adapters/forge-adapter.ts:30-39 | with the simulator registry a non-empty id resolves to a pipeline with that id, anything else to "default" |
| `OptimizerAdapter.GetSignal` | src/adapters/optimizer-adapter.ts:22-27 | the advisor is called once, with the pipeline's id and the hints unchanged, and its signal or failure is returned unmodified |
| `OptimizerAdapter.SimulatorSignal` | src/adapters/optimizer-adapter.ts:33-39 | the recommended provider is the preferred one when present (an empty one is kept), else "default-provider"; the model is "fast-model" iff the tier is "fast", else "balanced-model"; the reason is "simulator-default" |
| `OptimizerAdapter.SimulatorIgnoresRest` | src/adapters/optimizer-adapter.ts:33-39 | the simulator's signal depends only on the preferred provider and the tier, not on the pipeline id, latency bound or cost budget |
| `ConnectorAdapter.ResolveProvider` | src/adapters/connector-adapter.ts:20-28 | no or an empty recommendation goes straight to the default with no lookup; availability is asked at most once, only right after a lookup that found a provider, and of that provider; the default is returned unchecked as the last call; a non-default provider is returned only if it was found and reported itself available, and conversely a found provider that reports itself available is returned after exactly the lookup and one availability check; a failing lookup or availability check is passed on with no default; the default is asked for exactly when there is no recommendation, it is unknown, or it is unavailable; every path's calls are fixed: a miss makes the lookup then the default, and an unavailable provider makes the lookup, one availability check, then the default |
| `ConnectorAdapter.FallsBackToDefault` | src/adapters/connector-adapter.ts:21-27 | a lookup miss and a found-but-unavailable provider both yield the default provider |
| `ConnectorAdapter.SimulatorResolves` | src/adapters/connector-adapter.ts:32-49 | with the simulator hub the result is an available provider named by the non-empty recommendation, else "default-provider" |
| `OrchestratorAdapter.Execute` | src/adapters/orchestrator-adapter.ts:25-33 | createWorkflow is called first, with the pipeline id; a failed create is returned with no execute; otherwise execute gets the created context and the pipeline, provider and input unchanged, and the result carries the context's workflow id and the engine's output (or its failure) |
| `OrchestratorAdapter.SimulatorRuns` | src/adapters/orchestrator-adapter.ts:37-50 | the simulator run succeeds with workflow id "wf-" + pipeline id + "-" + timestamp and output `{processed: true, input}` |
| `AutomationService.AssembleMetadata` | src/services/automation-service.ts:40-47 | the metadata carries the resolved pipeline, provider and workflow ids; the model is the recommended one or "default"; optimizationApplied is present iff the advisor gave a reason; the duration is end minus start, non-negative for a non-decreasing clock |
| `AutomationService.Execute` | src/services/automation-service.ts:21-50 | collaborators are called in the order registry, advisor, hub, engine, starting with the registry; on success `success` is true, the metadata names the pipeline, provider and workflow the engine actually ran, the engine got the request input unchanged, the advisor was asked about the resolved pipeline with the request's hints, and the duration is end minus start and non-negative for a non-decreasing clock |
| `AutomationService.RegistryFailureAborts` | src/services/automation-service.ts:25-38 | a failing pipeline registry fails the request with its error, and no other collaborator is called |
| `AutomationService.AdvisorFailureAborts` | src/services/automation-service.ts:28-38 | a failing advisor fails the request with its error, and neither the hub nor the engine is called |
| `AutomationService.HubFailureAborts` | src/services/automation-service.ts:31-38 | a failing provider resolution fails the request with its error, and the engine is not called |
| `AutomationService.EngineFailureAborts` | src/services/automation-service.ts:34-38 | a failing workflow create or execute fails the request with the engine's error, after exactly the four steps' calls in order |
| `AutomationService.CompletedRequest` | src/services/automation-service.ts:25-49 | when all four steps succeed, the result is a success carrying the engine's output unchanged and the metadata assembled from the registry's pipeline for the requested id, the advisor's signal for that pipeline and the hints, the hub's provider for that signal, and the engine's workflow id; the calls are the four steps' calls in order |
| `AutomationService.SucceedsOnlyIfEveryStepDoes` | src/services/automation-service.ts:25-49 | a request succeeds only if the registry, the advisor, the hub and the engine each succeeded on what the previous step produced |
| `AutomationService.IgnoresWorkflowIdAndOptions` | src/services/automation-service.ts:21-50 | the request's workflowId and options never affect the outcome |
| `AutomationService.RepeatableUpToDuration` | src/services/automation-service.ts:21-50 | against fixed collaborators, repeating a request gives the same calls and the same result except for the duration |
| `AutomationService.SimulatorExecute` | src/lib.ts:18-25 | with the simulator-wired core every request succeeds with the requested (or "default") pipeline, the preferred (or "default-provider") provider, "fast-model" exactly for the fast tier, the simulator's reason, and the input echoed in the output |
| `AutomationService.ScenarioBasic` | tests/automation-service.test.ts:18-28 | an input-only request succeeds with pipeline "default", provider "default-provider", a reason and a non-negative duration |
| `AutomationService.ScenarioCustomPipeline` | tests/automation-service.test.ts:30-38 | a request naming "custom-pipeline" runs that pipeline |
| `AutomationService.ScenarioFastTier` | tests/automation-service.test.ts:40-51 | the fast tier with a preferred provider yields "fast-model" and that provider |
| `ExecuteHandler.StringField` | src/handlers/execute-handler.ts:29-30 | a property is kept exactly when it holds a string, and is otherwise absent |
| `ExecuteHandler.ValidateRequest` | src/handlers/execute-handler.ts:20-35 | a non-object request fails with "must be an object"; an object request with a non-object input fails with "input must be an object"; otherwise it succeeds with the input unchanged, the ids kept exactly when they are strings, and hints and options passed on |
| `ExecuteHandler.ValidateRoundTrip` | src/handlers/execute-handler.ts:28-34 | every typed request with an object input, sent as an object literal, validates back to itself |
| `ExecuteHandler.HintsRoundTrip` | src/handlers/execute-handler.ts:32 | routing hints sent as an object are read back unchanged |
| `ExecuteHandler.OptionsRoundTrip` | src/handlers/execute-handler.ts:33 | execution options sent as an object are read back unchanged |
| `ExecuteHandler.HandleExecute` | src/handlers/execute-handler.ts:12-18 | a rejected request calls no collaborator; an accepted one gets exactly the service's answer for the validated request |
| `ExecuteHandler.MessagesMention` | src/handlers/execute-handler.ts:21-27 | both messages contain "must be an object", the input one contains "input must be an object", and they differ |
| `ExecuteHandler.RejectionScenarios` | tests/handlers.test.ts:16-26 | `{}` is rejected with "input must be an object"; null and a string are rejected with "must be an object"; nothing is called |
| `ExecuteHandler.AcceptanceScenarios` | tests/handlers.test.ts:8-37 | a valid request succeeds, and a request naming "test-pipe" runs that pipeline |
| `Sdk.NewClient` | src/sdk.ts:14-16 | the client uses the supplied service, or the simulator-wired core when none is given |
| `Sdk.Execute` | src/sdk.ts:19-21 | the request goes to the service unchanged and its answer is returned unchanged |
| `Sdk.RunRequest` | src/sdk.ts:24-33 | run's request has the input unchanged and the pipeline id and hints of the options, both absent without options |
| `Sdk.Run` | src/sdk.ts:24-33 | run is the service's answer for that request |
| `Sdk.RunFastTier` | tests/sdk.test.ts:20-28 | with the default client, a fast-tier hint yields "fast-model" for any input |
| `Sdk.SdkScenarios` | tests/sdk.test.ts:11-28 | execute gives a defined output, and run with the fast tier gives "fast-model" |
| `Cli.ValueAt` | src/cli.ts:58-62 | a matching flag yields the next token verbatim (absent if the flag is last); a `long=` token yields the text after `=` |
| `Cli.GetArg` | src/cli.ts:56-66 | the loop returns exactly the value of the first-match scan |
| `Cli.FirstMatchWins` | src/cli.ts:57-64 | the first matching token decides the value; later occurrences are ignored |
| `Cli.NoMatchIsAbsent` | src/cli.ts:65 | with no matching token the value is undefined |
| `Cli.FoundOnlyAtFirstMatch` | src/cli.ts:57-65 | a value is only ever produced by the first matching token |
| `Cli.FlagForms` | src/cli.ts:58-62 | `-p=x` is not recognised; `--pipeline=x` and `--pipeline=` give "x" and ""; a value that looks like a flag is taken verbatim; a trailing flag is undefined; the first of two occurrences wins |
| `Cli.ExecuteCommandRequest` | src/cli.ts:33-51 | unparsable input JSON ends the command; otherwise the request carries the parsed input, the `--pipeline`/`-p` value, no workflow id or options, and routing hints always present with the `--provider` and `--tier` values |
| `Cli.InputDefaultsToEmptyObject` | src/cli.ts:34 | without `--input`/`-i` the command parses "{}" |
| `Cli.TierIsUnchecked` | src/cli.ts:36-50 | `--tier turbo` reaches the request although "turbo" is not a declared tier |

## Left out

- HTTP transport (`src/server.ts`): listening, body streaming, status codes, JSON encoding and the `{success: false, error}` envelope for thrown errors.
- CLI I/O (`src/cli.ts` `main`, `showHelp`, the printing and `process.exit` in `executeCommand`). `JSON.parse` is a parameter, and its failure is the `Err` result "Invalid JSON input".
- Asynchrony: every `await` is a sequential call. There is no concurrency, timeout or cancellation in the core.
- The clock: the two `Date.now()` readings are inputs. The simulator's workflow-id timestamp is a string parameter of the simulator engine. Real time is not modelled.
- `ProviderAdapter.execute`, `WorkflowContext.execute` and the context's `state`: the core never calls or inspects them. Outputs and configs are opaque `Value`s.
- `src/adapters/index.ts` only re-exports. `src/lib.ts` only wires the simulators, and it is modelled as `AutomationService.SimulatorCore`.
- Numbers are integers. Floating point, NaN and infinities are not modelled.
- ExecuteHandler.ValidateRequest: the unchecked casts of `routingHints` and `options` are modelled as reading their declared properties. A property whose run-time type differs from its declared one is read as absent, whereas the source passes it on as it is.
- ExecuteHandler.HintsRoundTrip: only the declared properties of routing hints are modelled. Extra properties of the hints object are not carried.
- Types.ProviderAdapter: `isAvailable()` is modelled as a fixed answer per provider handle.
