// The collaborator calls a request makes, recorded in order. Every adapter
// returns the calls it issued beside its result, so that the order of calls,
// how many of each there are, and what each was given can be stated.

module Calls {
  import opened JsValue
  import opened Types

  datatype Call =
    | GetPipeline(id: string)
    | GetDefaultPipeline
    | GetOptimizationSignal(pipelineId: string, hints: Option<RoutingHints>)
    | GetProvider(providerId: string)
    | IsAvailable(providerId: string)
    | GetDefaultProvider
    | CreateWorkflow(pipelineId: string)
    | ExecuteWorkflow(workflowId: string, pipeline: PipelineDefinition, providerId: string, input: Value)

  /** Which collaborator serves a call, in the order the service consults them. */
  function Collaborator(c: Call): nat
  {
    match c
    case GetPipeline(_) => 0
    case GetDefaultPipeline => 0
    case GetOptimizationSignal(_, _) => 1
    case GetProvider(_) => 2
    case IsAvailable(_) => 2
    case GetDefaultProvider => 2
    case CreateWorkflow(_) => 3
    case ExecuteWorkflow(_, _, _, _) => 3
  }

  /** The outcome of one step of a request: what it returned or threw, and the calls it made. */
  datatype Step<+T> = Step(result: Result<T>, calls: seq<Call>)

  /** Every call in `calls` goes to collaborator `k`. */
  ghost predicate Served(calls: seq<Call>, k: nat)
  {
    forall i :: 0 <= i < |calls| ==> Collaborator(calls[i]) == k
  }

  /** Every call in `calls` goes to collaborator `k` or an earlier one. */
  ghost predicate ServedUpTo(calls: seq<Call>, k: nat)
  {
    forall i :: 0 <= i < |calls| ==> Collaborator(calls[i]) <= k
  }

  /** No collaborator is called after a later one in the sequence has been. */
  ghost predicate InOrder(calls: seq<Call>)
  {
    forall i, j :: 0 <= i < j < |calls| ==> Collaborator(calls[i]) <= Collaborator(calls[j])
  }

  /** Appending the calls of a later collaborator keeps the trace in order. */
  lemma InOrderAppend(a: seq<Call>, b: seq<Call>, k: nat)
    requires InOrder(a) && ServedUpTo(a, k) && Served(b, k)
    ensures InOrder(a + b) && ServedUpTo(a + b, k)
  {
  }
}
