// Request validation and the execute handler (src/handlers/execute-handler.ts).

module ExecuteHandler {
  import opened JsValue
  import opened Types
  import opened Calls
  import Service = AutomationService

  const NOT_OBJECT_MESSAGE := "Invalid request: must be an object"
  const INPUT_NOT_OBJECT_MESSAGE := "Invalid request: input must be an object"

  /** A string property, or absent when the property holds anything else. */
  function StringField(v: Value, key: string): (r: Option<string>)
    ensures r.Some? <==> Field(v, key).Str?
    ensures r.Some? ==> Field(v, key) == Str(r.value)
  {
    match Field(v, key)
    case Str(s) => Some(s)
    case _ => None
  }

  /** A number property, or absent when the property holds anything else. */
  function NumberField(v: Value, key: string): (r: Option<int>)
    ensures r.Some? <==> Field(v, key).Num?
    ensures r.Some? ==> Field(v, key) == Num(r.value)
  {
    match Field(v, key)
    case Num(n) => Some(n)
    case _ => None
  }

  /**
   * The routing hints as the typed code downstream reads them after the
   * unchecked cast: absent for undefined or null, otherwise the declared
   * properties that hold values of their declared types.
   */
  function HintsView(v: Value): Option<RoutingHints>
  {
    if v == Undefined || v == Null then None
    else Some(RoutingHints(
      StringField(v, "preferredProvider"), StringField(v, "modelTier"),
      NumberField(v, "maxLatencyMs"), NumberField(v, "costBudget")))
  }

  /** The execution options as typed code reads them after the unchecked cast. */
  function OptionsView(v: Value): Option<ExecutionOptions>
  {
    if v == Undefined || v == Null then None
    else Some(ExecutionOptions(
      NumberField(v, "timeout"), StringField(v, "retryPolicy"), StringField(v, "traceId")))
  }

  /**
   * validateRequest: a non-object request and an object request whose input
   * is not an object are rejected, in that order; otherwise the ids are kept
   * when they are strings and dropped silently when not, and input, hints and
   * options are passed on.
   */
  function ValidateRequest(request: Value): (r: Result<AutomationRequest>)
    ensures r == Err(Error(NOT_OBJECT_MESSAGE)) <==> !IsObject(request)
    ensures r == Err(Error(INPUT_NOT_OBJECT_MESSAGE))
            <==> IsObject(request) && !IsObject(Field(request, "input"))
    ensures r.Ok? <==> IsObject(request) && IsObject(Field(request, "input"))
    ensures r.Ok? ==>
              && r.value.input == Field(request, "input")
              && (r.value.pipelineId.Some? <==> Field(request, "pipelineId").Str?)
              && (r.value.pipelineId.Some? ==> Field(request, "pipelineId") == Str(r.value.pipelineId.value))
              && (r.value.workflowId.Some? <==> Field(request, "workflowId").Str?)
              && (r.value.workflowId.Some? ==> Field(request, "workflowId") == Str(r.value.workflowId.value))
              && r.value.routingHints == HintsView(Field(request, "routingHints"))
              && r.value.options == OptionsView(Field(request, "options"))
  {
    if !Truthy(request) || TypeOf(request) != "object" then
      Err(Error(NOT_OBJECT_MESSAGE))
    else
      var input := Field(request, "input");
      if !Truthy(input) || TypeOf(input) != "object" then
        Err(Error(INPUT_NOT_OBJECT_MESSAGE))
      else
        Ok(AutomationRequest(
          StringField(request, "pipelineId"),
          StringField(request, "workflowId"),
          input,
          HintsView(Field(request, "routingHints")),
          OptionsView(Field(request, "options"))))
  }

  /** handleExecute: validate, then hand the validated request to the service. */
  function HandleExecute(service: Service.Deps, request: Value, startTime: int, endTime: int): (s: Step<AutomationResult>)
    // a rejected request reaches no collaborator
    ensures ValidateRequest(request).Err? ==> s == Step(Err(ValidateRequest(request).error), [])
    ensures s.calls != [] ==> IsObject(request) && IsObject(Field(request, "input"))
    // an accepted one gets exactly the service's answer for the validated request
    ensures ValidateRequest(request).Ok?
            ==> s == Service.Execute(service, ValidateRequest(request).value, startTime, endTime)
  {
    match ValidateRequest(request)
    case Err(e) => Step(Err(e), [])
    case Ok(validated) => Service.Execute(service, validated, startTime, endTime)
  }

  /** `m` with `key` bound to `v` when `v` is present, and unchanged otherwise. */
  function With(m: map<string, Value>, key: string, v: Option<Value>): (r: map<string, Value>)
    ensures v.Some? ==> r == m[key := v.value]
    ensures v.None? ==> r == m
  {
    if v.Some? then m[key := v.value] else m
  }

  function StrValue(s: Option<string>): Option<Value>
  {
    if s.Some? then Some(Str(s.value)) else None
  }

  function NumValue(n: Option<int>): Option<Value>
  {
    if n.Some? then Some(Num(n.value)) else None
  }

  /** Routing hints as the object literal a caller sends, absent properties omitted. */
  function HintsValue(h: RoutingHints): Value
  {
    Obj(With(With(With(With(map[],
      "preferredProvider", StrValue(h.preferredProvider)),
      "modelTier", StrValue(h.modelTier)),
      "maxLatencyMs", NumValue(h.maxLatencyMs)),
      "costBudget", NumValue(h.costBudget)))
  }

  function OptionsValue(o: ExecutionOptions): Value
  {
    Obj(With(With(With(map[],
      "timeout", NumValue(o.timeout)),
      "retryPolicy", StrValue(o.retryPolicy)),
      "traceId", StrValue(o.traceId)))
  }

  /** A typed request as the object literal a caller sends, absent properties omitted. */
  function RequestValue(req: AutomationRequest): Value
  {
    Obj(With(With(With(With(map["input" := req.input],
      "pipelineId", StrValue(req.pipelineId)),
      "workflowId", StrValue(req.workflowId)),
      "routingHints", if req.routingHints.Some? then Some(HintsValue(req.routingHints.value)) else None),
      "options", if req.options.Some? then Some(OptionsValue(req.options.value)) else None))
  }

  lemma HintsRoundTrip(h: RoutingHints)
    ensures HintsView(HintsValue(h)) == Some(h)
  {
  }

  lemma OptionsRoundTrip(o: ExecutionOptions)
    ensures OptionsView(OptionsValue(o)) == Some(o)
  {
  }

  /**
   * Every well-formed request (an object-valued input) passes validation
   * unchanged: nothing a typed caller sends is lost or altered.
   */
  lemma {:induction false} ValidateRoundTrip(req: AutomationRequest)
    requires IsObject(req.input)
    ensures ValidateRequest(RequestValue(req)) == Ok(req)
  {
    var v := RequestValue(req);
    assert Field(v, "input") == req.input;
    assert StringField(v, "pipelineId") == req.pipelineId;
    assert StringField(v, "workflowId") == req.workflowId;
    if req.routingHints.Some? {
      assert Field(v, "routingHints") == HintsValue(req.routingHints.value);
      HintsRoundTrip(req.routingHints.value);
    } else {
      assert Field(v, "routingHints") == Undefined;
    }
    if req.options.Some? {
      assert Field(v, "options") == OptionsValue(req.options.value);
      OptionsRoundTrip(req.options.value);
    } else {
      assert Field(v, "options") == Undefined;
    }
  }

  /** `t` occurs in `s` (the substring test `toThrow` applies to a message). */
  predicate Contains(s: string, t: string)
  {
    exists i :: 0 <= i <= |s| - |t| && OccursAt(s, t, i)
  }

  predicate OccursAt(s: string, t: string, i: nat)
  {
    i + |t| <= |s| && s[i..i + |t|] == t
  }

  /** Both messages mention "must be an object"; only the second mentions the input. */
  lemma {:induction false} MessagesMention()
    ensures Contains(NOT_OBJECT_MESSAGE, "must be an object")
    ensures Contains(INPUT_NOT_OBJECT_MESSAGE, "input must be an object")
    ensures NOT_OBJECT_MESSAGE != INPUT_NOT_OBJECT_MESSAGE
  {
    assert OccursAt(NOT_OBJECT_MESSAGE, "must be an object", 17);
    assert INPUT_NOT_OBJECT_MESSAGE == "Invalid request: " + "input must be an object";
    assert OccursAt(INPUT_NOT_OBJECT_MESSAGE, "input must be an object", 17);
  }

  /**
   * The handler's rejections as the tests observe them: `{}` fails with a
   * message containing "input must be an object"; null and a string fail
   * with one containing "must be an object"; nothing is called.
   */
  lemma RejectionScenarios(service: Service.Deps, startTime: int, endTime: int)
    ensures var s := HandleExecute(service, Obj(map[]), startTime, endTime);
            s.calls == [] && s.result.Err? && Contains(s.result.error.message, "input must be an object")
    ensures var s := HandleExecute(service, Null, startTime, endTime);
            s.calls == [] && s.result.Err? && Contains(s.result.error.message, "must be an object")
    ensures var s := HandleExecute(service, Str("invalid"), startTime, endTime);
            s.calls == [] && s.result.Err? && Contains(s.result.error.message, "must be an object")
  {
    MessagesMention();
  }

  /** The test requests: a valid input succeeds, and a named pipeline is the one that runs. */
  lemma AcceptanceScenarios(stamp: string, startTime: int, endTime: int)
    ensures HandleExecute(Service.SimulatorCore(stamp), Obj(map["input" := Obj(map["test" := Bool(true)])]),
                          startTime, endTime).result.Ok?
    ensures var s := HandleExecute(Service.SimulatorCore(stamp),
                                   Obj(map["pipelineId" := Str("test-pipe"),
                                           "input" := Obj(map["data" := Str("value")]),
                                           "routingHints" := Obj(map["modelTier" := Str("quality")])]),
                                   startTime, endTime);
            s.result.Ok? && s.result.value.success && s.result.value.metadata.pipelineId == "test-pipe"
  {
    var r1 := Obj(map["input" := Obj(map["test" := Bool(true)])]);
    Service.SimulatorExecute(stamp, ValidateRequest(r1).value, startTime, endTime);
    var r2 := Obj(map["pipelineId" := Str("test-pipe"),
                      "input" := Obj(map["data" := Str("value")]),
                      "routingHints" := Obj(map["modelTier" := Str("quality")])]);
    assert StringField(r2, "pipelineId") == Some("test-pipe");
    Service.SimulatorExecute(stamp, ValidateRequest(r2).value, startTime, endTime);
  }
}
