/** `ToolService.execute_unit`: one tool call, from the runtime checks and the
    approval gate to the body, the asynchronous request and its response. */
module ToolExecution {
  import opened Common
  import opened KernelModels
  import opened ToolUnits

  /** Where a unit is executed: the running agent, the control frames and the
      approval tools registered so far as (agent, id). */
  datatype Env = Env(config: Config, agent: string, frames: seq<Frame>, registered: set<(string, string)>)

  /** What executing a tool unit comes to: an exception that leaves the tool chain,
      a new asynchronous request, or a result. */
  datatype Execution =
    | Broken
    | Requested
    | Executed(status: UnitStatus, result: ToolResult, event: Option<Event>)

  /** A failure that is reported to the model as the result of the call. */
  const FAILED_CALL := Executed(UnitCompleted, ToolResult(Failure, None), None)

  function ToolsOf(config: Config, agent: string): seq<ToolMeta> {
    if agent in config.tools then config.tools[agent] else []
  }

  /** `get_tool_by_id`: static tools, then approval tools registered on the way. */
  function FindTool(env: Env, id: string): (r: Option<ToolMeta>)
    ensures r.Some? ==> r.value.id == id
  {
    var t := Lookup(ToolsOf(env.config, env.agent), id);
    if t.Some? then t
    else if (env.agent, id) in env.registered then Some(ToolMeta(id, false, true))
    else None
  }

  /** Fetching an approval tool registers it first, under the id the prefix strip
      leaves. */
  function AfterFetch(env: Env, toolId: string): Env {
    if IsHitl(toolId) then env.(registered := env.registered + {(env.agent, RegisteredHitlId(toolId))}) else env
  }

  predicate Reaches(u: Unit) {
    u.ToolUnit? && !u.call.error && u.call.name.Some? && u.call.name.value != ""
  }

  /** The approval gate in front of a confirmed tool. */
  datatype Gate = Open | Refused | Invalid

  function Confirmation(env: Env, units: seq<Unit>, k: nat, tool: ToolMeta): Gate
    requires k < |units|
  {
    if !tool.requiresConfirmation then Open
    else if k == 0 || !units[k - 1].ToolUnit? then Invalid
    else if FindTool(env, units[k - 1].toolId).None? || !IsHitl(units[k - 1].toolId) then Invalid
    else if units[k - 1].result.None? then Invalid
    else if units[k - 1].result.value.status == Success then Open
    else Refused
  }

  function StatusOf(result: ToolResult): UnitStatus {
    if result.status == Failure then UnitFailed else UnitCompleted
  }

  function HandoffResult(env: Env, u: Unit): ToolResult
    requires IsHandoff(u)
  {
    var target := HandoffTarget(u.call.name.value);
    if target == "" || target !in env.config.agents then ToolResult(Failure, None)
    else ToolResult(Success, Some(Push(env.agent, target)))
  }

  /** `HandoffReturnTool.call`. */
  function ReturnResult(frames: seq<Frame>): ToolResult {
    if |frames| < 2 then ToolResult(Failure, None)
    else ToolResult(Success, Some(Pop(frames[|frames| - 1].agent, frames[|frames| - 2].agent, true)))
  }

  function SyncExecution(env: Env, u: Unit, a: Answer): Execution {
    if IsHandoff(u) then var r := HandoffResult(env, u); Executed(StatusOf(r), r, None)
    else if u.ToolUnit? && u.toolId == HANDOFF_RETURN then var r := ReturnResult(env.frames); Executed(StatusOf(r), r, None)
    else var r := ToolResult(if a.bodyFailed then Failure else Success, None); Executed(StatusOf(r), r, a.event)
  }

  /** The response to this unit's own request, if it is there. */
  function OwnResponse(u: Unit, request: Option<Request>): Option<ResponseData>
    requires u.ToolUnit?
  {
    if request.Some? && u.requestId == Some(request.value.id) then request.value.response else None
  }

  function ResponseExecution(u: Unit, data: ResponseData, a: Answer): Execution
    requires u.ToolUnit?
  {
    if !data.AsyncData? then FAILED_CALL
    else if IsHitl(u.toolId) then
      var r := ToolResult(if data.option == APPROVE then Success else Failure, None);
      Executed(StatusOf(r), r, None)
    else if !a.handled then FAILED_CALL
    else
      var r := ToolResult(if a.bodyFailed then Failure else Success, None);
      Executed(StatusOf(r), r, a.event)
  }

  /** The unit's tool gets to run or to ask: fetched, approved, arguments accepted. */
  predicate Admitted(env: Env, units: seq<Unit>, k: nat, a: Answer)
    requires k < |units|
  {
    && Reaches(units[k])
    && var env' := AfterFetch(env, units[k].toolId);
       var tool := FindTool(env', units[k].toolId);
       tool.Some? && Confirmation(env', units, k, tool.value) == Open && a.accepted
  }

  function ExecuteTool(env: Env, units: seq<Unit>, k: nat, request: Option<Request>, a: Answer): Execution
    requires k < |units| && units[k].ToolUnit?
  {
    var u := units[k];
    var env' := AfterFetch(env, u.toolId);
    var tool := FindTool(env', u.toolId);
    if !Reaches(u) || tool.None? then FAILED_CALL
    else
      match Confirmation(env', units, k, tool.value)
      case Invalid => Broken
      case Refused => FAILED_CALL
      case Open =>
        if !a.accepted then FAILED_CALL
        else if !tool.value.isAsync then SyncExecution(env', u, a)
        else
          var response := OwnResponse(u, request);
          if response.None? then Requested else ResponseExecution(u, response.value, a)
  }

  function RegisteredAfter(env: Env, u: Unit): set<(string, string)> {
    if Reaches(u) then AfterFetch(env, u.toolId).registered else env.registered
  }

  /** A request is raised exactly for an admitted asynchronous tool that has no response of
      its own yet; the chain breaks exactly at an ill-formed gate; and a result can be a
      success only if the unit was admitted, an asynchronous one only with a response of its
      own that carries data, an approval only with the answer `approve`. */
  lemma {:induction false} OutcomeMeans(env: Env, units: seq<Unit>, k: nat, request: Option<Request>, a: Answer)
    requires k < |units| && units[k].ToolUnit?
    ensures var u := units[k];
            var env' := AfterFetch(env, u.toolId);
            var tool, e, own := FindTool(env', u.toolId), ExecuteTool(env, units, k, request, a), OwnResponse(u, request);
            && (e.Requested? <==> Admitted(env, units, k, a) && tool.value.isAsync && own.None?)
            && (e.Broken? <==> Reaches(u) && tool.Some? && Confirmation(env', units, k, tool.value) == Invalid)
            && (e.Executed? && e.result.status == Success ==>
                  && Admitted(env, units, k, a) && e.status == UnitCompleted
                  && (tool.value.isAsync ==> own.Some? && own.value.AsyncData?)
                  && (tool.value.isAsync && IsHitl(u.toolId) ==> own == Some(AsyncData(APPROVE))))
            && (e.Executed? && e.result.handoff.Some? ==> e.result.status == Success && !tool.value.isAsync && e.event.None?)
  {
  }

  /** An ordinary synchronous tool, neither a handoff nor a return of control. */
  predicate Ordinary(u: Unit, tool: ToolMeta) {
    u.ToolUnit? && !tool.isAsync && !IsHandoffId(u.call.name.GetOr("")) && u.toolId != HANDOFF_RETURN
  }

  /** The result of a body: what it did, what it wants published, and no change of control. */
  predicate BodyResult(e: Execution, failed: bool, event: Option<Event>) {
    && e.Executed? && e.result.handoff.None? && e.event == event
    && (e.result.status == Success <==> !failed) && (e.result.status == Failure <==> failed)
    && (e.status == UnitCompleted <==> !failed) && (e.status == UnitFailed <==> failed)
  }

  /** A change of control, or a failure that changes nothing. */
  predicate ControlResult(e: Execution, ok: bool, change: FrameChange) {
    e.Executed? && e.event.None?
    && if ok then e.status == UnitCompleted && e.result == ToolResult(Success, Some(change))
       else e.status == UnitFailed && e.result == ToolResult(Failure, None)
  }

  /** What an admitted unit comes to, tool by tool: a synchronous body succeeds exactly if it
      did not fail; a handoff succeeds exactly if its target is a registered agent, a return
      exactly if there is an agent beneath; an asynchronous tool asks until its own response
      is there, and then succeeds exactly if the response is one it could handle, an approval
      exactly if it says `approve`. */
  lemma {:induction false} AdmittedEnds(env: Env, units: seq<Unit>, k: nat, request: Option<Request>, a: Answer)
    requires k < |units| && units[k].ToolUnit? && Admitted(env, units, k, a)
    ensures var u, e := units[k], ExecuteTool(env, units, k, request, a);
            var tool, n := FindTool(AfterFetch(env, u.toolId), u.toolId).value, |env.frames|;
            var asked := request.Some? && u.requestId == Some(request.value.id) && request.value.response.Some?;
            && (Ordinary(u, tool) ==> BodyResult(e, a.bodyFailed, a.event))
            && (!tool.isAsync && IsHandoffId(u.call.name.value) ==>
                  var target := HandoffTarget(u.call.name.value);
                  ControlResult(e, target != "" && target in env.config.agents, Push(env.agent, target)))
            && (!tool.isAsync && !IsHandoffId(u.call.name.value) && u.toolId == HANDOFF_RETURN ==>
                  if n >= 2 then ControlResult(e, true, Pop(env.frames[n - 1].agent, env.frames[n - 2].agent, true))
                  else ControlResult(e, false, Pop("", "", true)))
            && (tool.isAsync && !asked ==> e == Requested)
            && (tool.isAsync && asked && request.value.response == Some(RetryData) ==> e == Executed(UnitCompleted, ToolResult(Failure, None), None))
            && (tool.isAsync && asked && IsHitl(u.toolId) && request.value.response.value.AsyncData? ==>
                  BodyResult(e, request.value.response.value.option != "approve", None))
            && (tool.isAsync && asked && !IsHitl(u.toolId) && request.value.response.value.AsyncData? ==>
                  if a.handled then BodyResult(e, a.bodyFailed, a.event) else e == Executed(UnitCompleted, ToolResult(Failure, None), None))
  {
    var u := units[k];
    assert Reaches(u) && (IsHandoff(u) <==> IsHandoffId(u.call.name.value));
  }

  /** `_resolve_confirmation`. */
  method ResolveConfirmation(env: Env, units: seq<Unit>, k: nat, tool: ToolMeta) returns (gate: Gate)
    requires k < |units|
    ensures gate == Confirmation(env, units, k, tool)
  {
    if !tool.requiresConfirmation {
      return Open;
    }
    var previous := k - 1;
    if previous < 0 || !units[previous].ToolUnit? {
      return Invalid;
    }
    var hitlTool := FindTool(env, units[previous].toolId);
    if hitlTool.None? || !IsHitl(hitlTool.value.id) || units[previous].result.None? {
      return Invalid;
    }
    return if units[previous].result.value.status == Success then Open else Refused;
  }

  /** `_execute_sync_tool`: an exception in the tool chain is a failed result. */
  method ExecuteSyncTool(env: Env, u: Unit, a: Answer) returns (result: ToolResult, event: Option<Event>)
    requires u.ToolUnit?
    ensures Executed(StatusOf(result), result, event) == SyncExecution(env, u, a)
  {
    event := None;
    if IsHandoff(u) {
      var target := HandoffTarget(u.call.name.value);
      if target == "" || target !in env.config.agents {
        return ToolResult(Failure, None), None;
      }
      return ToolResult(Success, Some(Push(env.agent, target))), None;
    }
    if u.toolId == HANDOFF_RETURN {
      result := ReturnResult(env.frames);
      return;
    }
    return ToolResult(if a.bodyFailed then Failure else Success, None), a.event;
  }

  /** `_execute_tool_call_unit`. */
  method ExecuteToolCallUnit(env: Env, units: seq<Unit>, k: nat, request: Option<Request>, a: Answer)
    returns (e: Execution, registered: set<(string, string)>)
    requires k < |units| && units[k].ToolUnit?
    ensures e == ExecuteTool(env, units, k, request, a)
    ensures registered == RegisteredAfter(env, units[k])
  {
    var u := units[k];
    registered := env.registered;
    if u.call.error {
      return FAILED_CALL, registered;
    }
    if u.call.name.None? || u.call.name.value == "" {
      return FAILED_CALL, registered;
    }
    if IsHitl(u.toolId) {
      registered := registered + {(env.agent, RegisteredHitlId(u.toolId))};
    }
    var env' := env.(registered := registered);
    assert env' == AfterFetch(env, u.toolId);
    var tool := FindTool(env', u.toolId);
    if tool.None? {
      return FAILED_CALL, registered;
    }
    var gate := ResolveConfirmation(env', units, k, tool.value);
    if gate == Invalid {
      return Broken, registered;
    }
    if gate == Refused || !a.accepted {
      return FAILED_CALL, registered;
    }
    if tool.value.isAsync {
      var response := OwnResponse(u, request);
      if response.None? {
        return Requested, registered;
      }
      return ResponseExecution(u, response.value, a), registered;
    }
    var result, event := ExecuteSyncTool(env', u, a);
    return Executed(StatusOf(result), result, event), registered;
  }
}
