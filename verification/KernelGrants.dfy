/** How a confirmed tool comes to be approved, step by step: its approval unit asks, the
    answer ends that unit, and the call behind it is let through. */
module KernelGrants {
  import opened Common
  import opened KernelModels
  import opened ToolUnits
  import opened ToolExecution
  import opened KernelSteps
  import opened KernelInvariant
  import opened KernelPreserved
  import opened KernelHistoryKept
  import opened KernelLoading
  import opened KernelTheorems
  import opened KernelResults
  import opened KernelApproval

  /** The next unit of the task is the approval unit of the confirmed call behind it. */
  ghost predicate BeforeGate(config: Config, agent: string, t: Task) {
    && Runnable(t) && t.state.ToolState?
    && var units, n := t.state.units, NextUnit(t.state.units);
       && n + 1 < |units| && units[n].ToolUnit? && !units[n].fromLlm
       && units[n + 1].ToolUnit? && units[n + 1].fromLlm && !units[n + 1].call.error
       && NeedsApproval(config, agent, units[n + 1].toolId)
  }

  function Asking(t: Task): Unit
    requires t.state.ToolState? && NextUnit(t.state.units) < |t.state.units|
  {
    t.state.units[NextUnit(t.state.units)]
  }

  function Confirmed(t: Task): Unit
    requires t.state.ToolState? && NextUnit(t.state.units) + 1 < |t.state.units|
  {
    t.state.units[NextUnit(t.state.units) + 1]
  }

  /** Task `k` of the agent after a step that ended well. */
  function Stepped(r: Outcome, agent: string, k: nat): Option<Task> {
    if r.Moved? && k < |TasksOf(r.state.session, agent)| then Some(TasksOf(r.state.session, agent)[k]) else None
  }

  /** The next unit of task `k` is unit `n`, and it is let through. */
  ghost predicate LetThrough(config: Config, s: State, agent: string, k: nat, n: nat, a: Answer) {
    && k < |TasksOf(s.session, agent)| && TasksOf(s.session, agent)[k].state.ToolState?
    && var units := TasksOf(s.session, agent)[k].state.units;
       NextUnit(units) == n < |units| && Admitted(EnvOf(config, s, agent), units, n, a)
  }

  /** Task `k` goes on with answer `a1` and raises a request, the request is answered
      `approve`, and after one more step with `a2` unit `n` is let through with `a3`. */
  ghost predicate ApprovedWay(config: Config, s: State, agent: string, k: nat, n: nat, a1: Answer, a2: Answer, a3: Answer)
    requires k < |TasksOf(s.session, agent)| && Runnable(TasksOf(s.session, agent)[k])
  {
    var asked := AdvanceRunning(config, s, agent, k, a1);
    && Stepped(asked, agent, k).Some? && Stepped(asked, agent, k).value.request.Some?
    && var answered := ApplyResponse(config, asked.state, Stepped(asked, agent, k).value.request.value.id, AsyncData(APPROVE));
       && k < |TasksOf(answered.session, agent)| && Runnable(TasksOf(answered.session, agent)[k])
       && var granted := AdvanceRunning(config, answered, agent, k, a2);
          granted.Moved? && LetThrough(config, granted.state, agent, k, n, a3)
  }

  // ---- the parts keep a reached state reached -----------------------------------------------------

  lemma {:induction false} AdvanceSound(config: Config, s: State, k: nat, a: Answer)
    requires ConfigOk(config) && Sound(config, s)
    requires var tasks := TasksOf(s.session, TopAgent(s.session)); k < |tasks| && Runnable(tasks[k])
    requires AdvanceRunning(config, s, TopAgent(s.session), k, a).Moved?
    ensures Sound(config, AdvanceRunning(config, s, TopAgent(s.session), k, a).state)
  {
    hide ConfigOk, LocalOk, GlobalOk, Recorded, Records, AdvanceRunning, Runnable;
    TopIsKnown(config, s);
    AdvanceRunningOk(config, s, k, a);
    GlobalRunning(config, s, k, a);
    RunningRecords(config, s, TopAgent(s.session), k, a);
    RecordedKept(config, s, AdvanceRunning(config, s, TopAgent(s.session), k, a).state, TopAgent(s.session));
  }

  lemma {:induction false} ResponseSound(config: Config, s: State, requestId: nat, data: ResponseData)
    requires ConfigOk(config) && Sound(config, s)
    ensures Sound(config, ApplyResponse(config, s, requestId, data))
  {
    hide ConfigOk, LocalOk, GlobalOk, Recorded, ApplyResponse;
    ApplyResponseOk(config, s, requestId, data);
    GlobalResponse(config, s, requestId, data);
    ResponseRecorded(config, s, requestId, data);
  }

  // ---- asking ------------------------------------------------------------------------------------------

  lemma {:induction false} ApprovalUnitOf(config: Config, s: State, agent: string, k: nat, t: Task)
    requires Sound(config, s) && k < |TasksOf(s.session, agent)| && t == TasksOf(s.session, agent)[k] && BeforeGate(config, agent, t)
    ensures TaskOk(config, agent, s.log, s.next, t) && PrefixFinished(t.state.units)
    ensures UnitOk(config, agent, s.log, Asking(t)) && UnitOk(config, agent, s.log, Confirmed(t))
    ensures Asking(t).toolId == HitlId(Confirmed(t).toolId) && Reaches(Asking(t))
  {
    hide NextUnit, GlobalOk, FramesOk, QueueOk, HandoffOk, MessageOk, RequestOk, Recorded, NeedsApproval, RegisteredOk;
    TheTask(config, s, agent, k);
    assert UnitOk(config, agent, s.log, Asking(t)) && UnitOk(config, agent, s.log, Confirmed(t));
  }

  lemma {:induction false} ApprovalToolNeedsNone(env: Env, toolId: string)
    requires ConfigOk(env.config) && IsHitl(toolId) && FindTool(env, toolId).Some?
    ensures !FindTool(env, toolId).value.requiresConfirmation && FindTool(env, toolId).value.isAsync
  {
    HitlIsNotStatic(env.config, env.agent, toolId);
  }

  /** In every reached state, an approval unit that was not answered yet comes to a request
      if the id of the call behind it survives the prefix strip, and to a failed call if not. */
  lemma {:induction false} AskingComesTo(config: Config, s: State, agent: string, k: nat, t: Task, a: Answer)
    requires ConfigOk(config) && Sound(config, s) && a.accepted
    requires k < |TasksOf(s.session, agent)| && t == TasksOf(s.session, agent)[k] && BeforeGate(config, agent, t)
    requires OwnResponse(Asking(t), t.request).None?
    ensures ExecuteTool(EnvOf(config, s, agent), t.state.units, NextUnit(t.state.units), t.request, a)
         == if DecodableId(Confirmed(t).toolId) then Requested else FAILED_CALL
  {
    hide NextUnit, GlobalOk, FramesOk, QueueOk, HandoffOk, MessageOk, DecodableId, RequestOk, Recorded;
    ApprovalUnitOf(config, s, agent, k, t);
    ApprovalToolIsFound(EnvOf(config, s, agent), Confirmed(t).toolId);
    if DecodableId(Confirmed(t).toolId) {
      ApprovalToolNeedsNone(AfterFetch(EnvOf(config, s, agent), Asking(t).toolId), Asking(t).toolId);
    }
  }

  // ---- granting ----------------------------------------------------------------------------------------

  /** Executing the answered unit: success, and its approval tool is registered. */
  lemma {:induction false} AnsweredComesTo(config: Config, s: State, agent: string, k: nat, t: Task, a: Answer)
    requires ConfigOk(config) && Sound(config, s) && a.accepted
    requires k < |TasksOf(s.session, agent)| && t == TasksOf(s.session, agent)[k] && BeforeGate(config, agent, t)
    requires OwnResponse(Asking(t), t.request) == Some(AsyncData(APPROVE)) && DecodableId(Confirmed(t).toolId)
    ensures ExecuteTool(EnvOf(config, s, agent), t.state.units, NextUnit(t.state.units), t.request, a)
         == Executed(UnitCompleted, ToolResult(Success, None), None)
    ensures (agent, HitlId(Confirmed(t).toolId)) in RegisteredAfter(EnvOf(config, s, agent), Asking(t))
  {
    hide NextUnit, GlobalOk, FramesOk, QueueOk, HandoffOk, MessageOk, DecodableId, RequestOk, Recorded;
    ApprovalUnitOf(config, s, agent, k, t);
    ApprovalToolIsFound(EnvOf(config, s, agent), Confirmed(t).toolId);
    ApprovalToolNeedsNone(AfterFetch(EnvOf(config, s, agent), Asking(t).toolId), Asking(t).toolId);
    HitlIdRoundTrip(Confirmed(t).toolId);
  }

  function Granted(t: Task): seq<Unit>
    requires t.state.ToolState? && NextUnit(t.state.units) < |t.state.units| && Asking(t).ToolUnit?
  {
    t.state.units[NextUnit(t.state.units) := Asking(t).(status := UnitCompleted, result := Some(ToolResult(Success, None)))]
  }

  /** Finishing the approval unit, as a step of the loop. */
  lemma {:induction false} GrantedStep(config: Config, s: State, agent: string, k: nat, t: Task, a: Answer)
    requires k < |TasksOf(s.session, agent)| && t == TasksOf(s.session, agent)[k] && BeforeGate(config, agent, t)
    requires ExecuteTool(EnvOf(config, s, agent), t.state.units, NextUnit(t.state.units), t.request, a)
          == Executed(UnitCompleted, ToolResult(Success, None), None)
    ensures var r := AdvanceRunning(config, s, agent, k, a);
            && Stepped(r, agent, k).Some? && Stepped(r, agent, k).value.state.ToolState?
            && Stepped(r, agent, k).value.state.units == Granted(t)
            && r.state.registered == RegisteredAfter(EnvOf(config, s, agent), Asking(t))
  {
    hide ExecuteTool, RegisteredAfter, NextUnit, NeedsApproval;
  }

  /** The answer `approve` to the unit's own request lets the call behind it through, unless
      that call's name is empty. */
  lemma {:induction false} ApprovalGrants(config: Config, s: State, agent: string, k: nat, t: Task, a: Answer, a': Answer)
    requires ConfigOk(config) && Sound(config, s) && a.accepted && a'.accepted
    requires s.session.frames != [] && agent == TopAgent(s.session)
    requires k < |TasksOf(s.session, agent)| && t == TasksOf(s.session, agent)[k] && BeforeGate(config, agent, t)
    requires OwnResponse(Asking(t), t.request) == Some(AsyncData(APPROVE)) && DecodableId(Confirmed(t).toolId)
    ensures var r := AdvanceRunning(config, s, agent, k, a);
            r.Moved? && (LetThrough(config, r.state, agent, k, NextUnit(t.state.units) + 1, a') <==> Confirmed(t).toolId != "")
  {
    hide ConfigOk, Sound, NextUnit, DecodableId, AdvanceRunning, RegisteredAfter, Approved, NeedsApproval, ExecuteTool;
    var n := NextUnit(t.state.units);
    ApprovalUnitOf(config, s, agent, k, t);
    AnsweredComesTo(config, s, agent, k, t, a);
    GrantedStep(config, s, agent, k, t, a);
    NothingPending(config, agent);
    UnitFinished(t.state.units, Granted(t)[n], []);
    assert t.state.units[n := Granted(t)[n]] + [] == Granted(t);
    AdvanceSound(config, s, k, a);
    var r := AdvanceRunning(config, s, agent, k, a);
    var t' := Stepped(r, agent, k).value;
    assert t' in TasksOf(r.state.session, agent) && t'.state.units[n + 1] == Confirmed(t);
    GateMeans(config, r.state, agent, t');
  }

  // ---- the whole way ------------------------------------------------------------------------------------

  /** Raising the request, as a step of the loop. */
  lemma {:induction false} AskedStep(config: Config, s: State, agent: string, k: nat, t: Task, a: Answer)
    requires k < |TasksOf(s.session, agent)| && t == TasksOf(s.session, agent)[k] && BeforeGate(config, agent, t)
    requires ExecuteTool(EnvOf(config, s, agent), t.state.units, NextUnit(t.state.units), t.request, a) == Requested
    ensures var r := AdvanceRunning(config, s, agent, k, a);
            && Stepped(r, agent, k).Some? && Stepped(r, agent, k).value.state.ToolState? && r.state.session.frames == s.session.frames
            && Stepped(r, agent, k).value.state.status.Paused?
            && Stepped(r, agent, k).value.state.units
               == t.state.units[NextUnit(t.state.units) := Asking(t).(status := UnitPending, requestId := Some(s.next), result := Some(ToolResult(Waiting, None)))]
            && Stepped(r, agent, k).value.request == Some(Request(s.next, AsyncToolRequest, Running, None))
  {
    hide ExecuteTool, RegisteredAfter, NextUnit, NeedsApproval, TaskArtifacts;
  }

  /** A failed call leaves no request behind. */
  lemma {:induction false} FailedStep(config: Config, s: State, agent: string, k: nat, t: Task, a: Answer)
    requires k < |TasksOf(s.session, agent)| && t == TasksOf(s.session, agent)[k] && BeforeGate(config, agent, t)
    requires ExecuteTool(EnvOf(config, s, agent), t.state.units, NextUnit(t.state.units), t.request, a) == FAILED_CALL
    ensures Stepped(AdvanceRunning(config, s, agent, k, a), agent, k).Some?
    ensures Stepped(AdvanceRunning(config, s, agent, k, a), agent, k).value.request.None?
  {
    hide ExecuteTool, RegisteredAfter, NextUnit, NeedsApproval, AllFinished;
  }

  /** The answer puts the task back before its gate, with the approval in its own request. */
  lemma {:induction false} AnsweredStep(config: Config, s: State, agent: string, k: nat, n: nat, t: Task)
    requires ConfigOk(config) && Sound(config, s) && s.session.frames != [] && agent == TopAgent(s.session)
    requires k < |TasksOf(s.session, agent)| && t == TasksOf(s.session, agent)[k] && t.state.ToolState? && t.state.status.Paused?
    requires t.request.Some? && t.request.value.originStatus == Running
    requires n + 1 < |t.state.units| && NextUnit(t.state.units) == n
    ensures var s' := ApplyResponse(config, s, t.request.value.id, AsyncData(APPROVE));
            && s'.session.frames == s.session.frames && k < |TasksOf(s'.session, agent)| && TasksOf(s'.session, agent)[k] == Answering(t, AsyncData(APPROVE))
  {
    hide ConfigOk, LocalOk, GlobalOk, Recorded, ApplyResponse, NextUnit;
    TopIsKnown(config, s);
    FirstResponseAccepted(config, s, agent, k, AsyncData(APPROVE));
  }

  lemma {:induction false} WayFromSound(config: Config, s: State, agent: string, k: nat, t: Task, a1: Answer, a2: Answer, a3: Answer)
    requires ConfigOk(config) && Sound(config, s) && a1.accepted && a2.accepted && a3.accepted
    requires s.session.frames != [] && agent == TopAgent(s.session)
    requires k < |TasksOf(s.session, agent)| && t == TasksOf(s.session, agent)[k] && BeforeGate(config, agent, t)
    requires OwnResponse(Asking(t), t.request).None?
    ensures ApprovedWay(config, s, agent, k, NextUnit(t.state.units) + 1, a1, a2, a3)
       <==> DecodableId(Confirmed(t).toolId) && Confirmed(t).toolId != ""
  {
    hide ConfigOk, Sound, NextUnit, DecodableId, AdvanceRunning, RegisteredAfter, NeedsApproval, ExecuteTool, ApplyResponse, LetThrough;
    var n := NextUnit(t.state.units);
    AskingComesTo(config, s, agent, k, t, a1);
    if DecodableId(Confirmed(t).toolId) {
      AskedStep(config, s, agent, k, t, a1);
      AdvanceSound(config, s, k, a1);
      var asked := AdvanceRunning(config, s, agent, k, a1).state;
      var t1 := TasksOf(asked.session, agent)[k];
      NextAfter(t1.state.units, n);
      AnsweredStep(config, asked, agent, k, n, t1);
      ResponseSound(config, asked, t1.request.value.id, AsyncData(APPROVE));
      var answered := ApplyResponse(config, asked, t1.request.value.id, AsyncData(APPROVE));
      var t2 := TasksOf(answered.session, agent)[k];
      assert BeforeGate(config, agent, t2) && Confirmed(t2) == Confirmed(t);
      ApprovalGrants(config, answered, agent, k, t2, a2, a3);
    } else {
      FailedStep(config, s, agent, k, t, a1);
    }
  }

  /** Wherever the loop stands after any history: a confirmed tool of the running agent can
      be approved exactly if its id survives the prefix strip and is not empty. Otherwise its
      approval unit fails without a request, and the user has nothing to answer. */
  lemma {:induction false} CanBeApproved(config: Config, actions: seq<Action>, event: Option<Event>, answers: seq<Answer>,
                                         s: State, agent: string, k: nat, t: Task, a1: Answer, a2: Answer, a3: Answer)
    requires ConfigOk(config) && !LoopAt(config, actions, event, answers).end.Excepted? && s == LoopAt(config, actions, event, answers).state
    requires s.session.frames != [] && agent == TopAgent(s.session) && a1.accepted && a2.accepted && a3.accepted
    requires k < |TasksOf(s.session, agent)| && t == TasksOf(s.session, agent)[k] && BeforeGate(config, agent, t)
    requires OwnResponse(Asking(t), t.request).None?
    ensures ApprovedWay(config, s, agent, k, NextUnit(t.state.units) + 1, a1, a2, a3)
       <==> DecodableId(Confirmed(t).toolId) && Confirmed(t).toolId != ""
  {
    hide ConfigOk, Sound, LoopAt, BeforeGate, ApprovedWay, DecodableId;
    LoopHead(config, actions, event, answers);
    WayFromSound(config, s, agent, k, t, a1, a2, a3);
  }
}
