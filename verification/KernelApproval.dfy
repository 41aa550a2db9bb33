/** The approval gate over whole histories. */
module KernelApproval {
  import opened Common
  import opened KernelModels
  import opened ToolUnits
  import opened ToolExecution
  import opened KernelSteps
  import opened KernelInvariant
  import opened KernelPreserved
  import opened KernelHistory
  import opened KernelLoading
  import opened KernelTheorems
  import opened KernelResults

  /** The unit was approved: its own approval unit stands directly before it, ended in
      success, and the one request that unit raised was answered with an approval. */
  ghost predicate Approved(log: seq<Entry>, units: seq<Unit>, n: nat) {
    && 0 < n < |units| && units[n].ToolUnit? && units[n - 1].ToolUnit?
    && units[n - 1].toolId == HitlId(units[n].toolId) && units[n - 1].IsFinished()
    && units[n - 1].result.Some? && units[n - 1].result.value.status == Success
    && units[n - 1].requestId.Some?
    && Raised(units[n - 1].requestId.value, Some(units[n - 1].id)) in log
    && Answered(units[n - 1].requestId.value, AsyncData(APPROVE)) in log
    && (forall e :: e in log && (e.Raised? || e.Answered?) && e.request == units[n - 1].requestId.value ==>
          e == Raised(e.request, Some(units[n - 1].id)) || e == Answered(e.request, AsyncData(APPROVE)))
  }

  /** A unit that is not admitted neither runs its tool nor raises a request. */
  lemma {:induction false} NotAdmittedDoesNothing(env: Env, units: seq<Unit>, n: nat, request: Option<Request>, a: Answer)
    requires n < |units| && units[n].ToolUnit? && !Admitted(env, units, n, a)
    ensures ExecuteTool(env, units, n, request, a) in {Executed(UnitCompleted, ToolResult(Failure, None), None), Broken}
  {
  }

  lemma {:induction false} OnRecordOnce(log: seq<Entry>, r: nat, exe: Option<nat>, d: ResponseData)
    requires OnceEach(log) && Raised(r, exe) in log && Answered(r, d) in log
    ensures forall e :: e in log && (e.Raised? || e.Answered?) && e.request == r ==> e == Raised(r, exe) || e == Answered(r, d)
  {
    var i :| 0 <= i < |log| && log[i] == Raised(r, exe);
    var k :| 0 <= k < |log| && log[k] == Answered(r, d);
    forall e | e in log && (e.Raised? || e.Answered?) && e.request == r ensures e == Raised(r, exe) || e == Answered(r, d) {
      var j :| 0 <= j < |log| && log[j] == e;
    }
  }

  /** The gate in one sound state. */
  lemma {:induction false} GateHolds(config: Config, s: State, agent: string, t: Task, a: Answer)
    requires ConfigOk(config) && Sound(config, s) && t in TasksOf(s.session, agent) && t.state.ToolState?
    requires NextUnit(t.state.units) < |t.state.units|
    requires var u := t.state.units[NextUnit(t.state.units)]; u.ToolUnit? && NeedsApproval(config, agent, u.toolId)
    requires Admitted(EnvOf(config, s, agent), t.state.units, NextUnit(t.state.units), a)
    ensures Approved(s.log, t.state.units, NextUnit(t.state.units))
    ensures DecodableId(t.state.units[NextUnit(t.state.units)].toolId)
  {
    hide NextUnit, OnceEach, InOrder, AllAccounted, UniqueWaiting, WaitingUnanswered, DistinctTasks, IdsKnown, FramesOk, QueueOk, HandoffOk, MessageOk, DecodableId, RequestOk;
    var n := NextUnit(t.state.units);
    var units := t.state.units;
    assert TaskOk(config, agent, s.log, s.next, t);
    assert UnitOk(config, agent, s.log, units[n]);
    PrefixesDiffer(units[n].toolId);
    assert units[n].fromLlm;
    var prev := units[n - 1];
    assert UnitOk(config, agent, s.log, prev);
    assert prev.toolId == HitlId(units[n].toolId);
    HitlIsNotStatic(config, agent, prev.toolId);
    assert prev.toolId[|HITL_PREFIX|..] == units[n].toolId;
    assert (agent, prev.toolId) in s.registered;
    OnRecordOnce(s.log, prev.requestId.value, Some(prev.id), AsyncData(APPROVE));
  }

  /** Over every history: when a tool that needs confirmation is let through, it was
      approved by the answer to the very request its own approval unit raised, and its id
      survives the prefix strip. */
  lemma {:induction false} ConfirmedToolsRunApproved(config: Config, actions: seq<Action>, event: Option<Event>, answers: seq<Answer>,
                                  agent: string, t: Task, a: Answer)
    requires ConfigOk(config) && !LoopAt(config, actions, event, answers).end.Excepted?
    requires t in TasksOf(LoopAt(config, actions, event, answers).state.session, agent)
    requires t.state.ToolState? && NextUnit(t.state.units) < |t.state.units|
    requires var u := t.state.units[NextUnit(t.state.units)]; u.ToolUnit? && NeedsApproval(config, agent, u.toolId)
    requires Admitted(EnvOf(config, LoopAt(config, actions, event, answers).state, agent), t.state.units, NextUnit(t.state.units), a)
    ensures Approved(LoopAt(config, actions, event, answers).state.log, t.state.units, NextUnit(t.state.units))
    ensures DecodableId(t.state.units[NextUnit(t.state.units)].toolId)
  {
    hide ConfigOk, Sound, LoopAt, Admitted, Approved, NextUnit, DecodableId;
    LoopHead(config, actions, event, answers);
    GateHolds(config, LoopAt(config, actions, event, answers).state, agent, t, a);
  }

  /** An approval unit finds its tool exactly if the confirmed tool's id survives the
      prefix strip. */
  lemma {:induction false} ApprovalToolIsFound(env: Env, toolId: string)
    requires ConfigOk(env.config) && RegisteredOk(env.registered)
    ensures FindTool(AfterFetch(env, HitlId(toolId)), HitlId(toolId)).Some? <==> DecodableId(toolId)
  {
    HitlIsNotStatic(env.config, env.agent, HitlId(toolId));
    HitlIdRoundTrip(toolId);
    assert HitlId(toolId)[|HITL_PREFIX|..] == toolId;
    if (env.agent, HitlId(toolId)) in env.registered {
      var p := (env.agent, HitlId(toolId));
      assert DecodableId(p.1[|HITL_PREFIX|..]);
    }
  }

  // ---- what the gate of a reached state answers ------------------------------------------------

  /** The next unit of the task calls a confirmed tool, behind its approval unit. */
  ghost predicate AtGate(config: Config, s: State, agent: string, t: Task) {
    && t in TasksOf(s.session, agent) && t.state.ToolState? && NextUnit(t.state.units) < |t.state.units|
    && var u := t.state.units[NextUnit(t.state.units)];
       u.ToolUnit? && u.fromLlm && !u.call.error && NeedsApproval(config, agent, u.toolId)
  }

  /** The gate before unit `n` is open exactly if the unit's own request was answered with an
      approval and its approval tool is registered, and it is ill-formed exactly if that tool
      is not registered. */
  ghost predicate GateTells(config: Config, s: State, agent: string, units: seq<Unit>, n: nat)
    requires n < |units| && units[n].ToolUnit?
  {
    var env, id := EnvOf(config, s, agent), units[n].toolId;
    var tool := FindTool(env, id);
    var registered := (agent, HitlId(id)) in s.registered;
    && tool.Some? && AfterFetch(env, id) == env
    && n > 0 && units[n - 1].ToolUnit? && units[n - 1].result.Some?
    && (Approved(s.log, units, n) <==> units[n - 1].result.value.status == Success)
    && (Confirmation(env, units, n, tool.value) == Open <==> registered && Approved(s.log, units, n))
    && (Confirmation(env, units, n, tool.value) == Invalid <==> !registered)
  }

  /** In every reached state nothing else of the gate can fail. */
  lemma {:induction false} GateMeans(config: Config, s: State, agent: string, t: Task)
    requires ConfigOk(config) && Sound(config, s) && AtGate(config, s, agent, t)
    ensures GateTells(config, s, agent, t.state.units, NextUnit(t.state.units))
  {
    hide NextUnit, OnceEach, InOrder, AllAccounted, UniqueWaiting, WaitingUnanswered, DistinctTasks, IdsKnown, FramesOk, QueueOk, HandoffOk, MessageOk, DecodableId, RequestOk;
    var n := NextUnit(t.state.units);
    var units := t.state.units;
    assert TaskOk(config, agent, s.log, s.next, t);
    assert UnitOk(config, agent, s.log, units[n]);
    PrefixesDiffer(units[n].toolId);
    var prev := units[n - 1];
    assert UnitOk(config, agent, s.log, prev) && prev.IsFinished();
    HitlIsNotStatic(config, agent, prev.toolId);
    if prev.result.value.status == Success {
      OnRecordOnce(s.log, prev.requestId.value, Some(prev.id), AsyncData(APPROVE));
    }
  }

  /** A restart forgets the approval tools. A confirmed tool that was approved but not yet
      run when the process ended fails at its gate, whatever the answers: the exception
      pauses the task, and each retry meets the same gate. */
  lemma {:induction false} RestartForgetsApproval(config: Config, actions: seq<Action>, agent: string, t: Task, a: Answer)
    requires ConfigOk(config)
    requires var s := ApplyAll(config, NewWorld(config), actions + [Reload(true)]).state;
             AtGate(config, s, agent, t) && Reaches(t.state.units[NextUnit(t.state.units)])
    ensures var s := ApplyAll(config, NewWorld(config), actions + [Reload(true)]).state;
            ExecuteTool(EnvOf(config, s, agent), t.state.units, NextUnit(t.state.units), t.request, a) == Broken
  {
    hide ConfigOk, Sound, NextUnit, AtGate, Approved, Loaded;
    var w := ApplyAll(config, NewWorld(config), actions + [Reload(true)]);
    AlwaysSafe(config, actions + [Reload(true)]);
    assert (actions + [Reload(true)])[..|actions|] == actions;
    assert w.state.registered == {};
    GateMeans(config, w.state, agent, t);
  }
}
