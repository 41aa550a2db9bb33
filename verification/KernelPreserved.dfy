/** Every step of the runtime keeps the task and frame invariants. */
module KernelPreserved {
  import opened Common
  import opened KernelModels
  import opened ToolUnits
  import opened ToolExecution
  import opened KernelSteps
  import opened KernelInvariant
  import opened ToolRounds

  ghost predicate QueueOk(s: State) {
    forall i :: i in s.session.inputQueue ==> i.id < s.next
  }

  /** Only inputs of the user open a round of the history. */
  predicate HistoryOk(history: seq<Artifact>) {
    forall a | a in history :: a.InputArtifact? ==> a.input.event.UserInput?
  }

  lemma {:induction false} NoInputsInLoop(owner: string, units: seq<Unit>)
    ensures forall a :: a in LoopArtifacts(owner, units) ==> !a.InputArtifact? && a.owner == owner
  {
    if units != [] {
      NoInputsInLoop(owner, units[..|units| - 1]);
    }
  }

  /** What a task leaves in the history is one round of its agent: it begins with the input
      the task started from, holds no other input, and belongs to that agent throughout. */
  lemma {:induction false} ArtifactsAreOneRound(owner: string, t: Task)
    ensures var r := TaskArtifacts(owner, t);
            && r != [] && r[0] == InputArtifact(owner, t.startInput)
            && (forall k :: 0 < k < |r| ==> !r[k].InputArtifact?) && (forall a :: a in r ==> a.owner == owner)
            && (t.state.status.Paused? && t.request.Some? ==> r[|r| - 1] == InterruptionArtifact(owner, t.request.value))
  {
    if t.state.ToolState? {
      NoInputsInLoop(owner, t.state.units);
    }
    var r := TaskArtifacts(owner, t);
    forall k | 0 < k < |r| ensures !r[k].InputArtifact? {
      assert r[k] in r[1..];
    }
  }

  /** A task opens a round with the input it started from. */
  lemma {:induction false} TaskRound(owner: string, t: Task, history: seq<Artifact>)
    requires HistoryOk(history) && t.startInput.event.UserInput?
    ensures HistoryOk(history + TaskArtifacts(owner, t))
  {
    if t.state.ToolState? {
      NoInputsInLoop(owner, t.state.units);
    }
  }

  /** The part of the invariant that looks at one task, one frame or one input at a time. */
  ghost predicate LocalOk(config: Config, s: State) {
    && s.session.frames != [] && FramesOk(config, s.session.frames)
    && TasksOk(config, s) && QueueOk(s) && RegisteredOk(s.registered) && HistoryOk(s.session.history)
  }

  // ---- inputs --------------------------------------------------------------------------

  lemma {:induction false} EnqueueOk(config: Config, s: State, event: Event, origin: Option<nat>)
    requires LocalOk(config, s)
    ensures LocalOk(config, Enqueue(s, event, origin))
  {
    hide TaskOk, FramesOk, RegisteredOk;
    TasksKept(config, s, Enqueue(s, event, origin));
  }

  lemma {:induction false} ApplyResponseOk(config: Config, s: State, requestId: nat, data: ResponseData)
    requires LocalOk(config, s)
    ensures LocalOk(config, ApplyResponse(config, s, requestId, data))
  {
    hide FramesOk, UnitsOk, MessageOk, RegisteredOk;
    var agent := WaitingAgent(s.session, config.agents, requestId);
    var s' := ApplyResponse(config, s, requestId, data);
    if agent.Some? && s' != s {
      var k := FirstWaiting(TasksOf(s.session, agent.value), requestId);
      var t := TasksOf(s.session, agent.value)[k];
      TheTask(config, s, agent.value, k);
      TaskGrows(config, agent.value, s.log, s.next, s'.log, s'.next, t);
      TaskSet(config, s, s', agent.value, k, Answering(t, data));
    }
  }

  lemma {:induction false} TakeInputOk(config: Config, s: State)
    requires LocalOk(config, s) && s.session.inputQueue != [] && TakeInput(config, s).Moved?
    ensures LocalOk(config, TakeInput(config, s).state)
  {
    hide FramesOk, ApplyResponse, UnitsOk, MessageOk, RegisteredOk;
    var input := s.session.inputQueue[0];
    var popped := s.(session := s.session.(inputQueue := s.session.inputQueue[1..]));
    var s' := TakeInput(config, s).state;
    assert input in s.session.inputQueue;
    if input.event.UserInput? {
      TasksKept(config, s, s');
    } else if input.event.InterruptionResponse? {
      TasksKept(config, s, popped);
      ApplyResponseOk(config, popped, input.event.requestId, input.event.data);
    }
  }

  // ---- completed tasks --------------------------------------------------------------------

  lemma {:induction false} EnterToolLoopOk(config: Config, s: State, agent: string, k: nat)
    requires ConfigOk(config) && LocalOk(config, s) && k < |TasksOf(s.session, agent)|
    requires var t := TasksOf(s.session, agent)[k].state; t.MessageState? && t.message.Some? && t.message.value.calls != []
    ensures LocalOk(config, EnterToolLoop(config, s, agent, k))
  {
    hide ConfigOk, FramesOk, BuildUnits, Gated, UnitOk, MessageOk, PrefixFinished, NextUnit, AllPending, RegisteredOk;
    var t := TasksOf(s.session, agent)[k];
    var message := t.state.message.value;
    TheTask(config, s, agent, k);
    BuiltOk(config, agent, s.log, message, s.next);
    var built := BuildUnits(ToolsOf(config, agent), message, s.next);
    PendingFromStart(built.units);
    BuiltInRounds(ToolsOf(config, agent), message, s.next);
    TaskSet(config, s, EnterToolLoop(config, s, agent, k), agent, k,
            t.(state := ToolState(Running, message, built.units), request := None));
  }

  lemma {:induction false} RemovedAreOld(tasks: seq<Task>, id: nat)
    ensures forall t :: t in RemoveTask(tasks, id) <==> t in tasks && t.id != id
  {
    if tasks != [] {
      RemovedAreOld(tasks[..|tasks| - 1], id);
      assert tasks == tasks[..|tasks| - 1] + [tasks[|tasks| - 1]];
    }
  }

  /** The change a completed task asks for can always be made from its own agent. */
  lemma {:induction false} ChangeOk(config: Config, s: State, agent: string, k: nat)
    requires LocalOk(config, s) && agent == TopAgent(s.session)
    requires k < |TasksOf(s.session, agent)| && TasksOf(s.session, agent)[k].state.status.Completed?
    ensures var change := FrameChangeOf(s.session.frames, TasksOf(s.session, agent)[k].state);
            change.Some? ==> HandoffOk(config, agent, change.value)
  {
    hide Gated, PrefixFinished, ToolIdOk;
    var t := TasksOf(s.session, agent)[k];
    TheTask(config, s, agent, k);
    if t.state.ToolState? && LastHandoff(t.state.units).Some? {
      assert UnitOk(config, agent, s.log, t.state.units[|t.state.units| - 1]);
    }
  }

  /** A handoff succeeds exactly if its target is a known agent. It then puts the target on
      top, and the target's return tool takes exactly that frame away again; a handoff that
      fails moves no frame, and neither does a return with no frame beneath. */
  lemma {:induction false} HandoffThenReturn(env: Env, u: Unit, back: Unit, a: Answer, a': Answer)
    requires env.frames != [] && env.agent == env.frames[|env.frames| - 1].agent
    requires IsHandoff(u) && IsHandoffReturn(back) && !IsHandoff(back)
    ensures var out, target := SyncExecution(env, u, a), HandoffTarget(u.call.name.value);
            && (out.result.status == Success <==> target != "" && target in env.config.agents)
            && (out.result.status == Success <==> out.result.handoff.Some?)
            && (out.result.handoff.Some? ==>
                  && out.result.handoff.value.source == env.agent
                  && var frames := FramesAfter(env.frames, out.result.handoff.value);
                     && frames[|frames| - 1] == Frame(target, Some(env.agent))
                     && var home := SyncExecution(env.(agent := target, frames := frames), back, a').result;
                        && home == ToolResult(Success, Some(Pop(target, env.agent, true)))
                        && FramesAfter(frames, home.handoff.value) == env.frames)
    ensures |env.frames| == 1 ==> SyncExecution(env, back, a').result == ToolResult(Failure, None)
  {
  }

  lemma {:induction false} FramesChangeOk(config: Config, frames: seq<Frame>, change: FrameChange)
    requires frames != [] && FramesOk(config, frames) && HandoffOk(config, frames[|frames| - 1].agent, change)
    ensures FramesOk(config, FramesAfter(frames, change)) && FramesAfter(frames, change) != []
  {
  }

  lemma {:induction false} CloseTaskOk(config: Config, s: State, agent: string, k: nat)
    requires LocalOk(config, s) && agent == TopAgent(s.session)
    requires k < |TasksOf(s.session, agent)| && TasksOf(s.session, agent)[k].state.status.Completed?
    ensures CloseTask(s, agent, TasksOf(s.session, agent)[k]).Moved?
    ensures LocalOk(config, CloseTask(s, agent, TasksOf(s.session, agent)[k]).state)
  {
    hide TaskOk, FramesOk, HandoffOk, FrameChangeOf, TaskArtifacts, RemoveTask, FramesAfter, RegisteredOk;
    var t := TasksOf(s.session, agent)[k];
    ChangeOk(config, s, agent, k);
    var change := FrameChangeOf(s.session.frames, t.state);
    assert change.Some? ==> change.value.source == agent by {
      if change.Some? {
        HandoffSource(config, agent, change.value);
      }
    }
    var s' := CloseTask(s, agent, t).state;
    TheTask(config, s, agent, k);
    StartedByUser(config, agent, s.log, s.next, t);
    TaskRound(agent, t, s.session.history);
    RemovedAreOld(TasksOf(s.session, agent), t.id);
    forall b, x | x in TasksOf(s'.session, b) ensures x in TasksOf(s.session, b) {
    }
    TasksKept(config, s, s');
    if change.Some? {
      FramesChangeOk(config, s.session.frames, change.value);
    }
  }

  lemma {:induction false} StartedByUser(config: Config, agent: string, log: seq<Entry>, next: nat, t: Task)
    requires TaskOk(config, agent, log, next, t)
    ensures t.startInput.event.UserInput?
  {
  }

  lemma {:induction false} HandoffSource(config: Config, agent: string, change: FrameChange)
    requires HandoffOk(config, agent, change)
    ensures change.source == agent
  {
  }

  // ---- running tasks --------------------------------------------------------------------------

  lemma {:induction false} AdvanceMessageOk(config: Config, s: State, agent: string, k: nat, a: Answer)
    requires LocalOk(config, s) && k < |TasksOf(s.session, agent)| && TasksOf(s.session, agent)[k].state.MessageState?
    ensures LocalOk(config, AdvanceMessage(config, s, agent, k, a))
  {
    hide FramesOk, MessageOk, Generate, UnitsOk, RegisteredOk;
    var t := TasksOf(s.session, agent)[k];
    TheTask(config, s, agent, k);
    GeneratedOk(config, s.session, agent, false, a);
    TaskSet(config, s, AdvanceMessage(config, s, agent, k, a), agent, k,
            t.(state := MessageState(Completed, Some(Generate(config, s.session, agent, false, a))), request := None));
  }

  /** A running tool task after its next unit has been executed. */
  lemma {:induction false} UnitDone(config: Config, agent: string, log: seq<Entry>, next: nat, t: Task, u: Unit, more: seq<Unit>)
    requires TaskOk(config, agent, log, next, t) && t.state.ToolState? && t.state.status.Running?
    requires var units := t.state.units;
             && NextUnit(units) < |units| && u.IsFinished() && u.LlmUnit? == units[NextUnit(units)].LlmUnit?
             && (u.ToolUnit? ==> u.fromLlm == units[NextUnit(units)].fromLlm && u.toolId == units[NextUnit(units)].toolId
                                 && u.call == units[NextUnit(units)].call)
    requires UnitOk(config, agent, log, u) && AllPending(more) && Gated(config, agent, more)
    requires forall x :: x in more ==> UnitOk(config, agent, log, x)
    requires if u.LlmUnit? then u.message.Some? && Continues(u.message.value, more) else more == []
    ensures TaskOk(config, agent, log, next, ClearRequest(WithUnits(t, t.state.units[NextUnit(t.state.units) := u] + more)))
  {
    hide Gated, NextUnit, PrefixFinished, AllFinished, AllPending, InRounds, ToolIdOk, HandoffOk, MessageOk, IsHitl;
    var n := NextUnit(t.state.units);
    var units := t.state.units[n := u] + more;
    assert t.state.units[n] in t.state.units && UnitOk(config, agent, log, t.state.units[n]);
    RoundAdvances(t.state.callMessage.calls, 0, t.state.units, n, u, more);
    UnitFinished(t.state.units, u, more);
    GatedUpdate(config, agent, t.state.units, n, u);
    GatedConcat(config, agent, t.state.units[n := u], more);
  }

  lemma {:induction false} AdvanceLlmUnitOk(config: Config, s: State, agent: string, k: nat, a: Answer)
    requires ConfigOk(config) && LocalOk(config, s) && k < |TasksOf(s.session, agent)|
    requires Runnable(TasksOf(s.session, agent)[k]) && TasksOf(s.session, agent)[k].state.ToolState?
    requires TasksOf(s.session, agent)[k].state.units[NextUnit(TasksOf(s.session, agent)[k].state.units)].LlmUnit?
    ensures LocalOk(config, AdvanceLlmUnit(config, s, agent, k, NextUnit(TasksOf(s.session, agent)[k].state.units), a))
  {
    hide ConfigOk, FramesOk, BuildUnits, MessageOk, Generate, TaskOk, AllPending, Gated, RegisteredOk, ClearRequest, WithUnits, NextUnit;
    var t := TasksOf(s.session, agent)[k];
    var n := NextUnit(t.state.units);
    var u := t.state.units[n];
    var message := Generate(config, s.session, agent, u.noToolCall, a);
    var s' := AdvanceLlmUnit(config, s, agent, k, n, a);
    TheTask(config, s, agent, k);
    GeneratedOk(config, s.session, agent, u.noToolCall, a);
    var built := if message.calls == [] then Built([], s.next, false)
                 else BuildUnits(ToolsOf(config, agent), message, s.next);
    if message.calls == [] {
      NothingPending(config, agent);
    } else {
      BuiltOk(config, agent, s'.log, message, s.next);
      BuiltInRounds(ToolsOf(config, agent), message, s.next);
    }
    TaskGrows(config, agent, s.log, s.next, s'.log, s'.next, t);
    UnitDone(config, agent, s'.log, s'.next, t, u.(status := UnitCompleted, message := Some(message)), built.units);
    var units := t.state.units[n := u.(status := UnitCompleted, message := Some(message))] + built.units;
    TaskSet(config, s, s', agent, k, ClearRequest(WithUnits(t, units)));
  }

  lemma {:induction false} NothingPending(config: Config, agent: string)
    ensures AllPending([]) && Gated(config, agent, [])
  {
  }

  /** What a tool execution can leave in its unit. */
  lemma {:induction false} ExecutionOk(config: Config, s: State, agent: string, t: Task, a: Answer)
    requires ConfigOk(config) && FramesOk(config, s.session.frames) && agent == TopAgent(s.session)
    requires TaskOk(config, agent, s.log, s.next, t) && Runnable(t) && t.state.ToolState?
    requires t.state.units[NextUnit(t.state.units)].ToolUnit?
    requires ExecuteTool(EnvOf(config, s, agent), t.state.units, NextUnit(t.state.units), t.request, a).Executed?
    ensures var n := NextUnit(t.state.units);
            var e := ExecuteTool(EnvOf(config, s, agent), t.state.units, n, t.request, a);
            var u := t.state.units[n].(status := e.status, result := Some(e.result));
            u.IsFinished() && UnitOk(config, agent, s.log, u)
  {
    hide Gated, PrefixFinished, NextUnit, Confirmation;
    var n := NextUnit(t.state.units);
    var u := t.state.units[n];
    var env := EnvOf(config, s, agent);
    assert UnitOk(config, agent, s.log, u);
    PrefixesDiffer(u.toolId);
    if IsHitl(u.toolId) && !u.fromLlm {
      HitlIsNotStatic(config, agent, u.toolId);
    }
  }

  /** An approval tool is never one of the agent's own, so it is asynchronous. */
  lemma {:induction false} HitlIsNotStatic(config: Config, agent: string, toolId: string)
    requires ConfigOk(config) && IsHitl(toolId)
    ensures Lookup(ToolsOf(config, agent), toolId).None?
  {
    forall t | t in ToolsOf(config, agent) ensures t.id != toolId {
    }
  }

  lemma {:induction false} FinishToolUnitOk(config: Config, s: State, agent: string, k: nat, e: Execution)
    requires ConfigOk(config) && LocalOk(config, s) && k < |TasksOf(s.session, agent)| && e.Executed?
    requires Runnable(TasksOf(s.session, agent)[k]) && TasksOf(s.session, agent)[k].state.ToolState?
    requires var units := TasksOf(s.session, agent)[k].state.units;
             var n := NextUnit(units);
             units[n].ToolUnit? && var u := units[n].(status := e.status, result := Some(e.result));
             u.IsFinished() && UnitOk(config, agent, s.log, u)
    ensures LocalOk(config, FinishToolUnit(s, agent, k, NextUnit(TasksOf(s.session, agent)[k].state.units), e))
  {
    hide ConfigOk, FramesOk, TaskOk, UnitOk, AllPending, Gated, RegisteredOk, ClearRequest, WithUnits, NextUnit, Enqueue;
    var t := TasksOf(s.session, agent)[k];
    var n := NextUnit(t.state.units);
    var u := t.state.units[n].(status := e.status, result := Some(e.result));
    TheTask(config, s, agent, k);
    NothingPending(config, agent);
    UnitDone(config, agent, s.log, s.next, t, u, []);
    assert t.state.units[n := u] + [] == t.state.units[n := u];
    var done := s.(session := SetTask(s.session, agent, k, ClearRequest(WithUnits(t, t.state.units[n := u]))));
    TaskSet(config, s, done, agent, k, ClearRequest(WithUnits(t, t.state.units[n := u])));
    if e.event.Some? {
      EnqueueOk(config, done, e.event.value, None);
    }
  }

  lemma {:induction false} PauseForRequestOk(config: Config, s: State, agent: string, k: nat)
    requires LocalOk(config, s) && k < |TasksOf(s.session, agent)|
    requires Runnable(TasksOf(s.session, agent)[k]) && TasksOf(s.session, agent)[k].state.ToolState?
    requires TasksOf(s.session, agent)[k].state.units[NextUnit(TasksOf(s.session, agent)[k].state.units)].ToolUnit?
    ensures LocalOk(config, PauseForRequest(s, agent, k, NextUnit(TasksOf(s.session, agent)[k].state.units)))
  {
    hide FramesOk, Gated, NextUnit, TaskArtifacts, RegisteredOk, ToolIdOk, HandoffOk, MessageOk;
    var t := TasksOf(s.session, agent)[k];
    var n := NextUnit(t.state.units);
    var s' := PauseForRequest(s, agent, k, n);
    TheTask(config, s, agent, k);
    TaskGrows(config, agent, s.log, s.next, s'.log, s'.next, t);
    var u := t.state.units[n].(status := UnitPending, requestId := Some(s.next), result := Some(ToolResult(Waiting, None)));
    assert t.state.units[n] in t.state.units;
    assert Raised(s.next, Some(u.id)) in s'.log;
    var units := t.state.units[n := u];
    GatedUpdate(config, agent, t.state.units, n, u);
    NextAfter(units, n);
    RoundAdvances(t.state.callMessage.calls, 0, t.state.units, n, u, []);
    assert units + [] == units;
    var paused := t.(state := t.state.(status := Paused, units := units),
                     request := Some(Request(s.next, AsyncToolRequest, t.state.status, None)));
    assert StateOk(config, agent, s'.log, paused);
    TaskRound(agent, paused, s.session.history);
    TaskSet(config, s, s', agent, k, paused);
  }

  // ---- exceptions and the end of a run ---------------------------------------------------------------

  lemma {:induction false} PauseAfterExceptionOk(config: Config, s: State)
    requires LocalOk(config, s)
    ensures LocalOk(config, PauseAfterException(s))
  {
    hide FramesOk, UnitsOk, TaskArtifacts, RegisteredOk;
    if CanPause(s) {
      var agent := TopAgent(s.session);
      var k := FirstActive(TasksOf(s.session, agent));
      var t := TasksOf(s.session, agent)[k];
      var s' := PauseAfterException(s);
      TheTask(config, s, agent, k);
      TaskGrows(config, agent, s.log, s.next, s'.log, s'.next, t);
      var paused := t.(state := t.state.(status := Paused), request := Some(Request(s.next, ExceptionResume, t.state.status, None)));
      TaskRound(agent, paused, s.session.history);
      TaskSet(config, s, s', agent, k, paused);
    }
  }

  lemma {:induction false} PausedAreOld(tasks: seq<Task>)
    ensures forall t :: t in PausedOnly(tasks) <==> t in tasks && t.state.status.Paused?
  {
    if tasks != [] {
      PausedAreOld(tasks[..|tasks| - 1]);
      assert tasks == tasks[..|tasks| - 1] + [tasks[|tasks| - 1]];
    }
  }

  /** Later ids and other registered tools change nothing of it. */
  lemma {:induction false} LocalGrows(config: Config, s: State, registered: set<(string, string)>, next: nat)
    requires LocalOk(config, s) && next >= s.next && RegisteredOk(registered)
    ensures LocalOk(config, s.(registered := registered, next := next))
  {
    hide FramesOk, TaskOk, RegisteredOk;
    TasksKept(config, s, s.(registered := registered, next := next));
  }

  lemma {:induction false} FetchRegisters(env: Env, u: Unit)
    requires RegisteredOk(env.registered) && u.ToolUnit?
    ensures RegisteredOk(RegisteredAfter(env, u))
  {
    var stripped := LStrip(u.toolId, HITL_PREFIX);
    LStripShort(u.toolId, HITL_PREFIX);
    assert HitlId(stripped)[|HITL_PREFIX|..] == stripped;
  }

  // ---- one iteration ------------------------------------------------------------------------------------

  lemma {:induction false} AdvanceRunningOk(config: Config, s: State, k: nat, a: Answer)
    requires ConfigOk(config) && LocalOk(config, s)
    requires var tasks := TasksOf(s.session, TopAgent(s.session)); k < |tasks| && Runnable(tasks[k])
    ensures var w := AdvanceRunning(config, s, TopAgent(s.session), k, a);
            if w.Moved? then LocalOk(config, w.state) else RegisteredOk(w.registered) && w.next >= s.next
  {
    hide ConfigOk, TaskOk, UnitOk, FramesOk, ExecuteTool, RegisteredOk, PauseForRequest, FinishToolUnit, AdvanceLlmUnit,
      AdvanceMessage, NextUnit, RegisteredAfter;
    var agent := TopAgent(s.session);
    var t := TasksOf(s.session, agent)[k];
    var n := NextUnit(if t.state.ToolState? then t.state.units else []);
    if t.state.MessageState? {
      AdvanceMessageOk(config, s, agent, k, a);
    } else if t.state.units[n].LlmUnit? {
      AdvanceLlmUnitOk(config, s, agent, k, a);
    } else {
      var e := ExecuteTool(EnvOf(config, s, agent), t.state.units, n, t.request, a);
      var fetched := s.(registered := RegisteredAfter(EnvOf(config, s, agent), t.state.units[n]));
      FetchRegisters(EnvOf(config, s, agent), t.state.units[n]);
      LocalGrows(config, s, fetched.registered, s.next);
      TheTask(config, s, agent, k);
      if e.Requested? {
        PauseForRequestOk(config, fetched, agent, k);
      } else if e.Executed? {
        ExecutionOk(config, s, agent, t, a);
        FinishToolUnitOk(config, fetched, agent, k, e);
      }
    }
  }

  /** The frame stack never empties, so an iteration always has an agent to work for. */
  lemma {:induction false} WorkOk(config: Config, s: State, a: Answer)
    requires ConfigOk(config) && LocalOk(config, s)
    ensures var w := Work(config, s, a);
            if w.Moved? then LocalOk(config, w.state) && w.state.next >= s.next
            else w.Faulted? ==> RegisteredOk(w.registered) && w.next >= s.next
  {
    hide ConfigOk, TaskOk, AdvanceRunning, TakeInput, CloseTask, EnterToolLoop, Runnable;
    var agent := TopAgent(s.session);
    var tasks := TasksOf(s.session, agent);
    var c, r := FirstCompleted(tasks), FirstRunnable(tasks);
    WorkGrows(config, s, a);
    if c < |tasks| {
      if tasks[c].state.MessageState? && tasks[c].state.message.Some? && tasks[c].state.message.value.calls != [] {
        EnterToolLoopOk(config, s, agent, c);
      } else if !tasks[c].state.MessageState? || tasks[c].state.message.Some? {
        CloseTaskOk(config, s, agent, c);
      }
    } else if r < |tasks| {
      AdvanceRunningOk(config, s, r, a);
    } else if s.session.inputQueue != [] && TakeInput(config, s).Moved? {
      TakeInputOk(config, s);
    }
  }

  lemma {:induction false} WorkGrows(config: Config, s: State, a: Answer)
    ensures Work(config, s, a).Moved? ==> Extends(s, Work(config, s, a).state)
  {
    hide ExecuteTool, Runnable, TaskArtifacts, FrameChangeOf, Generate, RemoveTask;
  }
}
