/** `Runtime`: the main loop and its methods over the mutable session, each proved
    against the step it is meant to be. */
module KernelRuntime {
  import opened Common
  import opened KernelModels
  import opened ToolUnits
  import opened ToolExecution
  import opened KernelSteps

  // ---- methods that only read ----------------------------------------------------------

  method PickNextExecutionUnit(units: seq<Unit>) returns (n: nat)
    ensures n == NextUnit(units)
  {
    n := 0;
    while n < |units|
      invariant n <= |units| && forall j :: 0 <= j < n ==> !units[j].status.UnitPending?
    {
      if units[n].status.UnitPending? {
        return;
      }
      n := n + 1;
    }
  }

  method PickCompletedTask(tasks: seq<Task>) returns (k: nat)
    ensures k == FirstCompleted(tasks)
  {
    k := 0;
    while k < |tasks|
      invariant k <= |tasks| && forall j :: 0 <= j < k ==> !tasks[j].state.status.Completed?
    {
      if tasks[k].state.status.Completed? {
        return;
      }
      k := k + 1;
    }
  }

  method PickAvailableRunningTask(tasks: seq<Task>) returns (k: nat)
    ensures k == FirstRunnable(tasks)
  {
    k := 0;
    while k < |tasks|
      invariant k <= |tasks| && forall j :: 0 <= j < k ==> !Runnable(tasks[j])
    {
      var t := tasks[k];
      if t.state.status.Running? {
        if t.state.MessageState? {
          return;
        }
        var n := PickNextExecutionUnit(t.state.units);
        if n < |t.state.units| {
          return;
        }
      }
      k := k + 1;
    }
  }

  /** `_collect_tool_loop_artifacts`, after the tool call message. */
  method CollectToolLoopArtifacts(owner: string, units: seq<Unit>) returns (artifacts: seq<Artifact>)
    ensures artifacts == LoopArtifacts(owner, units)
  {
    artifacts := [];
    for k := 0 to |units|
      invariant artifacts == LoopArtifacts(owner, units[..k])
    {
      assert units[..k + 1][..k] == units[..k];
      var u := units[k];
      if !u.IsFinished() {
        continue;
      }
      if u.ToolUnit? {
        if !u.fromLlm {
          continue;
        }
        artifacts := artifacts + [ToolExeArtifact(owner, u)];
        continue;
      }
      artifacts := artifacts + [ToolLlmArtifact(owner, u)];
    }
    assert units[..|units|] == units;
  }

  method BuildTaskArtifacts(owner: string, t: Task) returns (artifacts: seq<Artifact>)
    ensures artifacts == TaskArtifacts(owner, t)
  {
    artifacts := [InputArtifact(owner, t.startInput)];
    if t.state.status.Paused? && t.request.Some? {
      return artifacts + [InterruptionArtifact(owner, t.request.value)];
    }
    if t.state.MessageState? {
      if t.state.status.Completed? && t.state.message.Some? {
        artifacts := artifacts + [AssistantArtifact(owner, t.state.message.value)];
      }
      return;
    }
    var loop := CollectToolLoopArtifacts(owner, t.state.units);
    artifacts := artifacts + ([ToolCallArtifact(owner, t.state.callMessage)] + loop);
  }

  method CheckAllFinished(units: seq<Unit>) returns (all: bool)
    ensures all <==> AllFinished(units)
  {
    for k := 0 to |units|
      invariant forall j :: 0 <= j < k ==> units[j].IsFinished()
    {
      if !units[k].IsFinished() {
        return false;
      }
    }
    return true;
  }

  lemma {:induction false} OwnStatusDoesNotMatter(env: Env, units: seq<Unit>, n: nat, status: UnitStatus, request: Option<Request>, a: Answer)
    requires n < |units| && units[n].ToolUnit?
    ensures var started := units[n := units[n].WithStatus(status)];
            && ExecuteTool(env, started, n, request, a) == ExecuteTool(env, units, n, request, a)
            && RegisteredAfter(env, started[n]) == RegisteredAfter(env, units[n])
  {
  }

  /** The session while unit `n` of a task runs. */
  function Begun(s: Session, agent: string, k: nat, n: nat): Session
    requires k < |TasksOf(s, agent)| && TasksOf(s, agent)[k].state.ToolState?
    requires n < |TasksOf(s, agent)[k].state.units|
  {
    var t := TasksOf(s, agent)[k];
    SetTask(s, agent, k, t.(state := t.state.(units := t.state.units[n := t.state.units[n].WithStatus(UnitRunning)])))
  }

  lemma {:induction false} SetTwice(s: Session, agent: string, k: nat, t: Task, t': Task)
    requires k < |TasksOf(s, agent)|
    ensures SetTask(SetTask(s, agent, k, t), agent, k, t') == SetTask(s, agent, k, t')
    ensures TasksOf(SetTask(s, agent, k, t), agent) == TasksOf(s, agent)[k := t]
  {
    assert s.tasks[agent][k := t][k := t'] == s.tasks[agent][k := t'];
  }

  lemma {:induction false} PausedAlike(tasks: seq<Task>, k: nat, t: Task)
    requires k < |tasks| && t.state.status == tasks[k].state.status
    ensures HasPaused(tasks[k := t]) == HasPaused(tasks)
  {
    var changed := tasks[k := t];
    forall j | 0 <= j < |tasks| ensures tasks[j].state.status == changed[j].state.status && tasks[j] in tasks && changed[j] in changed {
    }
    if HasPaused(tasks) {
      var j :| 0 <= j < |tasks| && tasks[j].state.status.Paused?;
      assert changed[j].state.status.Paused?;
    }
    if HasPaused(changed) {
      var j :| 0 <= j < |tasks| && changed[j].state.status.Paused?;
      assert tasks[j].state.status.Paused?;
    }
  }

  /** The mark does not show in what comes of the unit. */
  lemma {:induction false} BegunLlm(config: Config, s: State, agent: string, k: nat, n: nat, a: Answer)
    requires k < |TasksOf(s.session, agent)| && TasksOf(s.session, agent)[k].state.ToolState?
    requires n < |TasksOf(s.session, agent)[k].state.units| && TasksOf(s.session, agent)[k].state.units[n].LlmUnit?
    ensures AdvanceLlmUnit(config, s.(session := Begun(s.session, agent, k, n)), agent, k, n, a)
         == AdvanceLlmUnit(config, s, agent, k, n, a)
  {
    hide BuildUnits, HasPaused, AllFinished, ShownTools;
    var b := Begun(s.session, agent, k, n);
    var t, t' := TasksOf(s.session, agent)[k], TasksOf(b, agent)[k];
    SetTwice(s.session, agent, k, t', t);
    PausedAlike(TasksOf(s.session, agent), k, t');
    var u := t.state.units[n];
    var message := Generate(config, s.session, agent, u.noToolCall, a);
    assert Generate(config, b, agent, u.noToolCall, a) == message;
    var u' := u.(status := UnitCompleted, message := Some(message));
    assert t'.state.units[n := u'] == t.state.units[n := u'];
    var built := if message.calls == [] then Built([], s.next, false)
                 else BuildUnits(ToolsOf(config, agent), message, s.next);
    var units := t.state.units[n := u'] + built.units;
    SetTwice(s.session, agent, k, t', ClearRequest(WithUnits(t, units)));
  }

  lemma {:induction false} BegunPause(s: State, agent: string, k: nat, n: nat)
    requires k < |TasksOf(s.session, agent)| && TasksOf(s.session, agent)[k].state.ToolState?
    requires n < |TasksOf(s.session, agent)[k].state.units| && TasksOf(s.session, agent)[k].state.units[n].ToolUnit?
    ensures PauseForRequest(s.(session := Begun(s.session, agent, k, n)), agent, k, n) == PauseForRequest(s, agent, k, n)
  {
    hide TaskArtifacts;
    var t, t' := TasksOf(s.session, agent)[k], TasksOf(Begun(s.session, agent, k, n), agent)[k];
    var u := t.state.units[n].(status := UnitPending, requestId := Some(s.next), result := Some(ToolResult(Waiting, None)));
    assert t'.state.units[n := u] == t.state.units[n := u];
    var paused := t.(state := t.state.(status := Paused, units := t.state.units[n := u]),
                     request := Some(Request(s.next, AsyncToolRequest, t.state.status, None)));
    SetTwice(s.session, agent, k, t', paused);
  }

  lemma {:induction false} BegunFinish(s: State, agent: string, k: nat, n: nat, e: Execution)
    requires k < |TasksOf(s.session, agent)| && TasksOf(s.session, agent)[k].state.ToolState? && e.Executed?
    requires n < |TasksOf(s.session, agent)[k].state.units| && TasksOf(s.session, agent)[k].state.units[n].ToolUnit?
    ensures FinishToolUnit(s.(session := Begun(s.session, agent, k, n)), agent, k, n, e) == FinishToolUnit(s, agent, k, n, e)
  {
    hide AllFinished;
    var t, t' := TasksOf(s.session, agent)[k], TasksOf(Begun(s.session, agent, k, n), agent)[k];
    var u := t.state.units[n].(status := e.status, result := Some(e.result));
    assert t'.state.units[n := u] == t.state.units[n := u];
    SetTwice(s.session, agent, k, t', ClearRequest(WithUnits(t, t.state.units[n := u])));
  }

  /** A list without its first input of the given id. */
  function RemoveFirst(queue: seq<Input>, id: nat): seq<Input> {
    if queue == [] then []
    else if queue[0].id == id then queue[1..]
    else [queue[0]] + RemoveFirst(queue[1..], id)
  }

  // ---- the runtime ---------------------------------------------------------------------------

  class Runtime {
    const config: Config
    var session: Session
    /** The in-memory queue, rebuilt from the persisted one when a run begins. */
    var queue: seq<Input>
    /** `last_session_state`: the last checkpoint. */
    var last: Session
    var registered: set<(string, string)>
    var next: nat
    ghost var log: seq<Entry>
    ghost var lastLog: seq<Entry>

    ghost function Current(): State
      reads this
    {
      State(session, log, registered, next)
    }

    ghost function Last(): Checkpoint
      reads this
    {
      Checkpoint(last, lastLog)
    }

    ghost predicate InLoop()
      reads this
    {
      queue == session.inputQueue && session.frames != []
    }

    /** A runtime bound to a loaded session. */
    constructor (config: Config, session: Session, next: nat)
      ensures this.config == config && Current() == State(session, [], {}, next) && Last() == Checkpoint(session, [])
    {
      this.config := config;
      this.session := session;
      this.queue := [];
      this.last := session;
      this.registered := {};
      this.next := next;
      log := [];
      lastLog := [];
    }

    // ---- queues and checkpoints ------------------------------------------------------

    method RestoreRuntimeInputQueue()
      modifies `queue
      ensures queue == session.inputQueue
    {
      queue := [];
      for k := 0 to |session.inputQueue|
        invariant queue == session.inputQueue[..k]
      {
        queue := queue + [session.inputQueue[k]];
      }
      assert session.inputQueue[..|session.inputQueue|] == session.inputQueue;
    }

    method PushInput(event: Event, origin: Option<nat>)
      requires queue == session.inputQueue
      modifies `session, `queue, `log, `next
      ensures Current() == Enqueue(old(Current()), event, origin)
      ensures queue == session.inputQueue
    {
      var input := Input(next, origin, event);
      next := next + 1;
      queue := queue + [input];
      session := session.(inputQueue := session.inputQueue + [input]);
      log := log + [Arrived(input)];
    }

    /** The persisted queue loses the input with the id of the one taken from memory. */
    method PopInput() returns (input: Input)
      requires queue != []
      modifies `session, `queue
      ensures input == old(queue)[0] && queue == old(queue)[1..]
      ensures session == old(session).(inputQueue := RemoveFirst(old(session.inputQueue), input.id))
      ensures old(queue == session.inputQueue) ==> queue == session.inputQueue
    {
      input := queue[0];
      queue := queue[1..];
      var k := 0;
      ghost var all := session.inputQueue;
      assert all[..0] + RemoveFirst(all[0..], input.id) == RemoveFirst(all, input.id);
      while k < |session.inputQueue|
        invariant 0 <= k <= |all| && session == old(session)
        invariant all[..k] + RemoveFirst(all[k..], input.id) == RemoveFirst(all, input.id)
      {
        if session.inputQueue[k].id == input.id {
          session := session.(inputQueue := session.inputQueue[..k] + session.inputQueue[k + 1..]);
          return;
        }
        assert all[k..] == [all[k]] + all[k + 1..];
        assert all[..k + 1] == all[..k] + [all[k]];
        k := k + 1;
      }
      assert all[..k] == all && all[k..] == [];
    }

    method CommitCheckpoint()
      modifies `last, `lastLog
      ensures Last() == CheckpointOf(Current())
    {
      last := session;
      lastLog := log;
    }

    method SaveTaskHistory(agent: string, t: Task)
      modifies `session
      ensures session == old(session).(history := old(session.history) + TaskArtifacts(agent, t))
    {
      var artifacts := BuildTaskArtifacts(agent, t);
      session := session.(history := session.history + artifacts);
    }

    // ---- new inputs --------------------------------------------------------------------

    /** `_find_interruption_request`. */
    method FindInterruptionRequest(requestId: nat) returns (agent: Option<string>, k: nat)
      ensures agent == WaitingAgent(session, config.agents, requestId)
      ensures agent.Some? ==> k == FirstWaiting(TasksOf(session, agent.value), requestId)
    {
      var i := 0;
      assert config.agents[0..] == config.agents;
      while i < |config.agents|
        invariant 0 <= i <= |config.agents|
        invariant WaitingAgent(session, config.agents, requestId) == WaitingAgent(session, config.agents[i..], requestId)
      {
        var tasks := TasksOf(session, config.agents[i]);
        assert config.agents[i..][1..] == config.agents[i + 1..];
        k := 0;
        while k < |tasks|
          invariant k <= |tasks| && forall j :: 0 <= j < k ==> !Waits(tasks[j], requestId)
        {
          if tasks[k].state.status.Paused? && tasks[k].request.Some? && tasks[k].request.value.id == requestId {
            return Some(config.agents[i]), k;
          }
          k := k + 1;
        }
        i := i + 1;
      }
      return None, 0;
    }

    method ApplyInterruptionResponse(requestId: nat, data: ResponseData)
      modifies `session, `log
      ensures Current() == ApplyResponse(config, old(Current()), requestId, data)
      ensures session.inputQueue == old(session.inputQueue) && session.frames == old(session.frames)
    {
      var agent, k := FindInterruptionRequest(requestId);
      if agent.None? {
        return;
      }
      var t := TasksOf(session, agent.value)[k];
      if t.request.value.response.Some? {
        return;
      }
      var answered := t.(request := Some(t.request.value.(response := Some(data))));
      answered := answered.(state := answered.state.(status := t.request.value.originStatus));
      session := SetTask(session, agent.value, k, answered);
      log := log + [Answered(requestId, data)];
    }

    method StartNewTask(agent: string, input: Input)
      modifies `session, `log, `next
      ensures Current() == old(Current()).(
                session := old(session).(tasks := old(session.tasks)[agent := TasksOf(old(session), agent) + [NewTask(input, old(next))]]),
                log := old(log) + [Started(input, old(next))], next := old(next) + 1)
    {
      var t := NewTask(input, next);
      next := next + 1;
      session := session.(tasks := session.tasks[agent := TasksOf(session, agent) + [t]]);
      log := log + [Started(input, t.id)];
    }

    /** An unsupported input is an exception: `ok` is false. */
    method ProcessNewInput(agent: string) returns (ok: bool)
      requires InLoop() && queue != [] && agent == TopAgent(session)
      modifies `session, `queue, `log, `next
      ensures InLoop()
      ensures match TakeInput(config, old(Current()))
              case Moved(s) => ok && Current() == s
              case _ => !ok && next == old(next)
    {
      var input := PopInput();
      match input.event {
        case UserInput(_) => StartNewTask(agent, input);
        case InterruptionResponse(requestId, data) => ApplyInterruptionResponse(requestId, data);
        case EnvironmentMessage => return false;
      }
      return true;
    }

    // ---- completed tasks -------------------------------------------------------------------

    method AdvanceCompletedMessageTask(agent: string, k: nat)
      requires k < |TasksOf(session, agent)|
      requires var t := TasksOf(session, agent)[k].state; t.MessageState? && t.message.Some?
      modifies `session, `next
      ensures Current() == EnterToolLoop(config, old(Current()), agent, k)
      ensures session.frames == old(session.frames) && session.inputQueue == old(session.inputQueue)
    {
      var t := TasksOf(session, agent)[k];
      var units, after := BuildToolExecutionUnits(ToolsOf(config, agent), t.state.message.value, next);
      session := SetTask(session, agent, k, t.(state := ToolState(Running, t.state.message.value, units), request := None));
      next := after;
    }

    /** `_change_agent_frame`: `ok` is false if the change does not start at the top. */
    method ChangeAgentFrame(t: Task, change: FrameChange) returns (ok: bool)
      requires InLoop()
      modifies `session, `queue, `log, `next
      ensures ok <==> change.source == TopAgent(old(session))
      ensures ok ==> Current() == ChangeFrame(old(Current()), t, change) && queue == session.inputQueue
      ensures !ok ==> next == old(next)
    {
      if TopAgent(session) != change.source {
        return false;
      }
      var shouldRun := false;
      if change.Push? {
        session := session.(frames := session.frames + [Frame(change.target, Some(TopAgent(session)))]);
        shouldRun := true;
      } else {
        session := session.(frames := session.frames[..|session.frames| - 1]);
        if change.byTool {
          shouldRun := true;
        }
      }
      if shouldRun {
        PushInput(UserInput(""), Some(t.startInput.id));
      }
      return true;
    }

    method PopTask(agent: string, t: Task)
      modifies `session
      ensures session == old(session).(tasks := old(session.tasks)[agent := RemoveTask(TasksOf(old(session), agent), t.id)])
    {
      var tasks := TasksOf(session, agent);
      var kept: seq<Task> := [];
      for k := 0 to |tasks|
        invariant kept == RemoveTask(tasks[..k], t.id)
      {
        assert tasks[..k + 1][..k] == tasks[..k];
        if tasks[k].id != t.id {
          kept := kept + [tasks[k]];
        }
      }
      assert tasks[..|tasks|] == tasks;
      session := session.(tasks := session.tasks[agent := kept]);
    }

    method CloseCompletedTask(agent: string, t: Task) returns (ok: bool)
      requires InLoop()
      modifies `session, `queue, `log, `next
      ensures match CloseTask(old(Current()), agent, t)
              case Moved(s) => ok && Current() == s && queue == session.inputQueue
              case _ => !ok && next == old(next)
    {
      SaveTaskHistory(agent, t);
      var change := FrameChangeOf(session.frames, t.state);
      if change.Some? {
        session := session.(history := session.history + [FrameArtifact(agent, change.value)]);
        ok := ChangeAgentFrame(t, change.value);
        if !ok {
          return;
        }
      }
      PopTask(agent, t);
      return true;
    }

    method AdvanceCompletedTask(agent: string, k: nat) returns (ok: bool)
      requires InLoop() && k < |TasksOf(session, agent)|
      modifies `session, `queue, `log, `next
      ensures match AdvanceCompleted(config, old(Current()), agent, k)
              case Moved(s) => ok && Current() == s && queue == session.inputQueue
              case _ => !ok && next == old(next)
    {
      var t := TasksOf(session, agent)[k];
      if t.state.MessageState? {
        if t.state.message.None? {
          return false;
        }
        if t.state.message.value.calls != [] {
          AdvanceCompletedMessageTask(agent, k);
          return true;
        }
      }
      ok := CloseCompletedTask(agent, t);
    }

    // ---- running tasks ------------------------------------------------------------------------

    /** `generate_assistant_message_with_task`. */
    method GenerateAssistantMessage(agent: string, noToolCall: bool, a: Answer) returns (message: Message)
      ensures message == Generate(config, session, agent, noToolCall, a)
    {
      var available: seq<string> := [];
      if !noToolCall {
        var hasPaused := HasPaused(TasksOf(session, agent));
        available := FilterRuntimeAvailableTools(ToolsOf(config, agent), session.frames, hasPaused);
      }
      message := Message(a.calls, available, a.continueTag);
      if available == [] {
        message := message.(calls := []);
      }
    }

    method AdvanceRunningMessageTask(agent: string, k: nat, a: Answer) returns (ok: bool)
      requires k < |TasksOf(session, agent)| && TasksOf(session, agent)[k].state.MessageState?
      modifies `session
      ensures ok <==> !a.crash.DuringCall?
      ensures ok ==> Current() == AdvanceMessage(config, old(Current()), agent, k, a)
      ensures session.inputQueue == old(session.inputQueue) && session.frames == old(session.frames)
    {
      var t := TasksOf(session, agent)[k];
      if a.crash.DuringCall? {
        return false;
      }
      var message := GenerateAssistantMessage(agent, false, a);
      t := t.(state := MessageState(Completed, Some(message)));
      session := SetTask(session, agent, k, ClearRequest(t));
      return true;
    }

    /** The task after its unit `n` has been given a result: completed once every unit is. */
    method CompleteIfFinished(t: Task, units: seq<Unit>) returns (t': Task)
      requires t.state.ToolState?
      ensures t' == WithUnits(t, units)
    {
      t' := t.(state := t.state.(units := units));
      var all := CheckAllFinished(units);
      if all {
        t' := t'.(state := t'.state.WithStatus(Completed));
      }
    }

    /** The chosen unit is marked running before it is executed. */
    method StartUnit(agent: string, k: nat, n: nat)
      requires k < |TasksOf(session, agent)| && TasksOf(session, agent)[k].state.ToolState?
      requires n < |TasksOf(session, agent)[k].state.units|
      modifies `session
      ensures session == Begun(old(session), agent, k, n)
    {
      var t := TasksOf(session, agent)[k];
      var u := t.state.units[n];
      session := SetTask(session, agent, k, t.(state := t.state.(units := t.state.units[n := u.WithStatus(UnitRunning)])));
    }

    method ExecuteLlmCallUnit(agent: string, k: nat, n: nat, a: Answer)
      requires k < |TasksOf(session, agent)| && TasksOf(session, agent)[k].state.ToolState?
      requires n < |TasksOf(session, agent)[k].state.units| && TasksOf(session, agent)[k].state.units[n].LlmUnit?
      modifies `session, `next
      ensures Current() == AdvanceLlmUnit(config, old(Current()), agent, k, n, a)
      ensures session.inputQueue == old(session.inputQueue) && session.frames == old(session.frames)
    {
      var t := TasksOf(session, agent)[k];
      var u := t.state.units[n];
      var message := GenerateAssistantMessage(agent, u.noToolCall, a);
      var appended: seq<Unit> := [];
      if message.calls != [] {
        appended, next := BuildToolExecutionUnits(ToolsOf(config, agent), message, next);
      }
      u := u.(message := Some(message), status := UnitCompleted);
      var units := t.state.units[n := u] + appended;
      t := CompleteIfFinished(t, units);
      session := SetTask(session, agent, k, ClearRequest(t));
    }

    /** `TaskSwitchAction.PAUSE` with the request that goes with it. */
    method PauseTask(agent: string, k: nat, n: nat)
      requires k < |TasksOf(session, agent)| && TasksOf(session, agent)[k].state.ToolState?
      requires n < |TasksOf(session, agent)[k].state.units| && TasksOf(session, agent)[k].state.units[n].ToolUnit?
      modifies `session, `log, `next
      ensures Current() == PauseForRequest(old(Current()), agent, k, n)
      ensures session.inputQueue == old(session.inputQueue) && session.frames == old(session.frames)
    {
      var t := TasksOf(session, agent)[k];
      var requestId := next;
      next := next + 1;
      t := t.(request := Some(Request(requestId, AsyncToolRequest, t.state.status, None)));
      var u := t.state.units[n].(requestId := Some(requestId), result := Some(ToolResult(Waiting, None)), status := UnitPending);
      log := log + [Raised(requestId, Some(u.id))];
      t := t.(state := t.state.(units := t.state.units[n := u]));
      t := t.(state := t.state.WithStatus(Paused));
      SaveTaskHistory(agent, t);
      session := SetTask(session, agent, k, t);
    }

    method FinishUnit(agent: string, k: nat, n: nat, e: Execution)
      requires queue == session.inputQueue
      requires k < |TasksOf(session, agent)| && TasksOf(session, agent)[k].state.ToolState? && e.Executed?
      requires n < |TasksOf(session, agent)[k].state.units| && TasksOf(session, agent)[k].state.units[n].ToolUnit?
      modifies `session, `queue, `log, `next
      ensures Current() == FinishToolUnit(old(Current()), agent, k, n, e)
      ensures queue == session.inputQueue && session.frames == old(session.frames)
    {
      var t := TasksOf(session, agent)[k];
      var u := t.state.units[n].(result := Some(e.result), status := e.status);
      t := CompleteIfFinished(t, t.state.units[n := u]);
      session := SetTask(session, agent, k, ClearRequest(t));
      if e.event.Some? {
        PushInput(e.event.value, None);
      }
    }

    method AdvanceRunningToolTask(agent: string, k: nat, a: Answer) returns (ok: bool)
      requires InLoop() && k < |TasksOf(session, agent)|
      requires Runnable(TasksOf(session, agent)[k]) && TasksOf(session, agent)[k].state.ToolState?
      modifies `session, `queue, `log, `next, `registered
      ensures a.crash.DuringCall? ==> !ok && next == old(next) && registered == old(registered)
      ensures !a.crash.DuringCall? ==>
                match AdvanceRunning(config, old(Current()), agent, k, a)
                case Moved(s) => ok && Current() == s && queue == session.inputQueue
                case Faulted(r, n) => !ok && registered == r && next == n
                case Idle => false
    {
      hide ExecuteTool, Generate, BuildUnits, RegisteredAfter;
      var t := TasksOf(session, agent)[k];
      var n := PickNextExecutionUnit(t.state.units);
      StartUnit(agent, k, n);
      if a.crash.DuringCall? {
        return false;
      }
      ghost var before := old(Current());
      if t.state.units[n].LlmUnit? {
        BegunLlm(config, before, agent, k, n, a);
        ExecuteLlmCallUnit(agent, k, n, a);
        return true;
      }
      OwnStatusDoesNotMatter(EnvOf(config, old(Current()), agent), t.state.units, n, UnitRunning, t.request, a);
      var e;
      e, registered := ExecuteToolCallUnit(Env(config, agent, session.frames, registered), TasksOf(session, agent)[k].state.units, n, t.request, a);
      if e.Broken? {
        return false;
      }
      ghost var fetched := before.(registered := registered);
      if e.Requested? {
        BegunPause(fetched, agent, k, n);
        PauseTask(agent, k, n);
      } else {
        BegunFinish(fetched, agent, k, n, e);
        FinishUnit(agent, k, n, e);
      }
      return true;
    }

    method AdvanceRunningTask(agent: string, k: nat, a: Answer) returns (ok: bool)
      requires InLoop() && k < |TasksOf(session, agent)| && Runnable(TasksOf(session, agent)[k])
      modifies `session, `queue, `log, `next, `registered
      ensures a.crash.DuringCall? ==> !ok && next == old(next) && registered == old(registered)
      ensures !a.crash.DuringCall? ==>
                match AdvanceRunning(config, old(Current()), agent, k, a)
                case Moved(s) => ok && Current() == s && queue == session.inputQueue
                case Faulted(r, n) => !ok && registered == r && next == n
                case Idle => false
    {
      if TasksOf(session, agent)[k].state.MessageState? {
        ok := AdvanceRunningMessageTask(agent, k, a);
      } else {
        ok := AdvanceRunningToolTask(agent, k, a);
      }
    }

    // ---- the main loop ----------------------------------------------------------------------

    /** The work of one iteration, before its checkpoint: `idle` if there is none. */
    method DoWork(a: Answer) returns (ok: bool, idle: bool)
      requires queue == session.inputQueue
      modifies `session, `queue, `log, `next, `registered
      ensures var work := Work(config, old(Current()), a);
              if work.Idle? then ok && idle && Current() == old(Current()) && queue == old(queue)
              else if a.crash.DuringCall? then !ok && registered == old(registered) && next == old(next)
              else if work.Moved? then ok && !idle && Current() == work.state && queue == session.inputQueue
              else !ok && registered == work.registered && next == work.next
    {
      hide AdvanceCompleted, AdvanceRunning, TakeInput;
      idle := false;
      if session.frames == [] {
        return false, false;
      }
      var agent := TopAgent(session);
      var k := PickCompletedTask(TasksOf(session, agent));
      if k < |TasksOf(session, agent)| {
        if a.crash.DuringCall? {
          return false, false;
        }
        ok := AdvanceCompletedTask(agent, k);
        return;
      }
      k := PickAvailableRunningTask(TasksOf(session, agent));
      if k < |TasksOf(session, agent)| {
        ok := AdvanceRunningTask(agent, k, a);
        return;
      }
      if queue == [] {
        return true, true;
      }
      if a.crash.DuringCall? {
        return false, false;
      }
      ok := ProcessNewInput(agent);
    }

    /** One iteration: work, then exactly one checkpoint. Between iterations the two
        queues agree and the session is its last checkpoint. */
    method RunIteration(a: Answer) returns (ok: bool, idle: bool)
      requires queue == session.inputQueue && Last() == CheckpointOf(Current())
      modifies `session, `queue, `last, `log, `lastLog, `next, `registered
      ensures match Iterate(config, old(Current()), a)
              case Idle => ok && idle && Current() == old(Current()) && Last() == old(Last()) && queue == old(queue)
              case Moved(s) => ok && !idle && Current() == s && Last() == CheckpointOf(s) && queue == session.inputQueue
              case Faulted(r, n) => !ok && registered == r && next == n && Last() == old(Last())
    {
      hide Work;
      ok, idle := DoWork(a);
      if !ok || idle {
        return;
      }
      if a.crash.BeforeCheckpoint? {
        return false, false;
      }
      CommitCheckpoint();
    }

    /** `_pause_task_after_exception`; without a task to pause the exception goes on
        to the caller and only the rollback stays. */
    method PauseTaskAfterException()
      modifies `session, `last, `log, `lastLog, `next
      ensures Current() == PauseAfterException(Restored(old(Last()), registered, old(next)))
      ensures Last() == CheckpointOf(Current())
    {
      session := last;
      log := lastLog;
      if session.frames == [] {
        return;
      }
      var agent := TopAgent(session);
      var tasks := TasksOf(session, agent);
      var k := 0;
      while k < |tasks| && tasks[k].state.status.Paused?
        invariant 0 <= k <= |tasks| && forall j :: 0 <= j < k ==> tasks[j].state.status.Paused?
      {
        k := k + 1;
      }
      if k == |tasks| {
        return;
      }
      var t := tasks[k].(request := Some(Request(next, ExceptionResume, tasks[k].state.status, None)));
      log := log + [Raised(next, None)];
      next := next + 1;
      t := t.(state := t.state.WithStatus(Paused));
      SaveTaskHistory(agent, t);
      session := SetTask(session, agent, k, t);
      CommitCheckpoint();
    }

    /** `run`, as far as the answers carry it. */
    method RunWith(event: Option<Event>, answers: seq<Answer>) returns (end: LoopEnd)
      modifies this
      ensures LoopResult(Current(), Last(), end) == Run(config, old(Current()), event, answers)
      ensures !end.Excepted? ==> queue == session.inputQueue
    {
      hide Iterate, PauseAfterException;
      RestoreRuntimeInputQueue();
      if event.Some? {
        PushInput(event.value, None);
      }
      CommitCheckpoint();
      ghost var start := Current();
      var n := 0;
      end := Unfinished;
      assert answers[0..] == answers;
      while n < |answers| && end.Unfinished?
        invariant 0 <= n <= |answers|
        invariant Last() == RunLoop(config, start, answers).checkpoint || end.Unfinished?
        invariant end.Unfinished? ==> queue == session.inputQueue && Last() == CheckpointOf(Current())
                                      && RunLoop(config, start, answers) == RunLoop(config, Current(), answers[n..])
        invariant end.Drained? ==> queue == session.inputQueue && RunLoop(config, start, answers) == LoopResult(Current(), Last(), Drained)
        invariant end.Excepted? ==> var r := RunLoop(config, start, answers);
                                    r.end.Excepted? && Last() == r.checkpoint && registered == r.state.registered && next == r.state.next
        decreases |answers| - n, end.Unfinished?
      {
        assert answers[n..][0] == answers[n] && answers[n..][1..] == answers[n + 1..];
        var ok, idle := RunIteration(answers[n]);
        if !ok {
          end := Excepted;
        } else if idle {
          end := Drained;
        }
        n := n + 1;
      }
      if end.Excepted? {
        PauseTaskAfterException();
      }
    }

    /** `finish`: clears the run and saves it; the rollback point is not moved. */
    method Finish()
      requires session.frames != []
      modifies `session, `log
      ensures Current() == FinishRun(old(Current()))
    {
      log := log + Discards(session.inputQueue) + Abandons(TasksOf(session, TopAgent(session)));
      var top := TopAgent(session);
      session := session.(inputQueue := []);
      var tasks := TasksOf(session, top);
      var kept: seq<Task> := [];
      for k := 0 to |tasks|
        invariant kept == PausedOnly(tasks[..k])
      {
        assert tasks[..k + 1][..k] == tasks[..k];
        if tasks[k].state.status.Paused? {
          kept := kept + [tasks[k]];
        }
      }
      assert tasks[..|tasks|] == tasks;
      session := session.(tasks := session.tasks[top := kept]);
    }
  }
}
