/** The promises of the run loop, each for every history. */
module KernelResults {
  import opened Common
  import opened KernelModels
  import opened ToolUnits
  import opened ToolExecution
  import opened KernelSteps
  import opened KernelInvariant
  import opened KernelPreserved
  import opened KernelHistory
  import opened KernelHistoryKept
  import opened KernelLoading
  import opened KernelTheorems
  import opened ToolRounds

  /** Where the loop of one more run stands after some history. */
  function LoopAt(config: Config, actions: seq<Action>, event: Option<Event>, answers: seq<Answer>): LoopResult {
    var s := ApplyAll(config, NewWorld(config), actions).state;
    RunLoop(config, if event.Some? then Enqueue(s, event.value, None) else s, answers)
  }

  lemma {:induction false} LoopHead(config: Config, actions: seq<Action>, event: Option<Event>, answers: seq<Answer>)
    requires ConfigOk(config)
    ensures var r := LoopAt(config, actions, event, answers);
            !r.end.Excepted? ==> Sound(config, r.state) && r.checkpoint == CheckpointOf(r.state)
  {
    hide ConfigOk, Sound, Apply;
    AlwaysSafe(config, actions);
    var s := ApplyAll(config, NewWorld(config), actions).state;
    if event.Some? {
      EnqueueSound(config, s, event.value);
    }
    LoopOk(config, if event.Some? then Enqueue(s, event.value, None) else s, answers);
  }

  // ---- units ----------------------------------------------------------------------------

  /** At every loop head, which is every checkpoint, a tool loop is a finished prefix
      followed by units not begun; if it runs, there is a next one. */
  lemma {:induction false} UnitsAtLoopHead(config: Config, actions: seq<Action>, event: Option<Event>, answers: seq<Answer>, agent: string, t: Task)
    requires ConfigOk(config)
    requires var r := LoopAt(config, actions, event, answers);
             !r.end.Excepted? && t in TasksOf(r.checkpoint.session, agent) && t.state.ToolState?
    ensures var n := NextUnit(t.state.units);
            && (forall k :: 0 <= k < n ==> t.state.units[k].IsFinished())
            && (forall k :: n <= k < |t.state.units| ==> t.state.units[k].status.UnitPending?)
            && (t.state.status.Running? ==> n < |t.state.units|)
            && (t.state.status.Completed? ==> n == |t.state.units|)
  {
    hide Gated, UnitOk, LoopAt, ConfigOk;
    LoopHead(config, actions, event, answers);
    var s := LoopAt(config, actions, event, answers).state;
    assert TaskOk(config, agent, s.log, s.next, t);
  }

  /** The messages any tool task expands to keep the tool-call protocol: each tool message
      answers the next call of the nearest assistant message, and the model goes on only
      when all its calls have been answered. */
  lemma {:induction false} RoundsKeepProtocol(config: Config, actions: seq<Action>, event: Option<Event>, answers: seq<Answer>, agent: string, t: Task)
    requires ConfigOk(config)
    requires var r := LoopAt(config, actions, event, answers);
             !r.end.Excepted? && t in TasksOf(r.state.session, agent) && t.state.ToolState?
    ensures Protocol(Messages([ToolCallArtifact(agent, t.state.callMessage)] + LoopArtifacts(agent, t.state.units)), [], 0)
  {
    hide ConfigOk, LoopAt, Gated, InRounds, Protocol, Messages, LoopArtifacts, ToolIdOk, HandoffOk, MessageOk, NextUnit;
    LoopHead(config, actions, event, answers);
    var s := LoopAt(config, actions, event, answers).state;
    assert TaskOk(config, agent, s.log, s.next, t);
    forall u | u in t.state.units ensures UnitOk(config, agent, s.log, u) {
    }
    LoopKeepsProtocol(agent, t.state.callMessage.calls, 0, t.state.units);
    MessagesHead(ToolCallArtifact(agent, t.state.callMessage), LoopArtifacts(agent, t.state.units));
    ProtocolHead(AssistantMessage(CallIds(t.state.callMessage.calls)), Messages(LoopArtifacts(agent, t.state.units)), [], 0);
  }

  /** A closed round, as it stands in the history with the change of control behind it,
      leaves calls unanswered exactly if the call that gave control away was not the last of
      its message, and then the assistant message behind it breaks the protocol. */
  lemma {:induction false} ClosedRoundEnds(config: Config, actions: seq<Action>, event: Option<Event>, answers: seq<Answer>, agent: string, t: Task,
                                           change: FrameChange)
    requires ConfigOk(config)
    requires var r := LoopAt(config, actions, event, answers);
             !r.end.Excepted? && t in TasksOf(r.state.session, agent) && t.state.ToolState? && t.state.status.Completed?
    ensures t.state.units != []
    ensures var last, turn := t.state.units[|t.state.units| - 1], LastTurn(t.state.callMessage.calls, 0, t.state.units);
            && (turn.1 < |turn.0| ==> LeavesAgent(last) && turn.1 > 0 && turn.0[turn.1 - 1].id == last.call.id)
            && (Protocol(Messages(LoopArtifacts(agent, t.state.units) + [FrameArtifact(agent, change)]),
                         CallIds(t.state.callMessage.calls), 0) <==>
                (change.Pop? && !change.byTool) || turn.1 == |turn.0|)
  {
    hide ConfigOk, LoopAt, Gated, InRounds, Protocol, Messages, LoopArtifacts, ToolIdOk, HandoffOk, MessageOk, LastTurn, LeavesAgent, Standing;
    LoopHead(config, actions, event, answers);
    var s := LoopAt(config, actions, event, answers).state;
    assert TaskOk(config, agent, s.log, s.next, t);
    var units := t.state.units;
    forall u | u in units ensures UnitOk(config, agent, s.log, u) && u.IsFinished() {
      var k :| 0 <= k < |units| && units[k] == u;
      assert k < NextUnit(units);
    }
    FinishedLoopEnds(agent, t.state.callMessage.calls, 0, units);
    ClosedRoundProtocol(agent, t.state.callMessage.calls, units, change);
  }

  // ---- the end of a run --------------------------------------------------------------------

  lemma {:induction false} IdleState(config: Config, s: State, a: Answer)
    requires LocalOk(config, s) && Iterate(config, s, a).Idle?
    ensures s.session.inputQueue == [] && forall t :: t in TasksOf(s.session, TopAgent(s.session)) ==> t.state.status.Paused?
  {
    hide AdvanceCompleted, AdvanceRunning, TakeInput, UnitsOk, FramesOk;
    var tasks := TasksOf(s.session, TopAgent(s.session));
    forall t | t in tasks ensures t.state.status.Paused? {
      var k :| 0 <= k < |tasks| && tasks[k] == t;
      assert TaskOk(config, TopAgent(s.session), s.log, s.next, t);
      assert FirstCompleted(tasks) == |tasks| && FirstRunnable(tasks) == |tasks|;
      assert !Runnable(tasks[k]) && !tasks[k].state.status.Completed?;
    }
  }

  lemma {:induction false} DrainedState(config: Config, s: State, answers: seq<Answer>)
    requires ConfigOk(config) && Sound(config, s) && RunLoop(config, s, answers).end.Drained?
    ensures var e := RunLoop(config, s, answers).state.session;
            e.frames != [] && e.inputQueue == [] && forall t :: t in TasksOf(e, TopAgent(e)) ==> t.state.status.Paused?
    decreases |answers|
  {
    hide ConfigOk, LocalOk, GlobalOk, Iterate;
    IterateOk(config, s, answers[0]);
    match Iterate(config, s, answers[0]) {
      case Idle =>
        IdleState(config, s, answers[0]);
        LocalFrames(config, s);
      case Moved(s') => DrainedState(config, s', answers[1..]);
      case Faulted(_, _) =>
    }
  }

  lemma {:induction false} PausedOnlyAll(tasks: seq<Task>)
    ensures PausedOnly(tasks) == tasks && Abandons(tasks) == [] <==> forall t :: t in tasks ==> t.state.status.Paused?
  {
    if tasks != [] {
      var front, last := tasks[..|tasks| - 1], tasks[|tasks| - 1];
      PausedOnlyAll(front);
      assert tasks == front + [last];
      assert (forall t :: t in tasks ==> t.state.status.Paused?) <==> (forall t :: t in front ==> t.state.status.Paused?) && last.state.status.Paused?;
      if !last.state.status.Paused? {
        assert Abandons(tasks) == Abandons(front) + [Abandoned(last.startInput)];
      }
    }
  }

  /** The clean-up after a run drops something exactly if an input is still queued or
      a task of the top agent is still active. */
  lemma {:induction false} FinishDropsNothing(s: State)
    requires s.session.frames != []
    ensures FinishRun(s).log == s.log <==>
            s.session.inputQueue == [] && forall t :: t in TasksOf(s.session, TopAgent(s.session)) ==> t.state.status.Paused?
  {
    var tasks := TasksOf(s.session, TopAgent(s.session));
    PausedOnlyAll(tasks);
    AbandonsNone(tasks);
    var d := Discards(s.session.inputQueue);
    assert d == [] <==> s.session.inputQueue == [];
    if FinishRun(s).log == s.log {
      assert |s.log + d + Abandons(tasks)| == |s.log| + |d| + |Abandons(tasks)|;
    }
  }

  lemma {:induction false} AbandonsNone(tasks: seq<Task>)
    ensures Abandons(tasks) == [] <==> forall t :: t in tasks ==> t.state.status.Paused?
  {
    if tasks != [] {
      AbandonsNone(tasks[..|tasks| - 1]);
      assert tasks == tasks[..|tasks| - 1] + [tasks[|tasks| - 1]];
    }
  }

  /** When a run returns normally the queue is empty, every task of the top agent waits
      for an answer, and the clean-up that follows has nothing to drop. */
  lemma {:induction false} NormalReturn(config: Config, actions: seq<Action>, event: Option<Event>, answers: seq<Answer>)
    requires ConfigOk(config) && LoopAt(config, actions, event, answers).end.Drained?
    ensures var s := LoopAt(config, actions, event, answers).state;
            && s.session.frames != [] && s.session.inputQueue == []
            && (forall t :: t in TasksOf(s.session, TopAgent(s.session)) ==> t.state.status.Paused?)
            && FinishRun(s).log == s.log
  {
    hide ConfigOk, Sound, Apply, RunLoop, FinishRun;
    AlwaysSafe(config, actions);
    var s := ApplyAll(config, NewWorld(config), actions).state;
    if event.Some? {
      EnqueueSound(config, s, event.value);
    }
    DrainedState(config, if event.Some? then Enqueue(s, event.value, None) else s, answers);
    FinishDropsNothing(LoopAt(config, actions, event, answers).state);
  }

  // ---- reloading --------------------------------------------------------------------------

  /** After every history a reload keeps the frames, the queue, the history and every
      active task. A paused task is dropped exactly if five later ones of its agent are
      paused too, and then its input stands in the history. */
  lemma {:induction false} ReloadKeeps(config: Config, actions: seq<Action>, agent: string, k: nat)
    requires ConfigOk(config)
    requires k < |TasksOf(ApplyAll(config, NewWorld(config), actions).state.session, agent)|
    ensures var w := ApplyAll(config, NewWorld(config), actions);
            var s, s' := w.state.session, Apply(config, w, Reload(true)).state.session;
            var tasks := TasksOf(s, agent);
            && s'.frames == s.frames && s'.inputQueue == s.inputQueue && s'.history == s.history
            && (tasks[k] in TasksOf(s', agent) <==> !tasks[k].state.status.Paused? || |Filter(IsPaused, tasks[k + 1..])| < 5)
            && (tasks[k] in TasksOf(s', agent) || InputArtifact(agent, tasks[k].startInput) in s'.history)
  {
    hide ConfigOk, LocalOk, ApplyAll, UniqueWaiting, WaitingUnanswered, OnceEach, IdsKnown, DistinctIds, InOrder, AllAccounted;
    AlwaysSafe(config, actions);
    var s := ApplyAll(config, NewWorld(config), actions).state;
    var tasks := TasksOf(s.session, agent);
    SanitizingIsIdle(config, s);
    assert DistinctIds(tasks);
    TrimmedAre(tasks);
    assert tasks[k] in tasks;
  }

  // ---- frames ---------------------------------------------------------------------------------

  /** After every history the stack has the root at the bottom and nowhere else, and
      every other frame was entered from the agent beneath it. */
  lemma {:induction false} FrameStack(config: Config, actions: seq<Action>)
    requires ConfigOk(config)
    ensures var frames := ApplyAll(config, NewWorld(config), actions).state.session.frames;
            && frames != [] && frames[0] == Frame(config.root, None)
            && forall k :: 1 <= k < |frames| ==> frames[k].agent != config.root && frames[k].from == Some(frames[k - 1].agent)
  {
    hide ConfigOk, GlobalOk, TasksOk, ApplyAll;
    AlwaysSafe(config, actions);
  }

  // ---- requests and responses --------------------------------------------------------------------

  /** A task is paused only while a request of its own waits unanswered, no other task
      waits for the same request, and no request is ever answered twice. */
  lemma {:induction false} OneAnswerPerRequest(config: Config, actions: seq<Action>)
    requires ConfigOk(config)
    ensures var s := ApplyAll(config, NewWorld(config), actions).state;
            && UniqueWaiting(s.session) && WaitingUnanswered(s) && OnceEach(s.log)
            && forall agent, t {:trigger t in TasksOf(s.session, agent)} :: t in TasksOf(s.session, agent) && t.state.status.Paused? ==>
                 t.request.Some? && t.request.value.response.None?
  {
    hide ConfigOk, ApplyAll, StateOk, UniqueWaiting, WaitingUnanswered, OnceEach, DistinctTasks;
    AlwaysSafe(config, actions);
    var s := ApplyAll(config, NewWorld(config), actions).state;
    forall agent, t | t in TasksOf(s.session, agent) && t.state.status.Paused? ensures t.request.Some? && t.request.value.response.None? {
      assert TaskOk(config, agent, s.log, s.next, t);
    }
  }

  /** A second response to a request changes nothing: no task waits for it any more,
      so the check for a request that already has its answer never fires. */
  lemma {:induction false} LateResponseIgnored(config: Config, s: State, requestId: nat, data: ResponseData, earlier: ResponseData)
    requires Sound(config, s) && Answered(requestId, earlier) in s.log
    ensures WaitingAgent(s.session, config.agents, requestId).None?
    ensures forall agent, t {:trigger t in TasksOf(s.session, agent)} :: t in TasksOf(s.session, agent) ==> !Waits(t, requestId)
    ensures ApplyResponse(config, s, requestId, data) == s
  {
    hide LocalOk, UniqueWaiting, OnceEach, DistinctTasks, IdsKnown;
    forall agent | agent in config.agents ensures FirstWaiting(TasksOf(s.session, agent), requestId) == |TasksOf(s.session, agent)| {
      NoneWaits(s, agent, requestId, earlier);
    }
    forall agent, t | t in TasksOf(s.session, agent) ensures !Waits(t, requestId) {
      assert !WaitsFor(t, requestId);
    }
  }

  lemma {:induction false} NoneWaits(s: State, agent: string, requestId: nat, data: ResponseData)
    requires WaitingUnanswered(s) && Answered(requestId, data) in s.log
    ensures FirstWaiting(TasksOf(s.session, agent), requestId) == |TasksOf(s.session, agent)|
  {
    var tasks := TasksOf(s.session, agent);
    forall k | 0 <= k < |tasks| ensures !Waits(tasks[k], requestId) {
      assert tasks[k] in tasks;
      assert !WaitsFor(tasks[k], requestId);
    }
  }

  /** A first response is accepted: its task alone changes, back to the status it was
      paused in, and the answer is on record. */
  lemma {:induction false} FirstResponseAccepted(config: Config, s: State, agent: string, k: nat, data: ResponseData)
    requires Sound(config, s) && agent in config.agents && k < |TasksOf(s.session, agent)|
    requires TasksOf(s.session, agent)[k].state.status.Paused?
    ensures TasksOf(s.session, agent)[k].request.Some?
    ensures var t := TasksOf(s.session, agent)[k];
            var s' := ApplyResponse(config, s, t.request.value.id, data);
            && s'.session == SetTask(s.session, agent, k, Answering(t, data))
            && Answering(t, data).state.status == t.request.value.originStatus != Paused
            && s'.log == s.log + [Answered(t.request.value.id, data)]
  {
    hide StateOk, FramesOk, OnceEach, RegisteredOk;
    var t := TasksOf(s.session, agent)[k];
    TheTask(config, s, agent, k);
    WaitingFound(s, config.agents, agent, k, t.request.value.id);
  }

  /** The search meets no other waiting task. */
  lemma {:induction false} WaitingFound(s: State, agents: seq<string>, agent: string, k: nat, requestId: nat)
    requires DistinctTasks(s.session) && UniqueWaiting(s.session)
    requires agent in agents && k < |TasksOf(s.session, agent)| && WaitsFor(TasksOf(s.session, agent)[k], requestId)
    ensures WaitingAgent(s.session, agents, requestId) == Some(agent)
    ensures FirstWaiting(TasksOf(s.session, agent), requestId) == k
  {
    var tasks := TasksOf(s.session, agent);
    assert tasks[k] in tasks && Waits(tasks[k], requestId);
    var found := WaitingAgent(s.session, agents, requestId);
    var j := FirstWaiting(tasks, requestId);
    assert j <= k;
    assert WaitsFor(tasks[j], requestId) && tasks[j] in tasks;
    assert DistinctIds(tasks);
    var other := TasksOf(s.session, found.value);
    var i := FirstWaiting(other, requestId);
    assert WaitsFor(other[i], requestId) && other[i] in other;
  }

  /** Pausing and answering are inverse: the task is as before the exception, apart from
      the answered request. */
  lemma {:induction false} PauseThenAnswer(s: State, data: ResponseData)
    requires CanPause(s)
    ensures var agent := TopAgent(s.session);
            var k := FirstActive(TasksOf(s.session, agent));
            var paused := TasksOf(PauseAfterException(s).session, agent)[k];
            Answering(paused, data).(request := None) == TasksOf(s.session, agent)[k].(request := None)
  {
    hide TaskArtifacts;
  }

  /** Nothing but its own response moves a paused task. */
  lemma {:induction false} PausedTaskWaits(config: Config, s: State, a: Answer, agent: string, t: Task)
    requires Sound(config, s) && t in TasksOf(s.session, agent) && t.state.status.Paused? && Iterate(config, s, a).Moved?
    ensures var s' := Iterate(config, s, a).state;
            t in TasksOf(s'.session, agent) || exists d :: s'.log == s.log + [Answered(t.request.value.id, d)]
  {
    hide InOrder, AllAccounted, DistinctTasks, UniqueWaiting, WaitingUnanswered, OnceEach, IdsKnown, TasksOk, Runnable, RegisteredOk, QueueOk;
    LocalFrames(config, s);
    var k :| 0 <= k < |TasksOf(s.session, agent)| && TasksOf(s.session, agent)[k] == t;
    var top := TopAgent(s.session);
    var tasks := TasksOf(s.session, top);
    var c, r := FirstCompleted(tasks), FirstRunnable(tasks);
    if c < |tasks| {
      ClosedLeavesPaused(config, s, top, c, agent, t);
    } else if r < |tasks| {
      RunningLeavesPaused(config, s, top, r, a, agent, t);
    } else {
      TakenLeavesPaused(config, s, agent, t);
    }
  }

  lemma {:induction false} SetLeaves(s: Session, s': Session, top: string, c: nat, u: Task, agent: string, t: Task)
    requires c < |TasksOf(s, top)| && s'.tasks == SetTask(s, top, c, u).tasks
    requires t in TasksOf(s, agent) && (agent != top || TasksOf(s, top)[c] != t)
    ensures t in TasksOf(s', agent)
  {
    var k :| 0 <= k < |TasksOf(s, agent)| && TasksOf(s, agent)[k] == t;
    assert TasksOf(s', agent)[k] == t;
  }

  lemma {:induction false} ClosedLeavesPaused(config: Config, s: State, top: string, c: nat, agent: string, t: Task)
    requires s.session.frames != [] && c < |TasksOf(s.session, top)| && TasksOf(s.session, top)[c].state.status.Completed?
    requires DistinctTasks(s.session)
    requires t in TasksOf(s.session, agent) && t.state.status.Paused? && AdvanceCompleted(config, s, top, c).Moved?
    ensures t in TasksOf(AdvanceCompleted(config, s, top, c).state.session, agent)
  {
    hide FrameChangeOf, TaskArtifacts, RemoveTask, BuildUnits, FramesAfter;
    var u := TasksOf(s.session, top)[c];
    var s' := AdvanceCompleted(config, s, top, c).state;
    if u.state.MessageState? && u.state.message.value.calls != [] {
      SetLeaves(s.session, s'.session, top, c, TasksOf(s'.session, top)[c], agent, t);
    } else {
      RemovedAreOld(TasksOf(s.session, top), u.id);
      if agent == top && t.id == u.id {
        SameId(s.session, top, t, u);
      }
    }
  }

  lemma {:induction false} RunningLeavesPaused(config: Config, s: State, top: string, c: nat, a: Answer, agent: string, t: Task)
    requires c < |TasksOf(s.session, top)| && Runnable(TasksOf(s.session, top)[c])
    requires t in TasksOf(s.session, agent) && t.state.status.Paused? && AdvanceRunning(config, s, top, c, a).Moved?
    ensures t in TasksOf(AdvanceRunning(config, s, top, c, a).state.session, agent)
  {
    hide ExecuteTool, TaskArtifacts, BuildUnits, Generate, NextUnit, RegisteredAfter;
    var s' := AdvanceRunning(config, s, top, c, a).state;
    SetLeaves(s.session, s'.session, top, c, TasksOf(s'.session, top)[c], agent, t);
  }

  lemma {:induction false} TakenLeavesPaused(config: Config, s: State, agent: string, t: Task)
    requires s.session.frames != [] && s.session.inputQueue != [] && TakeInput(config, s).Moved?
    requires t in TasksOf(s.session, agent) && t.state.status.Paused?
    ensures var s' := TakeInput(config, s).state;
            t in TasksOf(s'.session, agent) || exists d :: s'.log == s.log + [Answered(t.request.value.id, d)]
  {
    var s' := TakeInput(config, s).state;
    var popped := Popped(s);
    if s.session.inputQueue[0].event.InterruptionResponse? {
      var requestId, data := s.session.inputQueue[0].event.requestId, s.session.inputQueue[0].event.data;
      var found := WaitingAgent(popped.session, config.agents, requestId);
      if s' != popped {
        var j := FirstWaiting(TasksOf(popped.session, found.value), requestId);
        var u := TasksOf(popped.session, found.value)[j];
        if found.value != agent || u != t {
          SetLeaves(popped.session, s'.session, found.value, j, Answering(u, data), agent, t);
        } else {
          assert s'.log == s.log + [Answered(t.request.value.id, data)];
        }
      }
    }
  }
}
