/** What one iteration of the loop leaves of a session, on the tasks and their units alone. */
module KernelMoves {
  import opened Common
  import opened KernelModels
  import opened ToolUnits
  import opened ToolExecution
  import opened KernelSteps
  import opened KernelInvariant
  import opened KernelPreserved
  import opened KernelHistoryKept
  import KernelHistory
  import KernelLoading
  import opened KernelTheorems
  import opened KernelResults

  /** Task `c` of the agent in control is its first completed one. */
  ghost predicate ToClose(s: Session, c: nat, t: Task) {
    && s.frames != [] && c < |TasksOf(s, TopAgent(s))| && TasksOf(s, TopAgent(s))[c] == t && t.state.status.Completed?
    && forall j :: 0 <= j < c ==> !TasksOf(s, TopAgent(s))[j].state.status.Completed?
  }

  lemma {:induction false} FirstIs(s: Session, c: nat, t: Task)
    requires ToClose(s, c, t)
    ensures FirstCompleted(TasksOf(s, TopAgent(s))) == c
  {
  }

  /** How a tool loop ended: the last result that moves control, if its last unit has one. */
  predicate EndsInMove(units: seq<Unit>, change: FrameChange) {
    && units != [] && units[|units| - 1].ToolUnit?
    && units[|units| - 1].result.Some? && units[|units| - 1].result.value.handoff == Some(change)
  }

  /** The model's last words of a task. */
  predicate EndsInWords(t: TaskState, m: Message) {
    if t.MessageState? then t.message == Some(m)
    else t.units != [] && t.units[|t.units| - 1].LlmUnit? && t.units[|t.units| - 1].message == Some(m)
  }

  /** The frames after the task is closed. */
  ghost predicate ClosedFrames(frames: seq<Frame>, t: TaskState, after: seq<Frame>)
    requires frames != []
  {
    var top := frames[|frames| - 1].agent;
    && (forall y :: t.ToolState? && EndsInMove(t.units, Push(top, y)) ==> after == frames + [Frame(y, Some(top))])
    && (forall y, byTool :: t.ToolState? && EndsInMove(t.units, Pop(top, y, byTool)) ==> after == frames[..|frames| - 1])
    && (forall m :: EndsInWords(t, m) ==> after == if |frames| > 1 && !m.continueTag then frames[..|frames| - 1] else frames)
    && (!(t.ToolState? && exists change :: EndsInMove(t.units, change)) && !(exists m :: EndsInWords(t, m)) ==> after == frames)
  }

  /** A handoff, and a return by tool, wake the agent that comes into control; words do not. */
  ghost predicate Wakes(t: TaskState) {
    t.ToolState? && exists change :: EndsInMove(t.units, change) && (change.Push? || change.byTool)
  }

  lemma {:induction false} MoveIs(frames: seq<Frame>, t: TaskState)
    requires frames != []
    ensures var change := FrameChangeOf(frames, t);
            && (forall c :: t.ToolState? && EndsInMove(t.units, c) ==> change == Some(c))
            && (forall m :: EndsInWords(t, m) ==>
                  change == if |frames| > 1 && !m.continueTag then Some(Pop(frames[|frames| - 1].agent, frames[|frames| - 2].agent, false)) else None)
            && (!(t.ToolState? && exists c :: EndsInMove(t.units, c)) && !(exists m :: EndsInWords(t, m)) ==> change.None?)
  {
    if t.ToolState? && t.units != [] {
      var u := t.units[|t.units| - 1];
      if u.ToolUnit? && u.result.Some? && u.result.value.handoff.Some? {
        assert EndsInMove(t.units, u.result.value.handoff.value);
      }
      if u.LlmUnit? && u.message.Some? {
        assert EndsInWords(t, u.message.value);
      }
    }
    if t.MessageState? && t.message.Some? {
      assert EndsInWords(t, t.message.value);
    }
  }

  /** What is recorded of the change of control: the one the result asked for, the one that
      gives control back, or nothing. */
  ghost predicate ClosedTail(frames: seq<Frame>, t: TaskState, tail: seq<Artifact>)
    requires frames != []
  {
    var n, top := |frames|, frames[|frames| - 1].agent;
    && (forall c :: t.ToolState? && EndsInMove(t.units, c) ==> tail == [FrameArtifact(top, c)])
    && (forall m :: EndsInWords(t, m) ==>
          tail == if n > 1 && !m.continueTag then [FrameArtifact(top, Pop(top, frames[n - 2].agent, false))] else [])
    && (!(t.ToolState? && exists c :: EndsInMove(t.units, c)) && !(exists m :: EndsInWords(t, m)) ==> tail == [])
  }

  lemma {:induction false} RemoveIsFilter(tasks: seq<Task>, id: nat)
    ensures RemoveTask(tasks, id) == Filter((x: Task) => x.id != id, tasks)
  {
    if tasks != [] {
      RemoveIsFilter(tasks[..|tasks| - 1], id);
    }
  }

  /** Closing a task, on the units: control goes where the last result sends it; the model's
      last words give it back exactly if there is an agent beneath and no continue tag; any
      other end leaves it. The task alone is gone, and its artifacts are recorded. */
  lemma {:induction false} Closing(config: Config, s: State, a: Answer, c: nat, t: Task) returns (tail: seq<Artifact>)
    requires LocalOk(config, s) && ToClose(s.session, c, t) && a.crash.NoCrash?
    requires t.state.MessageState? ==> t.state.message.Some? && t.state.message.value.calls == []
    ensures var r, top := Iterate(config, s, a), TopAgent(s.session);
            && r.Moved? && ClosedFrames(s.session.frames, t.state, r.state.session.frames)
            && ClosedTail(s.session.frames, t.state, tail) && r.state.session.history == s.session.history + TaskArtifacts(top, t) + tail
            && r.state.session.inputQueue == s.session.inputQueue
                 + (if Wakes(t.state) then [Input(s.next, Some(t.startInput.id), UserInput(""))] else [])
            && TasksOf(r.state.session, top) == Filter((x: Task) => x.id != t.id, TasksOf(s.session, top))
            && (forall b :: b != top ==> TasksOf(r.state.session, b) == TasksOf(s.session, b))
  {
    hide FirstCompleted, TaskArtifacts, RemoveTask, Filter, FramesOk, TasksOk, QueueOk, RegisteredOk, HistoryOk, AdvanceRunning, TakeInput, EnterToolLoop;
    FirstIs(s.session, c, t);
    var top := TopAgent(s.session);
    RemoveIsFilter(TasksOf(s.session, top), t.id);
    ChangeOk(config, s, top, c);
    var change := FrameChangeOf(s.session.frames, t.state);
    MoveIs(s.session.frames, t.state);
    tail := if change.Some? then [FrameArtifact(top, change.value)] else [];
    assert s.session.history + TaskArtifacts(top, t) + [] == s.session.history + TaskArtifacts(top, t);
  }

  // ---- what a closed or paused task leaves in the history --------------------------------------

  /** A finished unit that is recorded: a turn of the model, or a call of its own. */
  predicate Recorded(u: Unit) {
    u.IsFinished() && (u.LlmUnit? || u.fromLlm)
  }

  predicate RecordOf(owner: string, u: Unit, a: Artifact) {
    a == if u.LlmUnit? then ToolLlmArtifact(owner, u) else ToolExeArtifact(owner, u)
  }

  /** A tool loop is recorded by its finished units in their order, approval units left out. */
  lemma {:induction false} LoopRecord(owner: string, units: seq<Unit>)
    ensures var r, kept := LoopArtifacts(owner, units), Filter(Recorded, units);
            |r| == |kept| && forall j :: 0 <= j < |r| ==> RecordOf(owner, kept[j], r[j])
  {
    if units != [] {
      LoopRecord(owner, units[..|units| - 1]);
    }
  }

  /** What a task leaves: its input; behind it the request it waits for, the model's words,
      or the message with the calls and what was made of them. */
  lemma {:induction false} TaskRecord(owner: string, t: Task)
    ensures var r := TaskArtifacts(owner, t);
            && r[0] == InputArtifact(owner, t.startInput)
            && (t.state.status.Paused? && t.request.Some? ==> r == [r[0], InterruptionArtifact(owner, t.request.value)])
            && (t.state.status.Completed? && t.state.MessageState? && t.state.message.Some? ==> r == [r[0], AssistantArtifact(owner, t.state.message.value)])
    ensures !t.state.status.Paused? && t.state.ToolState? ==>
              var r, kept := TaskArtifacts(owner, t), Filter(Recorded, t.state.units);
              && |r| == |kept| + 2 && r[1] == ToolCallArtifact(owner, t.state.callMessage)
              && forall j :: 0 <= j < |kept| ==> RecordOf(owner, kept[j], r[j + 2])
  {
    if t.state.ToolState? {
      LoopRecord(owner, t.state.units);
    }
  }

  // ---- which work comes next ------------------------------------------------------------------------

  /** The task can go on: it runs, and in a tool loop a unit is left. */
  predicate GoesOn(t: Task) {
    t.state.status.Running? && (t.state.ToolState? ==> exists u | u in t.state.units :: u.status.UnitPending?)
  }

  lemma {:induction false} GoesOnIsRunnable(t: Task)
    ensures GoesOn(t) <==> Runnable(t)
  {
    if t.state.ToolState? {
      var n := NextUnit(t.state.units);
      if n < |t.state.units| {
        assert t.state.units[n] in t.state.units;
      }
    }
  }

  /** The agent in control has nothing to do: no task of its own is complete or goes on. */
  ghost predicate AtRest(s: Session) {
    s.frames != [] && forall t :: t in TasksOf(s, TopAgent(s)) ==> !t.state.status.Completed? && !GoesOn(t)
  }

  /** Task `k` is the one that goes on: none is complete, and none before it goes on. */
  ghost predicate NextToRun(s: Session, k: nat, t: Task) {
    && s.frames != [] && k < |TasksOf(s, TopAgent(s))| && TasksOf(s, TopAgent(s))[k] == t && GoesOn(t)
    && (forall x :: x in TasksOf(s, TopAgent(s)) ==> !x.state.status.Completed?)
    && forall j :: 0 <= j < k ==> !GoesOn(TasksOf(s, TopAgent(s))[j])
  }

  lemma {:induction false} RestIs(s: Session)
    requires s.frames != []
    ensures var tasks := TasksOf(s, TopAgent(s));
            AtRest(s) <==> FirstCompleted(tasks) == |tasks| == FirstRunnable(tasks)
  {
    var tasks := TasksOf(s, TopAgent(s));
    forall t ensures GoesOn(t) <==> Runnable(t) {
      GoesOnIsRunnable(t);
    }
    if FirstCompleted(tasks) < |tasks| {
      assert tasks[FirstCompleted(tasks)] in tasks;
    }
    if FirstRunnable(tasks) < |tasks| {
      assert tasks[FirstRunnable(tasks)] in tasks;
    }
  }

  lemma {:induction false} NextIs(s: Session, k: nat, t: Task)
    requires NextToRun(s, k, t)
    ensures var tasks := TasksOf(s, TopAgent(s)); FirstCompleted(tasks) == |tasks| && FirstRunnable(tasks) == k && Runnable(t)
  {
    var tasks := TasksOf(s, TopAgent(s));
    forall x ensures GoesOn(x) <==> Runnable(x) {
      GoesOnIsRunnable(x);
    }
    assert forall j :: 0 <= j < |tasks| ==> tasks[j] in tasks;
  }

  /** A run ends exactly when the agent in control is at rest and nothing is queued. */
  lemma {:induction false} EndsAtRest(config: Config, s: State, a: Answer)
    requires s.session.frames != []
    ensures Iterate(config, s, a).Idle? <==> AtRest(s.session) && s.session.inputQueue == []
  {
    hide AdvanceCompleted, AdvanceRunning, TakeInput;
    RestIs(s.session);
  }

  /** An agent at rest takes the head of the queue: a user's input becomes a new task behind
      the others, and an environment message ends the run with an exception. */
  lemma {:induction false} Taking(config: Config, s: State, a: Answer)
    requires AtRest(s.session) && s.session.inputQueue != [] && a.crash.NoCrash?
    ensures var q, top, r := s.session.inputQueue[0], TopAgent(s.session), Iterate(config, s, a);
            && (q.event.UserInput? ==>
                  && r.Moved? && r.state.next == s.next + 1 && r.state.registered == s.registered
                  && r.state.session == Session(s.session.frames, s.session.inputQueue[1..], s.session.history, s.session.tasks[
                       top := TasksOf(s.session, top) + [Task(s.next, MessageState(Running, None), q, None)]]))
            && (q.event.EnvironmentMessage? ==> r == Faulted(s.registered, s.next))
            && (q.event.InterruptionResponse? ==>
                  && r.Moved? && r.state.session.inputQueue == s.session.inputQueue[1..]
                  && r.state.session.frames == s.session.frames && r.state.session.history == s.session.history)
  {
    hide FirstCompleted, FirstRunnable, WaitingAgent, FirstWaiting;
    RestIs(s.session);
  }

  /** A first response at the head of the queue wakes the task that waits for it, of whatever
      agent: it has the response and goes on as it was when it asked. */
  lemma {:induction false} ResponseWakes(config: Config, s: State, a: Answer, agent: string, k: nat, data: ResponseData)
    requires Sound(config, s) && agent in config.agents && AtRest(s.session) && a.crash.NoCrash?
    requires k < |TasksOf(s.session, agent)| && TasksOf(s.session, agent)[k].state.status.Paused?
    requires s.session.inputQueue != [] && TasksOf(s.session, agent)[k].request.Some?
    requires s.session.inputQueue[0].event == InterruptionResponse(TasksOf(s.session, agent)[k].request.value.id, data)
    ensures var r, t := Iterate(config, s, a), TasksOf(s.session, agent)[k];
            var t' := t.(state := t.state.WithStatus(t.request.value.originStatus), request := Some(t.request.value.(response := Some(data))));
            && r.Moved? && r.state.log == s.log + [Answered(t.request.value.id, data)]
            && r.state.session == Session(s.session.frames, s.session.inputQueue[1..], s.session.history,
                                          s.session.tasks[agent := TasksOf(s.session, agent)[k := t']])
  {
    hide FirstCompleted, FirstRunnable, WaitingAgent, FirstWaiting, Sound;
    RestIs(s.session);
    var popped := Popped(s);
    PoppedSound(config, s, popped);
    FirstResponseAccepted(config, popped, agent, k, data);
  }

  lemma {:induction false} PoppedSound(config: Config, s: State, popped: State)
    requires Sound(config, s) && s.session.inputQueue != [] && !s.session.inputQueue[0].event.UserInput?
    requires popped == Popped(s)
    ensures Sound(config, popped)
  {
    hide LocalOk, GlobalOk;
    GlobalPopped(s);
    PoppedLocal(config, s, popped);
    SameRecord(config, s, popped);
  }

  lemma {:induction false} SameRecord(config: Config, s: State, s': State)
    requires KernelLoading.Recorded(config, s) && s'.session.tasks == s.session.tasks && s'.session.history == s.session.history
    ensures KernelLoading.Recorded(config, s')
  {
    assert forall a :: TasksOf(s'.session, a) == TasksOf(s.session, a);
  }

  /** An exception makes an iteration void, whatever it was about to do. */
  lemma {:induction false} CrashIsVoid(config: Config, s: State, a: Answer)
    requires s.session.frames != [] && !(AtRest(s.session) && s.session.inputQueue == []) && !a.crash.NoCrash?
    ensures Iterate(config, s, a).Faulted?
    ensures a.crash.DuringCall? ==> Iterate(config, s, a) == Faulted(s.registered, s.next)
  {
    hide AdvanceCompleted, AdvanceRunning, TakeInput;
    EndsAtRest(config, s, a);
  }

  // ---- a turn of the model ------------------------------------------------------------------------------

  /** What the model wrote: its calls and its tag as it answered, the calls only if a tool was
      shown; shown were the registered tools the agent may see, and none in a last turn. */
  ghost predicate Wrote(config: Config, s: Session, noToolCall: bool, a: Answer, m: Message)
    requires s.frames != []
  {
    var top := TopAgent(s);
    && m.continueTag == a.continueTag && m.calls == (if m.available == [] then [] else a.calls)
    && (noToolCall ==> m.available == [])
    && (!noToolCall ==> forall id :: id in m.available <==>
          Lookup(ToolsOf(config, top), id).Some? && Shown(id, s.frames, exists t :: t in TasksOf(s, top) && t.state.status.Paused?))
  }

  lemma {:induction false} GenerateWrites(config: Config, s: Session, noToolCall: bool, a: Answer)
    requires s.frames != []
    ensures Wrote(config, s, noToolCall, a, Generate(config, s, TopAgent(s), noToolCall, a))
  {
    var top := TopAgent(s);
    forall id ensures id in ShownTools(ToolsOf(config, top), s.frames, HasPaused(TasksOf(s, top))) <==>
        Lookup(ToolsOf(config, top), id).Some? && Shown(id, s.frames, HasPaused(TasksOf(s, top)))
    {
      ShownToolsAre(ToolsOf(config, top), s.frames, HasPaused(TasksOf(s, top)), id);
    }
  }

  /** Only task `k` of the agent in control has changed. */
  ghost predicate OnlyTask(s: Session, s': Session, k: nat, t': Task)
    requires s.frames != []
  {
    var top := TopAgent(s);
    k < |TasksOf(s, top)| && s' == s.(tasks := s.tasks[top := TasksOf(s, top)[k := t']])
  }

  /** The model's turn completes a message task; the message is what the model wrote. */
  lemma {:induction false} Speaking(config: Config, s: State, a: Answer, k: nat, t: Task) returns (m: Message)
    requires NextToRun(s.session, k, t) && t.state.MessageState? && a.crash.NoCrash?
    ensures Wrote(config, s.session, false, a, m)
    ensures var r := Iterate(config, s, a);
            && r.Moved? && OnlyTask(s.session, r.state.session, k, t.(state := MessageState(Completed, Some(m)), request := None))
            && r.state.log == s.log && r.state.registered == s.registered && r.state.next == s.next
  {
    hide FirstCompleted, FirstRunnable, Generate, Runnable, Wrote;
    NextIs(s.session, k, t);
    m := Generate(config, s.session, TopAgent(s.session), false, a);
    GenerateWrites(config, s.session, false, a);
  }

  /** A completed message with calls becomes a tool loop: its units are all pending, answer
      the calls, and the task starts from the same input. */
  lemma {:induction false} Entering(config: Config, s: State, a: Answer, c: nat, t: Task) returns (units: seq<Unit>)
    requires ToClose(s.session, c, t) && t.state.MessageState? && t.state.message.Some? && t.state.message.value.calls != [] && a.crash.NoCrash?
    ensures var m := t.state.message.value;
            && units == BuildUnits(ToolsOf(config, TopAgent(s.session)), m, s.next).units
            && var r := Iterate(config, s, a);
               r.Moved? && OnlyTask(s.session, r.state.session, c, t.(state := ToolState(Running, m, units), request := None))
               && r.state.log == s.log && r.state.registered == s.registered
  {
    hide FirstCompleted, FirstRunnable, BuildUnits;
    FirstIs(s.session, c, t);
    units := BuildUnits(ToolsOf(config, TopAgent(s.session)), t.state.message.value, s.next).units;
  }

  // ---- a unit of a tool loop ---------------------------------------------------------------------------------

  /** Unit `n` is the first that has not begun. */
  predicate NextPending(units: seq<Unit>, n: nat) {
    n < |units| && units[n].status.UnitPending? && forall j | 0 <= j < n :: !units[j].status.UnitPending?
  }

  /** The task with its units as they are now: complete exactly if all have finished. */
  predicate Advanced(t: Task, units: seq<Unit>, t': Task) {
    && t.state.ToolState? && t'.state.ToolState?
    && t'.id == t.id && t'.startInput == t.startInput && t'.request.None?
    && t'.state.callMessage == t.state.callMessage && t'.state.units == units
    && t'.state.status == if forall u | u in units :: u.IsFinished() then Completed else Running
  }

  /** A turn of the model inside a tool loop: the unit has the message, and the units of its
      calls stand behind all others. */
  lemma {:induction false} TurnInLoop(config: Config, s: State, a: Answer, k: nat, t: Task, n: nat) returns (m: Message, t': Task)
    requires NextToRun(s.session, k, t) && t.state.ToolState? && NextPending(t.state.units, n) && t.state.units[n].LlmUnit? && a.crash.NoCrash?
    ensures Wrote(config, s.session, t.state.units[n].noToolCall, a, m)
    ensures var r, done := Iterate(config, s, a), t.state.units[n].(status := UnitCompleted, message := Some(m));
            var more := if m.calls == [] then [] else BuildUnits(ToolsOf(config, TopAgent(s.session)), m, s.next).units;
            && r.Moved? && OnlyTask(s.session, r.state.session, k, t') && Advanced(t, t.state.units[n := done] + more, t')
            && r.state.log == s.log && r.state.registered == s.registered
  {
    hide FirstCompleted, FirstRunnable, Generate, Runnable, Wrote, BuildUnits, NextUnit;
    NextIs(s.session, k, t);
    PendingIs(t.state.units, n);
    m := Generate(config, s.session, TopAgent(s.session), t.state.units[n].noToolCall, a);
    GenerateWrites(config, s.session, t.state.units[n].noToolCall, a);
    t' := TasksOf(Iterate(config, s, a).state.session, TopAgent(s.session))[k];
  }

  lemma {:induction false} PendingIs(units: seq<Unit>, n: nat)
    requires NextPending(units, n)
    ensures NextUnit(units) == n
  {
  }

  /** A tool unit that is executed has the result; what the tool wants published joins the
      end of the queue; a request of the task is done with. */
  lemma {:induction false} UnitRuns(config: Config, s: State, a: Answer, k: nat, t: Task, n: nat) returns (t': Task)
    requires NextToRun(s.session, k, t) && t.state.ToolState? && NextPending(t.state.units, n) && t.state.units[n].ToolUnit? && a.crash.NoCrash?
    requires ExecuteTool(EnvOf(config, s, TopAgent(s.session)), t.state.units, n, t.request, a).Executed?
    ensures var e, r := ExecuteTool(EnvOf(config, s, TopAgent(s.session)), t.state.units, n, t.request, a), Iterate(config, s, a);
            && r.Moved? && Advanced(t, t.state.units[n := t.state.units[n].(status := e.status, result := Some(e.result))], t')
            && OnlyTask(s.session, r.state.session.(inputQueue := s.session.inputQueue), k, t')
            && r.state.session.inputQueue == s.session.inputQueue + (if e.event.Some? then [Input(s.next, None, e.event.value)] else [])
  {
    hide FirstCompleted, FirstRunnable, Runnable, NextUnit, ExecuteTool, RegisteredAfter;
    NextIs(s.session, k, t);
    PendingIs(t.state.units, n);
    t' := TasksOf(Iterate(config, s, a).state.session, TopAgent(s.session))[k];
    assert s.session.inputQueue + [] == s.session.inputQueue;
  }

  /** A tool unit that asks pauses its task under a new request; input and request go on
      record. */
  lemma {:induction false} UnitAsks(config: Config, s: State, a: Answer, k: nat, t: Task, n: nat)
    requires NextToRun(s.session, k, t) && t.state.ToolState? && NextPending(t.state.units, n) && t.state.units[n].ToolUnit? && a.crash.NoCrash?
    requires ExecuteTool(EnvOf(config, s, TopAgent(s.session)), t.state.units, n, t.request, a).Requested?
    ensures var r, u := Iterate(config, s, a), t.state.units[n];
            var request := Request(s.next, AsyncToolRequest, Running, None);
            var asking := u.(status := UnitPending, requestId := Some(s.next), result := Some(ToolResult(Waiting, None)));
            var t' := t.(state := ToolState(Paused, t.state.callMessage, t.state.units[n := asking]), request := Some(request));
            && r.Moved? && OnlyTask(s.session, r.state.session.(history := s.session.history), k, t')
            && r.state.session.history == s.session.history
                 + [InputArtifact(TopAgent(s.session), t.startInput), InterruptionArtifact(TopAgent(s.session), request)]
            && r.state.log == s.log + [Raised(s.next, Some(u.id))] && r.state.next == s.next + 1
  {
    hide FirstCompleted, FirstRunnable, Runnable, NextUnit, ExecuteTool, RegisteredAfter;
    NextIs(s.session, k, t);
    PendingIs(t.state.units, n);
  }

  /** An ill-formed gate is an exception. */
  lemma {:induction false} UnitBreaks(config: Config, s: State, a: Answer, k: nat, t: Task, n: nat)
    requires NextToRun(s.session, k, t) && t.state.ToolState? && NextPending(t.state.units, n) && t.state.units[n].ToolUnit?
    requires ExecuteTool(EnvOf(config, s, TopAgent(s.session)), t.state.units, n, t.request, a) == Broken
    ensures Iterate(config, s, a).Faulted?
  {
    hide FirstCompleted, FirstRunnable, Runnable, NextUnit, ExecuteTool, RegisteredAfter;
    NextIs(s.session, k, t);
    PendingIs(t.state.units, n);
  }

  // ---- exceptions, the end of a run and a new input ------------------------------------------------------

  /** Task `k` is the first of the agent in control that is not paused. */
  ghost predicate FirstToPause(s: Session, k: nat, t: Task) {
    && s.frames != [] && k < |TasksOf(s, TopAgent(s))| && TasksOf(s, TopAgent(s))[k] == t && !t.state.status.Paused?
    && forall j :: 0 <= j < k ==> TasksOf(s, TopAgent(s))[j].state.status.Paused?
  }

  /** An exception pauses the first active task of the agent in control: it keeps what it
      has, waits for a retry under a new request, and input and request go on record. */
  lemma {:induction false} ExceptionPauses(s: State, k: nat, t: Task)
    requires FirstToPause(s.session, k, t)
    ensures var r, request := PauseAfterException(s), Request(s.next, ExceptionResume, t.state.status, None);
            && OnlyTask(s.session, r.session.(history := s.session.history), k, t.(state := t.state.WithStatus(Paused), request := Some(request)))
            && r.session.history == s.session.history
                 + [InputArtifact(TopAgent(s.session), t.startInput), InterruptionArtifact(TopAgent(s.session), request)]
            && r.log == s.log + [Raised(s.next, None)] && r.next == s.next + 1
  {
    assert FirstActive(TasksOf(s.session, TopAgent(s.session))) == k;
  }

  /** Without an active task an exception changes nothing. */
  lemma {:induction false} NothingToPause(s: State)
    requires s.session.frames != [] && forall t :: t in TasksOf(s.session, TopAgent(s.session)) ==> t.state.status.Paused?
    ensures PauseAfterException(s) == s
  {
    var tasks := TasksOf(s.session, TopAgent(s.session));
    assert forall j :: 0 <= j < |tasks| ==> tasks[j] in tasks;
  }

  /** The clean-up empties the queue and keeps, of the agent in control, the paused tasks in
      their order; everything else stays. */
  lemma {:induction false} FinishKeeps(s: State)
    requires s.session.frames != []
    ensures var top := TopAgent(s.session);
            FinishRun(s).session == Session(s.session.frames, [], s.session.history, s.session.tasks[top := Filter(IsPaused, TasksOf(s.session, top))])
  {
    PausedAre(TasksOf(s.session, TopAgent(s.session)));
  }

  lemma {:induction false} PausedAre(tasks: seq<Task>)
    ensures PausedOnly(tasks) == Filter(IsPaused, tasks)
  {
    if tasks != [] {
      PausedAre(tasks[..|tasks| - 1]);
    }
  }

  /** A run puts its new input behind what is queued, under a new id, and then does one
      iteration per answer. */
  lemma {:induction false} RunBegins(config: Config, s: State, event: Event, a: Answer, answers: seq<Answer>)
    requires s.session.frames != []
    ensures var q := Input(s.next, None, event);
            var ready := State(s.session.(inputQueue := s.session.inputQueue + [q]), s.log + [Arrived(q)], s.registered, s.next + 1);
            && (Iterate(config, ready, a).Moved? ==>
                  Run(config, s, Some(event), [a] + answers) == Run(config, Iterate(config, ready, a).state, None, answers))
            && (Iterate(config, ready, a).Idle? ==> Run(config, s, Some(event), [a] + answers) == LoopResult(ready, CheckpointOf(ready), Drained))
            && (Iterate(config, ready, a).Faulted? ==>
                  var paused := PauseAfterException(ready.(registered := Iterate(config, ready, a).registered, next := Iterate(config, ready, a).next));
                  Run(config, s, Some(event), [a] + answers) == LoopResult(paused, Checkpoint(paused.session, paused.log), Excepted))
  {
    hide Iterate, PauseAfterException;
    assert ([a] + answers)[1..] == answers && ([a] + answers)[0] == a;
  }

  /** An exception before the first checkpoint of a run takes the session back to the last one
      and pauses there; ids and approval tools stay, and the pause is the new checkpoint. */
  lemma {:induction false} Recovering(config: Config, w: World)
    ensures var r := Apply(config, w, EarlyException);
            && r.state == PauseAfterException(State(w.saved.session, w.saved.log, w.state.registered, w.state.next))
            && r.saved == Checkpoint(r.state.session, r.state.log)
  {
    hide PauseAfterException;
  }

  // ---- a saved session ------------------------------------------------------------------------------------

  /** What loading makes of a session: with frames of known agents only, its frames and its
      queue stay, and of each agent's tasks all that are active and the last five that are
      paused; otherwise it starts over at the root with nothing to do. The history stays. */
  ghost predicate LoadedFrom(config: Config, s: Session, r: Session) {
    && r.history == s.history && (forall a :: a !in config.agents ==> TasksOf(r, a) == [])
    && if s.frames != [] && forall f :: f in s.frames ==> f.agent in config.agents then
         && r.frames == s.frames && r.inputQueue == s.inputQueue
         && forall a :: a in config.agents && KernelHistory.DistinctIds(TasksOf(s, a)) ==>
              && InOrderOf(TasksOf(r, a), TasksOf(s, a))
              && forall k :: 0 <= k < |TasksOf(s, a)| ==>
                   (TasksOf(s, a)[k] in TasksOf(r, a) <==>
                    !TasksOf(s, a)[k].state.status.Paused? || |Filter(IsPaused, TasksOf(s, a)[k + 1..])| < 5)
       else r.frames == [Frame(config.root, None)] && r.inputQueue == [] && forall a :: TasksOf(r, a) == []
  }

  lemma {:induction false} LoadingIs(config: Config, s: Session)
    ensures LoadedFrom(config, s, KernelLoading.Loaded(config, s))
  {
    hide InOrderOf, Filter, KernelHistory.DistinctIds;
    forall a | a in config.agents && KernelHistory.DistinctIds(TasksOf(s, a))
      ensures InOrderOf(KernelLoading.TrimPaused(TasksOf(s, a)), TasksOf(s, a))
      ensures forall k :: 0 <= k < |TasksOf(s, a)| ==>
                (TasksOf(s, a)[k] in KernelLoading.TrimPaused(TasksOf(s, a)) <==>
                 !TasksOf(s, a)[k].state.status.Paused? || |Filter(IsPaused, TasksOf(s, a)[k + 1..])| < 5)
    {
      KernelLoading.TrimmedAre(TasksOf(s, a));
    }
    assert KernelLoading.TrimPaused([]) == [];
  }

  /** A new process has the saved session, without any approval tools, and its roll-back point
      is where it stands; unless it resumes, it begins with the clean-up. */
  lemma {:induction false} Reloading(config: Config, w: World, resume: bool)
    ensures var r, loaded := Apply(config, w, Reload(resume)), KernelLoading.Loaded(config, w.state.session);
            && LoadedFrom(config, w.state.session, loaded) && loaded.frames != []
            && r.saved == CheckpointOf(r.state) && r.state.registered == {} && r.state.next == w.state.next
            && r.state.session == (if resume then loaded
                                   else Session(loaded.frames, [], loaded.history,
                                                loaded.tasks[TopAgent(loaded) := Filter(IsPaused, TasksOf(loaded, TopAgent(loaded)))]))
  {
    hide LoadedFrom;
    LoadingIs(config, w.state.session);
    FramesLoaded(config, w.state.session);
    if !resume {
      FinishKeeps(w.state.(session := KernelLoading.Loaded(config, w.state.session)));
    }
  }

  lemma {:induction false} FramesLoaded(config: Config, s: Session)
    ensures KernelLoading.Loaded(config, s).frames != []
  {
  }
}
