/** Every step of the runtime keeps the history invariants. */
module KernelHistoryKept {
  import opened Common
  import opened KernelModels
  import opened ToolUnits
  import opened ToolExecution
  import opened KernelSteps
  import opened KernelInvariant
  import opened KernelPreserved
  import opened KernelHistory

  ghost predicate GlobalOk(s: State) {
    RequestsOk(s) && InOrder(s) && AllAccounted(s)
  }

  /** `s'` differs from `s` in one task, a longer history, and at most one new request. */
  ghost predicate TaskChanged(s: State, s': State, agent: string, k: nat, t: Task) {
    && k < |TasksOf(s.session, agent)|
    && s'.session.tasks == SetTask(s.session, agent, k, t).tasks && s'.session.inputQueue == s.session.inputQueue
    && s.session.history <= s'.session.history && s.next <= s'.next
    && (s'.log == s.log || exists x :: s'.log == s.log + [Raised(s.next, x)] && s.next < s'.next)
  }

  lemma {:induction false} GlobalSet(s: State, s': State, agent: string, k: nat, t: Task)
    requires GlobalOk(s) && TaskChanged(s, s', agent, k, t)
    requires t.id == TasksOf(s.session, agent)[k].id && t.startInput == TasksOf(s.session, agent)[k].startInput
    requires t.request.Some? ==> t.request.value.id < s'.next
    requires t.state.status.Paused? && t.request.Some? ==> t.request.value.id >= s.next
    ensures GlobalOk(s')
  {
    hide RequestsOk, InOrder, AllAccounted;
    var more: seq<Entry> := [];
    if s'.log != s.log {
      var x :| s'.log == s.log + [Raised(s.next, x)] && s.next < s'.next;
      more := [Raised(s.next, x)];
    }
    assert s'.log == s.log + more;
    RequestsSet(s, s', more, agent, k, t);
    QuietInOrder(s, s', more);
    SetAccounted(s, s', more, agent, k, t);
  }

  /** An entry that is neither an arrival nor a departure does not disturb the order. */
  lemma {:induction false} QuietInOrder(s: State, s': State, more: seq<Entry>)
    requires InOrder(s) && s'.session.inputQueue == s.session.inputQueue && s'.log == s.log + more
    requires |more| <= 1 && forall e :: e in more ==> e.Raised? || e.Answered?
    ensures InOrder(s')
  {
    UsersConcat(s.log, more);
    if more != [] {
      assert more[0] in more && more[..0] == [];
    }
    assert ArrivedUsers(more) == [] && TakenUsers(more) == [];
  }

  /** Changing a task does not change the input it started from. */
  lemma {:induction false} SetAccounted(s: State, s': State, more: seq<Entry>, agent: string, k: nat, t: Task)
    requires AllAccounted(s) && k < |TasksOf(s.session, agent)|
    requires s'.session.tasks == SetTask(s.session, agent, k, t).tasks && s'.session.inputQueue == s.session.inputQueue
    requires t.startInput == TasksOf(s.session, agent)[k].startInput && s.session.history <= s'.session.history
    requires s'.log == s.log + more && forall e :: e in more ==> !e.Arrived?
    ensures AllAccounted(s')
  {
    hide AllAccounted, Accounted;
    forall a, x | x in TasksOf(s.session, a) ensures Accounted(s', x.startInput) {
      StillLive(s, s', agent, k, t, a, x);
    }
    forall i | i in s.session.inputQueue ensures Accounted(s', i) {
      QueuedIsAccounted(s', i);
    }
    AccountedKept(s, s');
  }

  lemma {:induction false} QueuedIsAccounted(s: State, i: Input)
    requires i in s.session.inputQueue
    ensures Accounted(s, i)
  {
  }

  lemma {:induction false} StillLive(s: State, s': State, agent: string, k: nat, t: Task, a: string, x: Task)
    requires k < |TasksOf(s.session, agent)| && s'.session.tasks == SetTask(s.session, agent, k, t).tasks
    requires t.startInput == TasksOf(s.session, agent)[k].startInput && x in TasksOf(s.session, a)
    ensures Accounted(s', x.startInput)
  {
    var j :| 0 <= j < |TasksOf(s.session, a)| && TasksOf(s.session, a)[j] == x;
    assert TasksOf(s'.session, a)[j] in TasksOf(s'.session, a);
    assert TasksOf(s'.session, a)[j].startInput == x.startInput;
  }

  lemma {:induction false} GlobalEnqueue(s: State, event: Event, origin: Option<nat>)
    requires GlobalOk(s)
    ensures GlobalOk(Enqueue(s, event, origin))
  {
    hide RequestsOk, InOrder, AllAccounted;
    EnqueueInOrder(s, event, origin);
    EnqueueAccounted(s, event, origin);
    RequestsShrinkSame(s, Enqueue(s, event, origin), [Arrived(Input(s.next, origin, event))]);
  }

  lemma {:induction false} EnqueueInOrder(s: State, event: Event, origin: Option<nat>)
    requires InOrder(s)
    ensures InOrder(Enqueue(s, event, origin))
  {
    var s' := Enqueue(s, event, origin);
    var input := Input(s.next, origin, event);
    UsersConcat(s.log, [Arrived(input)]);
    assert ArrivedUsers([Arrived(input)]) == (if event.UserInput? then [input] else []) && TakenUsers([Arrived(input)]) == [];
    assert s'.session.inputQueue[..|s.session.inputQueue|] == s.session.inputQueue;
  }

  lemma {:induction false} EnqueueAccounted(s: State, event: Event, origin: Option<nat>)
    requires AllAccounted(s)
    ensures AllAccounted(Enqueue(s, event, origin))
  {
    var s' := Enqueue(s, event, origin);
    SameTasksHeld(s, s');
    AccountedKept(s, s');
  }

  /** The tasks are as before, and nothing else that counts is gone. */
  lemma {:induction false} SameTasksHeld(s: State, s': State)
    requires s'.session.tasks == s.session.tasks && forall e :: e in s.log ==> e in s'.log
    requires s.session.history <= s'.session.history
    requires forall i :: i in s.session.inputQueue && i.event.UserInput? ==> Accounted(s', i)
    ensures Holds(s, s')
  {
    forall a, x | x in TasksOf(s.session, a) ensures Accounted(s', x.startInput) {
      assert x in TasksOf(s'.session, a);
    }
    forall x | x in s.session.history ensures x in s'.session.history {
      var k :| 0 <= k < |s.session.history| && s.session.history[k] == x;
      assert s'.session.history[k] == x;
    }
  }

  lemma {:induction false} RequestsShrinkSame(s: State, s': State, more: seq<Entry>)
    requires RequestsOk(s) && s'.session.tasks == s.session.tasks
    requires s'.log == s.log + more && s.next <= s'.next
    requires |more| <= 1 && forall e :: e in more ==> EntryKnown(s'.next, e) && FreshEntry(s.next, e)
    ensures RequestsOk(s')
  {
    hide OnceEach, EntryKnown;
    assert forall a :: TasksOf(s'.session, a) == TasksOf(s.session, a);
    RequestsShrink(s, s', more);
  }

  lemma {:induction false} GlobalResponse(config: Config, s: State, requestId: nat, data: ResponseData)
    requires LocalOk(config, s) && GlobalOk(s)
    ensures GlobalOk(ApplyResponse(config, s, requestId, data))
  {
    hide RequestsOk, InOrder, AllAccounted, LocalOk, RequestOk;
    var agent := WaitingAgent(s.session, config.agents, requestId);
    var s' := ApplyResponse(config, s, requestId, data);
    if agent.Some? && s' != s {
      var k := FirstWaiting(TasksOf(s.session, agent.value), requestId);
      var t := TasksOf(s.session, agent.value)[k];
      WaitingIsUnanswered(config, s, agent.value, k);
      RequestsAnswered(s, s', agent.value, k, Answering(t, data), requestId, data);
      QuietInOrder(s, s', [Answered(requestId, data)]);
      SetAccounted(s, s', [Answered(requestId, data)], agent.value, k, Answering(t, data));
    }
  }

  /** A waiting task has no answer yet, and one to go back to. */
  lemma {:induction false} WaitingIsUnanswered(config: Config, s: State, agent: string, k: nat)
    requires LocalOk(config, s) && k < |TasksOf(s.session, agent)| && TasksOf(s.session, agent)[k].state.status.Paused?
    ensures var t := TasksOf(s.session, agent)[k];
            t.request.Some? && t.request.value.response.None? && !t.request.value.originStatus.Paused?
  {
    hide StateOk, FramesOk;
    TheTask(config, s, agent, k);
  }

  lemma {:induction false} GlobalTakeUser(config: Config, s: State)
    requires GlobalOk(s) && s.session.inputQueue != [] && s.session.frames != []
    requires s.session.inputQueue[0].event.UserInput?
    ensures GlobalOk(TakeInput(config, s).state)
  {
    hide RequestsOk, InOrder, OnceEach, AllAccounted;
    var input := s.session.inputQueue[0];
    RequestsStart(s, TakeInput(config, s).state, [Started(input, s.next)], TopAgent(s.session), NewTask(input, s.next));
    TakeInOrder(config, s);
    TakeAccounted(config, s);
  }

  lemma {:induction false} TakeInOrder(config: Config, s: State)
    requires InOrder(s) && s.session.inputQueue != [] && s.session.frames != []
    requires s.session.inputQueue[0].event.UserInput?
    ensures InOrder(TakeInput(config, s).state)
  {
    var input := s.session.inputQueue[0];
    QueuedHead(s.session.inputQueue);
    UsersConcat(s.log, [Started(input, s.next)]);
    assert ArrivedUsers([Started(input, s.next)]) == [] && TakenUsers([Started(input, s.next)]) == [input];
  }

  lemma {:induction false} TakeAccounted(config: Config, s: State)
    requires AllAccounted(s) && s.session.inputQueue != [] && s.session.frames != []
    requires s.session.inputQueue[0].event.UserInput?
    ensures AllAccounted(TakeInput(config, s).state)
  {
    var input := s.session.inputQueue[0];
    var s' := TakeInput(config, s).state;
    assert NewTask(input, s.next) in TasksOf(s'.session, TopAgent(s.session));
    forall i | i in s.session.inputQueue && i.event.UserInput? ensures Accounted(s', i) {
      assert i == input || i in s.session.inputQueue[1..];
    }
    forall a, x | x in TasksOf(s.session, a) ensures Accounted(s', x.startInput) {
      assert x in TasksOf(s'.session, a);
    }
    AccountedKept(s, s');
  }

  function Popped(s: State): State
    requires s.session.inputQueue != []
  {
    s.(session := s.session.(inputQueue := s.session.inputQueue[1..]))
  }

  /** Another input leaves the queue: no user input is touched. */
  lemma {:induction false} GlobalPopped(s: State)
    requires GlobalOk(s) && s.session.inputQueue != [] && !s.session.inputQueue[0].event.UserInput?
    ensures GlobalOk(Popped(s))
  {
    hide RequestsOk, OnceEach;
    var popped := Popped(s);
    assert s.log + [] == s.log;
    QueuedHead(s.session.inputQueue);
    RequestsShrinkSame(s, popped, []);
    forall i | i in s.session.inputQueue && i.event.UserInput? ensures Accounted(popped, i) {
      assert i in s.session.inputQueue[1..];
    }
    SameTasksHeld(s, popped);
    AccountedKept(s, popped);
  }

  lemma {:induction false} GlobalTake(config: Config, s: State)
    requires LocalOk(config, s) && GlobalOk(s) && s.session.inputQueue != [] && s.session.frames != []
    requires TakeInput(config, s).Moved?
    ensures GlobalOk(TakeInput(config, s).state)
  {
    hide RequestsOk, InOrder, AllAccounted, LocalOk, ApplyResponse;
    var input := s.session.inputQueue[0];
    if input.event.UserInput? {
      GlobalTakeUser(config, s);
    } else if input.event.InterruptionResponse? {
      GlobalPopped(s);
      PoppedLocal(config, s, Popped(s));
      GlobalResponse(config, Popped(s), input.event.requestId, input.event.data);
    }
  }

  lemma {:induction false} LocalFrames(config: Config, s: State)
    requires LocalOk(config, s)
    ensures s.session.frames != []
  {
  }

  lemma {:induction false} PoppedLocal(config: Config, s: State, popped: State)
    requires LocalOk(config, s) && s.session.inputQueue != []
    requires popped == s.(session := s.session.(inputQueue := s.session.inputQueue[1..]))
    ensures LocalOk(config, popped)
  {
    hide FramesOk, TaskOk, RegisteredOk;
    TasksKept(config, s, popped);
  }

  /** A closed task leaves its input in the history. */
  lemma {:induction false} GlobalClose(s: State, agent: string, k: nat)
    requires GlobalOk(s) && s.session.frames != [] && k < |TasksOf(s.session, agent)|
    requires CloseTask(s, agent, TasksOf(s.session, agent)[k]).Moved?
    ensures GlobalOk(CloseTask(s, agent, TasksOf(s.session, agent)[k]).state)
  {
    hide RequestsOk, InOrder, AllAccounted, FrameChangeOf, TaskArtifacts, RemoveTask, FramesAfter, ChangeFrame;
    var t := TasksOf(s.session, agent)[k];
    var change := FrameChangeOf(s.session.frames, t.state);
    var saved := s.session.history + TaskArtifacts(agent, t);
    var history := if change.Some? then saved + [FrameArtifact(agent, change.value)] else saved;
    var recorded := s.(session := s.session.(history := history));
    GlobalQuiet(s, recorded);
    var changed := if change.Some? then ChangeFrame(recorded, t, change.value) else recorded;
    if change.Some? {
      GlobalChange(recorded, t, change.value);
    }
    assert TaskArtifacts(agent, t)[0] in changed.session.history;
    GlobalRemove(changed, agent, t);
  }

  lemma {:induction false} GlobalChange(s: State, t: Task, change: FrameChange)
    requires GlobalOk(s) && s.session.frames != []
    ensures var r := ChangeFrame(s, t, change);
            r.session.history == s.session.history && r.session.tasks == s.session.tasks && GlobalOk(r)
  {
    hide RequestsOk, InOrder, AllAccounted, FramesAfter;
    var moved := s.(session := s.session.(frames := FramesAfter(s.session.frames, change)));
    GlobalQuiet(s, moved);
    GlobalEnqueue(moved, UserInput(""), Some(t.startInput.id));
  }

  /** Frames and a longer history do not matter. */
  lemma {:induction false} GlobalQuiet(s: State, s': State)
    requires GlobalOk(s) && s'.session.tasks == s.session.tasks && s'.session.inputQueue == s.session.inputQueue
    requires s.session.history <= s'.session.history && s'.log == s.log && s.next <= s'.next
    ensures GlobalOk(s')
  {
    hide RequestsOk, OnceEach;
    assert s.log + [] == s.log;
    RequestsShrinkSame(s, s', []);
    SameTasksHeld(s, s');
    AccountedKept(s, s');
  }

  lemma {:induction false} RemoveKeepsDistinct(tasks: seq<Task>, id: nat)
    requires DistinctIds(tasks)
    ensures DistinctIds(RemoveTask(tasks, id))
    ensures forall t :: t in RemoveTask(tasks, id) <==> t in tasks && t.id != id
  {
    if tasks != [] {
      var front, last := tasks[..|tasks| - 1], tasks[|tasks| - 1];
      RemoveKeepsDistinct(front, id);
      assert tasks == front + [last];
      DistinctGrows(front, RemoveTask(front, id), last);
    }
  }

  /** The last of distinct tasks differs from all that are left of the others. */
  lemma {:induction false} DistinctGrows(front: seq<Task>, left: seq<Task>, last: Task)
    requires DistinctIds(front + [last]) && DistinctIds(left) && forall t :: t in left ==> t in front
    ensures DistinctIds(left + [last])
  {
    forall i | 0 <= i < |left| ensures left[i].id != last.id {
      assert left[i] in front;
      var j :| 0 <= j < |front| && front[j] == left[i];
      assert (front + [last])[j].id != (front + [last])[|front|].id;
    }
  }

  lemma {:induction false} GlobalRemove(s: State, agent: string, t: Task)
    requires GlobalOk(s) && t in TasksOf(s.session, agent) && InputArtifact(agent, t.startInput) in s.session.history
    ensures GlobalOk(s.(session := s.session.(tasks := s.session.tasks[agent := RemoveTask(TasksOf(s.session, agent), t.id)])))
  {
    hide OnceEach, EntryKnown, RemoveTask;
    var s' := s.(session := s.session.(tasks := s.session.tasks[agent := RemoveTask(TasksOf(s.session, agent), t.id)]));
    RemoveKeepsDistinct(TasksOf(s.session, agent), t.id);
    forall a, x | x in TasksOf(s.session, a) ensures Accounted(s', x.startInput) {
      if a == agent && x.id == t.id {
        assert x == t by { SameId(s.session, agent, x, t); }
      } else {
        assert x in TasksOf(s'.session, a);
      }
    }
    AccountedKept(s, s');
    assert s.log + [] == s.log;
    RemoveDistinct(s.session, s'.session, agent, t.id);
    RequestsShrink(s, s', []);
  }

  lemma {:induction false} SameId(s: Session, agent: string, x: Task, t: Task)
    requires DistinctTasks(s) && x in TasksOf(s, agent) && t in TasksOf(s, agent) && x.id == t.id
    ensures x == t
  {
    var i :| 0 <= i < |TasksOf(s, agent)| && TasksOf(s, agent)[i] == x;
    var j :| 0 <= j < |TasksOf(s, agent)| && TasksOf(s, agent)[j] == t;
    assert DistinctIds(TasksOf(s, agent));
  }

  lemma {:induction false} RemoveDistinct(s: Session, s': Session, agent: string, id: nat)
    requires DistinctTasks(s) && s' == s.(tasks := s.tasks[agent := RemoveTask(TasksOf(s, agent), id)])
    ensures DistinctTasks(s')
  {
    hide RemoveTask;
    RemoveKeepsDistinct(TasksOf(s, agent), id);
    FewerDistinct(s, s', agent);
  }

  /** A list of which some tasks are left. */
  lemma {:induction false} FewerDistinct(s: Session, s': Session, agent: string)
    requires DistinctTasks(s)
    requires forall a :: a != agent ==> TasksOf(s', a) == TasksOf(s, a)
    requires forall x :: x in TasksOf(s', agent) ==> x in TasksOf(s, agent)
    requires DistinctIds(TasksOf(s', agent))
    ensures DistinctTasks(s')
  {
    hide DistinctIds;
    forall a ensures DistinctIds(TasksOf(s', a)) {
      assert DistinctIds(TasksOf(s, a));
    }
    forall a, b, x, y | a != b && x in TasksOf(s', a) && y in TasksOf(s', b) ensures x.id != y.id {
      assert x in TasksOf(s, a) && y in TasksOf(s, b);
    }
  }

  // ---- one iteration -----------------------------------------------------------------------------

  lemma {:induction false} GlobalRunning(config: Config, s: State, k: nat, a: Answer)
    requires LocalOk(config, s) && GlobalOk(s) && s.session.frames != []
    requires var tasks := TasksOf(s.session, TopAgent(s.session)); k < |tasks| && Runnable(tasks[k])
    requires AdvanceRunning(config, s, TopAgent(s.session), k, a).Moved?
    ensures GlobalOk(AdvanceRunning(config, s, TopAgent(s.session), k, a).state)
  {
    hide RequestsOk, InOrder, AllAccounted, ExecuteTool, RegisteredAfter, Generate, BuildUnits, NextUnit, TaskArtifacts, LocalOk;
    var agent := TopAgent(s.session);
    var t := TasksOf(s.session, agent)[k];
    var s' := AdvanceRunning(config, s, agent, k, a).state;
    if t.state.MessageState? {
      GlobalSet(s, s', agent, k, TasksOf(s'.session, agent)[k]);
    } else {
      var n := NextUnit(t.state.units);
      if t.state.units[n].LlmUnit? {
        GlobalSet(s, s', agent, k, TasksOf(s'.session, agent)[k]);
      } else {
        var e := ExecuteTool(EnvOf(config, s, agent), t.state.units, n, t.request, a);
        if e.Requested? {
          assert s'.log == s.log + [Raised(s.next, Some(t.state.units[n].id))];
          GlobalSet(s, s', agent, k, TasksOf(s'.session, agent)[k]);
        } else {
          var fetched := s.(registered := RegisteredAfter(EnvOf(config, s, agent), t.state.units[n]));
          var u := t.state.units[n].(status := e.status, result := Some(e.result));
          var done := fetched.(session := SetTask(fetched.session, agent, k, ClearRequest(WithUnits(t, t.state.units[n := u]))));
          GlobalSet(s, done, agent, k, TasksOf(done.session, agent)[k]);
          if e.event.Some? {
            GlobalEnqueue(done, e.event.value, None);
          }
        }
      }
    }
  }

  lemma {:induction false} WorkGlobal(config: Config, s: State, a: Answer)
    requires LocalOk(config, s) && GlobalOk(s) && Work(config, s, a).Moved?
    ensures GlobalOk(Work(config, s, a).state)
  {
    hide RequestsOk, InOrder, AllAccounted, AdvanceRunning, TakeInput, CloseTask, BuildUnits, Runnable, LocalOk;
    LocalFrames(config, s);
    var agent := TopAgent(s.session);
    var tasks := TasksOf(s.session, agent);
    var c, r := FirstCompleted(tasks), FirstRunnable(tasks);
    var s' := Work(config, s, a).state;
    if c < |tasks| {
      if tasks[c].state.MessageState? && tasks[c].state.message.value.calls != [] {
        GlobalSet(s, s', agent, c, TasksOf(s'.session, agent)[c]);
      } else {
        GlobalClose(s, agent, c);
      }
    } else if r < |tasks| {
      GlobalRunning(config, s, r, a);
    } else {
      GlobalTake(config, s);
    }
  }

  // ---- exceptions and the end of a run ----------------------------------------------------------------

  lemma {:induction false} GlobalPause(s: State)
    requires GlobalOk(s)
    ensures GlobalOk(PauseAfterException(s))
  {
    hide RequestsOk, InOrder, AllAccounted, TaskArtifacts;
    if CanPause(s) {
      var agent := TopAgent(s.session);
      var s' := PauseAfterException(s);
      var k := FirstActive(TasksOf(s.session, agent));
      assert s'.log == s.log + [Raised(s.next, None)];
      GlobalSet(s, s', agent, k, TasksOf(s'.session, agent)[k]);
    } else {
      assert PauseAfterException(s) == s;
    }
  }

  lemma {:induction false} PausedKeepDistinct(tasks: seq<Task>)
    requires DistinctIds(tasks)
    ensures DistinctIds(PausedOnly(tasks))
  {
    if tasks != [] {
      var front, last := tasks[..|tasks| - 1], tasks[|tasks| - 1];
      PausedKeepDistinct(front);
      PausedAreOld(front);
      assert tasks == front + [last];
      DistinctGrows(front, PausedOnly(front), last);
    }
  }

  lemma {:induction false} DiscardsAll(queue: seq<Input>)
    ensures forall e :: e in Discards(queue) ==> e.Discarded? && e.input in queue
    ensures forall i :: i in queue ==> Discarded(i) in Discards(queue)
  {
    if queue != [] {
      DiscardsAll(queue[..|queue| - 1]);
      assert queue == queue[..|queue| - 1] + [queue[|queue| - 1]];
    }
  }

  lemma {:induction false} AbandonsAll(tasks: seq<Task>)
    ensures forall e :: e in Abandons(tasks) ==> e.Abandoned?
    ensures forall t :: t in tasks && !t.state.status.Paused? ==> Abandoned(t.startInput) in Abandons(tasks)
  {
    if tasks != [] {
      AbandonsAll(tasks[..|tasks| - 1]);
      assert tasks == tasks[..|tasks| - 1] + [tasks[|tasks| - 1]];
    }
  }

  lemma {:induction false} GlobalFinish(config: Config, s: State)
    requires LocalOk(config, s) && GlobalOk(s)
    ensures LocalOk(config, FinishRun(s)) && GlobalOk(FinishRun(s))
  {
    hide FramesOk, TaskOk, RegisteredOk, OnceEach, EntryKnown, Discards, Abandons, PausedOnly;
    var s' := FinishRun(s);
    var agent := TopAgent(s.session);
    var tasks := TasksOf(s.session, agent);
    PausedAreOld(tasks);
    PausedKeepDistinct(tasks);
    DiscardsAll(s.session.inputQueue);
    AbandonsAll(tasks);
    forall a, x | x in TasksOf(s'.session, a) ensures x in TasksOf(s.session, a) {
    }
    TasksKept(config, s, s');
    FinishInOrder(s);
    forall i | i in s.session.inputQueue ensures Accounted(s', i) {
      assert Discarded(i) in s'.log;
    }
    forall a, x | x in TasksOf(s.session, a) ensures Accounted(s', x.startInput) {
      if a == agent && !x.state.status.Paused? {
        assert Abandoned(x.startInput) in s'.log;
      } else {
        assert x in TasksOf(s'.session, a);
      }
    }
    AccountedKept(s, s');
    FinishRequests(s);
  }

  lemma {:induction false} FinishInOrder(s: State)
    requires InOrder(s) && s.session.frames != []
    ensures InOrder(FinishRun(s))
  {
    var tasks := TasksOf(s.session, TopAgent(s.session));
    var d, b := Discards(s.session.inputQueue), Abandons(tasks);
    DiscardsUsers(s.session.inputQueue);
    AbandonsUsers(tasks);
    UsersConcat(s.log, d);
    UsersConcat(s.log + d, b);
  }

  lemma {:induction false} FinishRequests(s: State)
    requires RequestsOk(s) && s.session.frames != []
    ensures RequestsOk(FinishRun(s))
  {
    hide Discards, Abandons, PausedOnly, OnceEach, DistinctTasks;
    var s' := FinishRun(s);
    var agent := TopAgent(s.session);
    var tasks := TasksOf(s.session, agent);
    PausedAreOld(tasks);
    FinishDistinct(s.session);
    forall a, x | x in TasksOf(s'.session, a) ensures x in TasksOf(s.session, a) {
    }
    var more := Discards(s.session.inputQueue) + Abandons(tasks);
    DiscardsAll(s.session.inputQueue);
    AbandonsAll(tasks);
    assert s'.log == s.log + more;
    forall e | e in s'.log ensures e in s.log || e.Discarded? || e.Abandoned? {
      assert e in s.log || e in more;
    }
    OnceEachAfter(s.log, more);
  }

  lemma {:induction false} FinishDistinct(s: Session)
    requires DistinctTasks(s) && s.frames != []
    ensures DistinctTasks(Clean(s))
  {
    hide PausedOnly, DistinctIds;
    var tasks := TasksOf(s, TopAgent(s));
    PausedAreOld(tasks);
    assert DistinctIds(tasks);
    PausedKeepDistinct(tasks);
    assert TasksOf(Clean(s), TopAgent(s)) == PausedOnly(tasks);
    FewerDistinct(s, Clean(s), TopAgent(s));
  }

  lemma {:induction false} OnceEachAfter(log: seq<Entry>, more: seq<Entry>)
    requires OnceEach(log) && forall e :: e in more ==> e.Discarded? || e.Abandoned?
    ensures OnceEach(log + more)
  {
    forall j | |log| <= j < |log + more| ensures (log + more)[j].Discarded? || (log + more)[j].Abandoned? {
      assert (log + more)[j] == more[j - |log|] && more[j - |log|] in more;
    }
  }
}
