/** Loading a saved session, and what makes it lose nothing: every pause has put the
    task's input into the history first. */
module KernelLoading {
  import opened Common
  import opened KernelModels
  import opened ToolUnits
  import opened ToolExecution
  import opened KernelSteps
  import opened KernelInvariant
  import opened KernelPreserved
  import opened KernelHistory
  import opened KernelHistoryKept

  // ---- load_session_state -----------------------------------------------------------------

  const MAX_PAUSED := 5

  function CountPaused(tasks: seq<Task>): nat {
    if tasks == [] then 0
    else CountPaused(tasks[1..]) + if tasks[0].state.status.Paused? then 1 else 0
  }

  /** All active tasks, and the last `MAX_PAUSED` paused ones. */
  function TrimPaused(tasks: seq<Task>): seq<Task> {
    if tasks == [] then []
    else if tasks[0].state.status.Paused? && CountPaused(tasks[1..]) >= MAX_PAUSED then TrimPaused(tasks[1..])
    else [tasks[0]] + TrimPaused(tasks[1..])
  }

  /** The loop goes backwards and counts the paused tasks it has kept. */
  method TrimPausedTasks(tasks: seq<Task>) returns (kept: seq<Task>)
    ensures kept == TrimPaused(tasks)
  {
    kept := [];
    var count := 0;
    var k := |tasks|;
    while k > 0
      invariant 0 <= k <= |tasks|
      invariant kept == TrimPaused(tasks[k..])
      invariant count == if CountPaused(tasks[k..]) <= MAX_PAUSED then CountPaused(tasks[k..]) else MAX_PAUSED
    {
      k := k - 1;
      assert tasks[k..][1..] == tasks[k + 1..] && tasks[k..][0] == tasks[k];
      if tasks[k].state.status.Paused? {
        if count >= MAX_PAUSED {
          continue;
        }
        count := count + 1;
      }
      kept := [tasks[k]] + kept;
    }
    assert tasks[0..] == tasks;
  }

  lemma {:induction false} CountIsFilter(tasks: seq<Task>)
    ensures CountPaused(tasks) == |Filter(IsPaused, tasks)|
  {
    if tasks != [] {
      CountIsFilter(tasks[1..]);
      FilterFirst(IsPaused, tasks);
    }
  }

  lemma {:induction false} TrimmedInOrder(tasks: seq<Task>)
    ensures InOrderOf(TrimPaused(tasks), tasks)
  {
    if tasks != [] {
      TrimmedInOrder(tasks[1..]);
      InOrderBehind(tasks[0], TrimPaused(tasks[1..]), tasks[1..]);
      assert tasks == [tasks[0]] + tasks[1..];
    }
  }

  /** A task stays exactly if it is active or fewer than five paused ones come after it; the
      others stay in their order. */
  lemma {:induction false} TrimmedAre(tasks: seq<Task>)
    requires DistinctIds(tasks)
    ensures DistinctIds(TrimPaused(tasks))
    ensures InOrderOf(TrimPaused(tasks), tasks)
    ensures forall k :: 0 <= k < |tasks| ==>
              (tasks[k] in TrimPaused(tasks) <==> !tasks[k].state.status.Paused? || |Filter(IsPaused, tasks[k + 1..])| < 5)
  {
    TrimmedInOrder(tasks);
    if tasks != [] {
      var rest, kept := tasks[1..], TrimPaused(tasks[1..]);
      assert DistinctIds(rest);
      TrimmedAre(rest);
      assert tasks[0] !in rest;
      CountIsFilter(rest);
      forall k | 0 < k < |tasks|
        ensures tasks[k] in TrimPaused(tasks) <==> !tasks[k].state.status.Paused? || |Filter(IsPaused, tasks[k + 1..])| < 5
      {
        assert tasks[k] == rest[k - 1] && rest[k..] == tasks[k + 1..] && tasks[k].id != tasks[0].id;
      }
      forall j | 0 <= j < |kept| ensures kept[j].id != tasks[0].id {
        assert kept[j] in rest;
        var i :| 0 <= i < |rest| && rest[i] == kept[j];
        assert tasks[i + 1] == kept[j];
      }
    }
  }

  /** `_sanitize_agent_frames`: without a frame, or with a frame of an agent that is gone,
      the session starts over. */
  function Sanitized(config: Config, s: Session): Session {
    if s.frames == [] || exists f :: f in s.frames && f.agent !in config.agents then
      s.(frames := [Frame(config.root, None)], inputQueue := [], tasks := map a | a in config.agents :: [])
    else s
  }

  /** The tasks of the agents that are there, trimmed. */
  function Trimmed(config: Config, s: Session): Session {
    s.(tasks := map a | a in config.agents :: TrimPaused(TasksOf(s, a)))
  }

  function Loaded(config: Config, s: Session): Session {
    Trimmed(config, Sanitized(config, s))
  }

  method SanitizeAgentFrames(config: Config, s: Session) returns (s': Session)
    ensures s' == Sanitized(config, s)
  {
    var reset := s.frames == [];
    for k := 0 to |s.frames|
      invariant reset <==> s.frames == [] || exists j :: 0 <= j < k && s.frames[j].agent !in config.agents
    {
      reset := reset || s.frames[k].agent !in config.agents;
    }
    if reset {
      return s.(frames := [Frame(config.root, None)], inputQueue := [], tasks := map a | a in config.agents :: []);
    }
    s' := s;
  }

  /** `load_session_state`, up to the choice of a fresh start. */
  method LoadSessionState(config: Config, s: Session) returns (s': Session)
    ensures s' == Loaded(config, s)
  {
    s' := SanitizeAgentFrames(config, s);
    var tasks: map<string, seq<Task>> := map[];
    for k := 0 to |config.agents|
      invariant tasks == map a | a in config.agents[..k] :: TrimPaused(TasksOf(s', a))
    {
      var kept := TrimPausedTasks(TasksOf(s', config.agents[k]));
      tasks := tasks[config.agents[k] := kept];
      assert config.agents[..k + 1] == config.agents[..k] + [config.agents[k]];
    }
    assert config.agents[..|config.agents|] == config.agents;
    s' := s'.(tasks := tasks);
  }

  // ---- every pause is on record --------------------------------------------------------------

  /** Tasks belong to known agents, and a paused task's input stands in the history. */
  ghost predicate Recorded(config: Config, s: State) {
    forall a, t {:trigger t in TasksOf(s.session, a)} :: t in TasksOf(s.session, a) ==>
      a in config.agents && (t.state.status.Paused? ==> InputArtifact(a, t.startInput) in s.session.history)
  }

  /** Only `agent` gets new tasks, and none that is paused off the record. */
  ghost predicate Records(s: State, s': State, agent: string) {
    && s.session.history <= s'.session.history
    && forall a, t {:trigger t in TasksOf(s'.session, a)} :: t in TasksOf(s'.session, a) ==>
         t in TasksOf(s.session, a)
         || (a == agent && (t.state.status.Paused? ==> InputArtifact(a, t.startInput) in s'.session.history))
  }

  lemma {:induction false} RecordedKept(config: Config, s: State, s': State, agent: string)
    requires Recorded(config, s) && Records(s, s', agent) && agent in config.agents
    ensures Recorded(config, s')
  {
    forall a, t | t in TasksOf(s'.session, a)
      ensures a in config.agents && (t.state.status.Paused? ==> InputArtifact(a, t.startInput) in s'.session.history)
    {
      if t in TasksOf(s.session, a) && t.state.status.Paused? {
        HistoryHolds(s.session.history, s'.session.history, InputArtifact(a, t.startInput));
      }
    }
  }

  lemma {:induction false} HistoryHolds(history: seq<Artifact>, longer: seq<Artifact>, a: Artifact)
    requires history <= longer && a in history
    ensures a in longer
  {
    var k :| 0 <= k < |history| && history[k] == a;
    assert longer[k] == a;
  }

  lemma {:induction false} SetRecords(s: State, s': State, agent: string, k: nat, t: Task)
    requires k < |TasksOf(s.session, agent)| && s'.session.tasks == SetTask(s.session, agent, k, t).tasks
    requires s.session.history <= s'.session.history
    requires t.state.status.Paused? ==> InputArtifact(agent, t.startInput) in s'.session.history
    ensures Records(s, s', agent)
  {
    forall a, x | x in TasksOf(s'.session, a)
      ensures x in TasksOf(s.session, a)
              || (a == agent && (x.state.status.Paused? ==> InputArtifact(a, x.startInput) in s'.session.history))
    {
      if a == agent {
        var j :| 0 <= j < |TasksOf(s'.session, a)| && TasksOf(s'.session, a)[j] == x;
        if j != k {
          assert x == TasksOf(s.session, a)[j];
        }
      }
    }
  }

  lemma {:induction false} TopIsKnown(config: Config, s: State)
    requires ConfigOk(config) && LocalOk(config, s)
    ensures s.session.frames != [] && TopAgent(s.session) in config.agents
  {
    assert FramesOk(config, s.session.frames);
  }

  lemma {:induction false} CloseRecords(s: State, agent: string, t: Task)
    requires s.session.frames != [] && CloseTask(s, agent, t).Moved?
    ensures Records(s, CloseTask(s, agent, t).state, agent)
  {
    hide TaskArtifacts, FrameChangeOf, RemoveTask, FramesAfter;
    RemovedAreOld(TasksOf(s.session, agent), t.id);
  }

  lemma {:induction false} RunningRecords(config: Config, s: State, agent: string, k: nat, a: Answer)
    requires k < |TasksOf(s.session, agent)| && Runnable(TasksOf(s.session, agent)[k])
    requires AdvanceRunning(config, s, agent, k, a).Moved?
    ensures Records(s, AdvanceRunning(config, s, agent, k, a).state, agent)
  {
    hide ExecuteTool, RegisteredAfter, Generate, BuildUnits, NextUnit, Records;
    var t := TasksOf(s.session, agent)[k];
    var s' := AdvanceRunning(config, s, agent, k, a).state;
    var t' := TasksOf(s'.session, agent)[k];
    if t'.state.status.Paused? {
      assert TaskArtifacts(agent, t')[0] in s'.session.history;
    }
    SetRecords(s, s', agent, k, t');
  }

  lemma {:induction false} ResponseRecorded(config: Config, s: State, requestId: nat, data: ResponseData)
    requires LocalOk(config, s) && Recorded(config, s)
    ensures Recorded(config, ApplyResponse(config, s, requestId, data))
  {
    hide LocalOk, Recorded, Records;
    var agent := WaitingAgent(s.session, config.agents, requestId);
    var s' := ApplyResponse(config, s, requestId, data);
    if agent.Some? && s' != s {
      var k := FirstWaiting(TasksOf(s.session, agent.value), requestId);
      WaitingIsUnanswered(config, s, agent.value, k);
      SetRecords(s, s', agent.value, k, Answering(TasksOf(s.session, agent.value)[k], data));
      RecordedKept(config, s, s', agent.value);
    }
  }

  lemma {:induction false} TakeRecorded(config: Config, s: State)
    requires LocalOk(config, s) && Recorded(config, s) && s.session.inputQueue != [] && TakeInput(config, s).Moved?
    requires s.session.frames != [] && TopAgent(s.session) in config.agents
    ensures Recorded(config, TakeInput(config, s).state)
  {
    hide LocalOk, Recorded, ApplyResponse;
    var input := s.session.inputQueue[0];
    if input.event.UserInput? {
      RecordedKept(config, s, TakeInput(config, s).state, TopAgent(s.session));
    } else if input.event.InterruptionResponse? {
      PoppedLocal(config, s, Popped(s));
      RecordedKept(config, s, Popped(s), TopAgent(s.session));
      ResponseRecorded(config, Popped(s), input.event.requestId, input.event.data);
    }
  }

  /** One iteration keeps every pause on record. */
  lemma {:induction false} WorkRecorded(config: Config, s: State, a: Answer)
    requires ConfigOk(config) && LocalOk(config, s) && Recorded(config, s) && Work(config, s, a).Moved?
    ensures Recorded(config, Work(config, s, a).state)
  {
    hide ConfigOk, LocalOk, Recorded, Records, AdvanceRunning, TakeInput, CloseTask, BuildUnits, Runnable;
    TopIsKnown(config, s);
    var agent := TopAgent(s.session);
    var tasks := TasksOf(s.session, agent);
    var c, r := FirstCompleted(tasks), FirstRunnable(tasks);
    var s' := Work(config, s, a).state;
    if c < |tasks| {
      if tasks[c].state.MessageState? && tasks[c].state.message.value.calls != [] {
        SetRecords(s, s', agent, c, TasksOf(s'.session, agent)[c]);
      } else {
        CloseRecords(s, agent, tasks[c]);
      }
      RecordedKept(config, s, s', agent);
    } else if r < |tasks| {
      RunningRecords(config, s, agent, r, a);
      RecordedKept(config, s, s', agent);
    } else {
      TakeRecorded(config, s);
    }
  }

  lemma {:induction false} EnqueueRecorded(config: Config, s: State, event: Event, origin: Option<nat>)
    requires Recorded(config, s)
    ensures Recorded(config, Enqueue(s, event, origin))
  {
    assert forall a :: TasksOf(Enqueue(s, event, origin).session, a) == TasksOf(s.session, a);
  }

  lemma {:induction false} PauseRecorded(config: Config, s: State)
    requires Recorded(config, s) && (CanPause(s) ==> TopAgent(s.session) in config.agents)
    ensures Recorded(config, PauseAfterException(s))
  {
    hide Recorded, Records, TaskArtifacts;
    if CanPause(s) {
      var agent := TopAgent(s.session);
      var s' := PauseAfterException(s);
      var k := FirstActive(TasksOf(s.session, agent));
      var t := TasksOf(s'.session, agent)[k];
      assert TaskArtifacts(agent, t)[0] in s'.session.history;
      SetRecords(s, s', agent, k, t);
      RecordedKept(config, s, s', agent);
    } else {
      assert PauseAfterException(s) == s;
    }
  }

  lemma {:induction false} FinishRecorded(config: Config, s: State)
    requires Recorded(config, s) && s.session.frames != []
    ensures Recorded(config, FinishRun(s))
  {
    hide Discards, Abandons, PausedOnly;
    PausedAreOld(TasksOf(s.session, TopAgent(s.session)));
    forall a, t | t in TasksOf(FinishRun(s).session, a) ensures t in TasksOf(s.session, a) {
    }
  }

  // ---- loading keeps everything --------------------------------------------------------------

  /** A session of a sound state is loaded as it is, but for the oldest paused tasks. */
  lemma {:induction false} SanitizingIsIdle(config: Config, s: State)
    requires ConfigOk(config) && LocalOk(config, s)
    ensures Sanitized(config, s.session) == s.session
  {
    var frames := s.session.frames;
    forall f | f in frames ensures f.agent in config.agents {
      var k :| 0 <= k < |frames| && frames[k] == f;
    }
  }

  lemma {:induction false} TrimmedTasks(config: Config, s: State)
    requires RequestsOk(s) && Recorded(config, s)
    ensures var s' := s.(session := Trimmed(config, s.session));
            && DistinctTasks(s'.session) && Recorded(config, s')
            && (forall a, t {:trigger t in TasksOf(s'.session, a)} :: t in TasksOf(s'.session, a) ==> t in TasksOf(s.session, a))
            && (forall a, t {:trigger t in TasksOf(s.session, a)} :: t in TasksOf(s.session, a) ==>
                  t in TasksOf(s'.session, a) || InputArtifact(a, t.startInput) in s.session.history)
  {
    hide UniqueWaiting, WaitingUnanswered, OnceEach, IdsKnown, TrimPaused, DistinctIds;
    var s' := s.(session := Trimmed(config, s.session));
    forall a ensures DistinctIds(TasksOf(s'.session, a)) {
      assert DistinctIds(TasksOf(s.session, a));
      TrimmedAre(TasksOf(s.session, a));
      NoTasks();
    }
    forall a, t | t in TasksOf(s'.session, a) ensures t in TasksOf(s.session, a) {
      assert DistinctIds(TasksOf(s.session, a));
      TrimmedAre(TasksOf(s.session, a));
    }
    forall a, t | t in TasksOf(s.session, a)
      ensures t in TasksOf(s'.session, a) || InputArtifact(a, t.startInput) in s.session.history
    {
      assert DistinctIds(TasksOf(s.session, a));
      TrimmedAre(TasksOf(s.session, a));
      var k :| 0 <= k < |TasksOf(s.session, a)| && TasksOf(s.session, a)[k] == t;
    }
  }

  lemma {:induction false} NoTasks()
    ensures DistinctIds([])
  {
  }

  /** Loading a sound session gives a sound one, and no input is lost from sight: a task
      that is dropped has its input in the history. */
  lemma {:induction false} LoadedOk(config: Config, s: State)
    requires ConfigOk(config) && LocalOk(config, s) && GlobalOk(s) && Recorded(config, s)
    ensures var s' := s.(session := Loaded(config, s.session));
            LocalOk(config, s') && GlobalOk(s') && Recorded(config, s')
  {
    hide ConfigOk, Trimmed, TaskOk, FramesOk, RegisteredOk, Recorded, DistinctTasks, OnceEach, EntryKnown;
    SanitizingIsIdle(config, s);
    var s' := s.(session := Loaded(config, s.session));
    TrimmedTasks(config, s);
    TrimmedRest(config, s.session);
    TasksKept(config, s, s');
    assert s.log + [] == s.log;
    RequestsShrink(s, s', []);
    forall a, t | t in TasksOf(s.session, a) ensures Accounted(s', t.startInput) {
    }
    AccountedKept(s, s');
  }

  lemma {:induction false} TrimmedRest(config: Config, s: Session)
    ensures Trimmed(config, s).frames == s.frames && Trimmed(config, s).inputQueue == s.inputQueue
    ensures Trimmed(config, s).history == s.history
  {
  }
}
