/** Whether an agent can stand on the stack of control frames twice. */
module KernelStacks {
  import opened Common
  import opened KernelModels
  import opened ToolUnits
  import opened ToolExecution
  import opened KernelSteps
  import opened KernelInvariant
  import opened KernelPreserved
  import opened KernelTheorems

  // ---- the condition ---------------------------------------------------------------------

  predicate OnStack(frames: seq<Frame>, agent: string) {
    exists f | f in frames :: f.agent == agent
  }

  predicate DistinctAgents(frames: seq<Frame>) {
    forall i, j | 0 <= i < j < |frames| :: frames[i].agent != frames[j].agent
  }

  /** The next task to close hands control to an agent that stands on the stack already. */
  predicate Returns(s: Session) {
    && s.frames != []
    && var tasks := TasksOf(s, TopAgent(s));
       var c := FirstCompleted(tasks);
       c < |tasks| && tasks[c].state.ToolState?
       && LastHandoff(tasks[c].state.units).Some? && LastHandoff(tasks[c].state.units).value.Push?
       && OnStack(s.frames, LastHandoff(tasks[c].state.units).value.target)
  }

  /** A step keeps the agents on the stack distinct exactly if it closes no task whose
      handoff goes to one of them: the check is made when the tools are shown, not when the
      handoff is carried out. */
  lemma {:induction false} DistinctUnlessReturns(config: Config, s: State, a: Answer)
    requires LocalOk(config, s) && DistinctAgents(s.session.frames) && Iterate(config, s, a).Moved?
    ensures DistinctAgents(Iterate(config, s, a).state.session.frames) <==> !Returns(s.session)
  {
    hide TasksOk, QueueOk, RegisteredOk, HistoryOk, FirstCompleted, FirstRunnable, TaskArtifacts, ExecuteTool, BuildUnits, Generate, DistinctAgents, LastHandoff;
    var agent := TopAgent(s.session);
    var tasks := TasksOf(s.session, agent);
    var c := FirstCompleted(tasks);
    if c < |tasks| && !(tasks[c].state.MessageState? && (tasks[c].state.message.None? || tasks[c].state.message.value.calls != [])) {
      ChangeSource(config, s, agent, c);
      var change := FrameChangeOf(s.session.frames, tasks[c].state);
      if change.Some? {
        ChangedDistinct(s.session.frames, change.value);
      }
    }
  }

  lemma {:induction false} ChangeSource(config: Config, s: State, agent: string, c: nat)
    requires LocalOk(config, s) && agent == TopAgent(s.session)
    requires c < |TasksOf(s.session, agent)| && TasksOf(s.session, agent)[c].state.status.Completed?
    ensures var change := FrameChangeOf(s.session.frames, TasksOf(s.session, agent)[c].state); change.Some? ==> change.value.source == agent
  {
    ChangeOk(config, s, agent, c);
  }

  lemma {:induction false} ChangedDistinct(frames: seq<Frame>, change: FrameChange)
    requires frames != [] && DistinctAgents(frames)
    ensures DistinctAgents(FramesAfter(frames, change)) <==> change.Pop? || !OnStack(frames, change.target)
  {
    if change.Push? {
      var after := FramesAfter(frames, change);
      if OnStack(frames, change.target) {
        var f :| f in frames && f.agent == change.target;
        var k :| 0 <= k < |frames| && frames[k] == f;
        assert after[k].agent == after[|frames|].agent;
      }
    }
  }

  // ---- turns of an agent whose other tasks are paused --------------------------------------------

  const CALM := Answer(NoCrash, [], false, true, true, false, None)
  const STOPPED := Answer(DuringCall, [], false, true, true, false, None)

  function To(agent: string): string {
    HANDOFF_PREFIX + agent
  }

  function HandoffCall(agent: string): ToolCall {
    ToolCall(FromModel("call"), Some(To(agent)), false)
  }

  /** The model hands off to the agent. */
  function Handing(agent: string): Answer {
    CALM.(calls := [HandoffCall(agent)])
  }

  lemma {:induction false} ToIsHandoff(agent: string)
    ensures IsHandoffId(To(agent)) && HandoffTarget(To(agent)) == agent && !IsHitl(To(agent)) && To(agent) != HANDOFF_RETURN && To(agent) != RESUME_TASK
    ensures To(agent) != ""
  {
    assert To(agent)[|HANDOFF_PREFIX|..] == agent;
    PrefixesDiffer(To(agent));
    assert To(agent)[9] == HANDOFF_PREFIX[9] && HANDOFF_RETURN[9] == 'r' && HANDOFF_PREFIX[9] == 'a';
    assert To(agent)[1] == HANDOFF_PREFIX[1];
  }

  /** The agent can hand off to the other one by a tool of its own. */
  predicate CanHand(config: Config, x: string, y: string) {
    && y != "" && y in config.agents
    && Lookup(ToolsOf(config, x), To(y)) == Some(ToolMeta(To(y), false, false))
  }

  /** The running agent, the other frames, its paused tasks. */
  predicate At(s: State, frames: seq<Frame>, x: string, rest: seq<Task>) {
    && frames != [] && s.session.frames == frames && frames[|frames| - 1].agent == x
    && x in s.session.tasks && (forall t | t in rest :: t.state.status.Paused?)
  }

  lemma {:induction false} FirstBehind(rest: seq<Task>, t: Task)
    requires forall x :: x in rest ==> x.state.status.Paused?
    ensures FirstCompleted(rest + [t]) == if t.state.status.Completed? then |rest| else |rest| + 1
    ensures !t.state.status.Completed? ==> FirstRunnable(rest + [t]) == if Runnable(t) then |rest| else |rest| + 1
    ensures FirstCompleted(rest) == |rest| == FirstRunnable(rest)
  {
    var all := rest + [t];
    assert forall k :: 0 <= k < |rest| ==> all[k] == rest[k] && rest[k] in rest;
    assert all[|rest|] == t;
  }

  /** Taking the next input. */
  lemma {:induction false} Takes(config: Config, s: State, frames: seq<Frame>, x: string, rest: seq<Task>)
    requires At(s, frames, x, rest) && s.session.tasks[x] == rest
    requires s.session.inputQueue != [] && s.session.inputQueue[0].event.UserInput?
    ensures var q := s.session.inputQueue;
            Iterate(config, s, CALM) == Moved(State(s.session.(inputQueue := q[1..], tasks := s.session.tasks[x := rest + [NewTask(q[0], s.next)]]),
                                                    s.log + [Started(q[0], s.next)], s.registered, s.next + 1))
  {
    hide FirstCompleted, FirstRunnable, NewTask;
    FirstBehind(rest, NewTask(s.session.inputQueue[0], 0));
  }

  /** The turn of the model in a new task. */
  lemma {:induction false} Speaks(config: Config, s: State, frames: seq<Frame>, x: string, rest: seq<Task>, t: Task, a: Answer)
    requires At(s, frames, x, rest) && s.session.tasks[x] == rest + [t] && t.state == MessageState(Running, None) && a.crash.NoCrash?
    ensures var m := Generate(config, s.session, x, false, a);
            Iterate(config, s, a) == Moved(s.(session := s.session.(
              tasks := s.session.tasks[x := rest + [t.(state := MessageState(Completed, Some(m)), request := None)]])))
  {
    hide FirstCompleted, FirstRunnable, Generate;
    FirstBehind(rest, t);
    assert (rest + [t])[|rest| := t.(state := MessageState(Completed, Some(Generate(config, s.session, x, false, a))), request := None)]
        == rest + [t.(state := MessageState(Completed, Some(Generate(config, s.session, x, false, a))), request := None)];
  }

  lemma {:induction false} ShownHandoff(config: Config, s: Session, x: string, y: string)
    requires CanHand(config, x, y) && !OnStack(s.frames, y)
    ensures Generate(config, s, x, false, Handing(y)).calls == [HandoffCall(y)]
    ensures To(y) in Generate(config, s, x, false, Handing(y)).available
  {
    ToIsHandoff(y);
    ShownToolsAre(ToolsOf(config, x), s.frames, HasPaused(TasksOf(s, x)), To(y));
  }

  function HandoffUnit(id: nat, y: string): Unit {
    CallUnit(id, To(y), HandoffCall(y))
  }

  /** A message with one handoff becomes a tool loop of one unit. */
  lemma {:induction false} Enters(config: Config, s: State, frames: seq<Frame>, x: string, rest: seq<Task>, t: Task, m: Message, y: string)
    requires At(s, frames, x, rest) && s.session.tasks[x] == rest + [t] && t.state == MessageState(Completed, Some(m))
    requires CanHand(config, x, y) && m.calls == [HandoffCall(y)] && To(y) in m.available
    ensures Iterate(config, s, CALM) == Moved(s.(session := s.session.(
              tasks := s.session.tasks[x := rest + [t.(state := ToolState(Running, m, [HandoffUnit(s.next, y)]), request := None)]]),
              next := s.next + 1))
  {
    hide FirstCompleted, FirstRunnable, Lookup;
    FirstBehind(rest, t);
    ToIsHandoff(y);
    OneHandoffBuilt(ToolsOf(config, x), m, s.next, y);
    assert (rest + [t])[|rest| := t.(state := ToolState(Running, m, [HandoffUnit(s.next, y)]), request := None)]
        == rest + [t.(state := ToolState(Running, m, [HandoffUnit(s.next, y)]), request := None)];
  }

  lemma {:induction false} OneHandoffBuilt(tools: seq<ToolMeta>, m: Message, next: nat, y: string)
    requires Lookup(tools, To(y)) == Some(ToolMeta(To(y), false, false)) && m.calls == [HandoffCall(y)] && To(y) in m.available
    ensures BuildUnits(tools, m, next) == Built([HandoffUnit(next, y)], next + 1, true)
  {
    ToIsHandoff(y);
    assert UnitsOfCall(tools, m.available, HandoffCall(y), next) == [HandoffUnit(next, y)];
  }

  function Handed(u: Unit, x: string, y: string): Unit
    requires u.ToolUnit?
  {
    u.(status := UnitCompleted, result := Some(ToolResult(Success, Some(Push(x, y)))))
  }

  /** The handoff succeeds, whether or not its target stands on the stack. */
  lemma {:induction false} HandsOff(config: Config, s: State, frames: seq<Frame>, x: string, y: string, rest: seq<Task>, t: Task, m: Message, id: nat)
    requires At(s, frames, x, rest) && s.session.tasks[x] == rest + [t] && t.state == ToolState(Running, m, [HandoffUnit(id, y)])
    requires CanHand(config, x, y)
    ensures var done := t.(state := ToolState(Completed, m, [Handed(HandoffUnit(id, y), x, y)]), request := None);
            Iterate(config, s, CALM) == Moved(s.(session := s.session.(tasks := s.session.tasks[x := rest + [done]])))
  {
    hide FirstCompleted, FirstRunnable, Lookup;
    var u := HandoffUnit(id, y);
    assert NextUnit([u]) == 0;
    FirstBehind(rest, t);
    ToIsHandoff(y);
    var done := t.(state := ToolState(Completed, m, [Handed(u, x, y)]), request := None);
    HandoffRuns(EnvOf(config, s, x), [u], t.request, y, id);
    assert [u][0 := Handed(u, x, y)] == [Handed(u, x, y)] && AllFinished([Handed(u, x, y)]);
    assert (rest + [t])[|rest| := done] == rest + [done];
    assert s.(registered := s.registered) == s;
  }

  lemma {:induction false} HandoffRuns(env: Env, units: seq<Unit>, request: Option<Request>, y: string, id: nat)
    requires units == [HandoffUnit(id, y)] && CanHand(env.config, env.agent, y)
    ensures ExecuteTool(env, units, 0, request, CALM) == Executed(UnitCompleted, ToolResult(Success, Some(Push(env.agent, y))), None)
    ensures RegisteredAfter(env, units[0]) == env.registered
  {
    hide Lookup;
    ToIsHandoff(y);
  }

  /** Closing the task hands control over and wakes the target. */
  lemma {:induction false} HandsOver(config: Config, s: State, frames: seq<Frame>, x: string, y: string, rest: seq<Task>, t: Task, m: Message, u: Unit)
    requires At(s, frames, x, rest) && s.session.tasks[x] == rest + [t] && (forall o :: o in rest ==> o.id != t.id)
    requires u.ToolUnit? && t.state == ToolState(Completed, m, [Handed(u, x, y)])
    ensures var r := Iterate(config, s, CALM);
            && r.Moved? && r.state.session.frames == frames + [Frame(y, Some(x))] && r.state.session.tasks == s.session.tasks[x := rest]
            && r.state.session.inputQueue == s.session.inputQueue + [Input(s.next, Some(t.startInput.id), UserInput(""))]
            && r.state.next == s.next + 1
  {
    hide FirstCompleted, FirstRunnable, TaskArtifacts, RemoveTask;
    FirstBehind(rest, t);
    RemovedLast(rest, t);
  }

  lemma {:induction false} RemovedLast(rest: seq<Task>, t: Task)
    requires forall o :: o in rest ==> o.id != t.id
    ensures RemoveTask(rest + [t], t.id) == rest
  {
    assert (rest + [t])[..|rest|] == rest;
    RemovedNone(rest, t.id);
  }

  lemma {:induction false} RemovedNone(rest: seq<Task>, id: nat)
    requires forall o :: o in rest ==> o.id != id
    ensures RemoveTask(rest, id) == rest
  {
    if rest != [] {
      var front := rest[..|rest| - 1];
      assert forall o :: o in front ==> o in rest;
      assert rest[|rest| - 1] in rest;
      RemovedNone(front, id);
    }
  }

  /** A last word without calls ends the task, and the turn of the agent unless the model
      keeps it. */
  lemma {:induction false} Ends(config: Config, s: State, frames: seq<Frame>, x: string, rest: seq<Task>, t: Task, m: Message)
    requires At(s, frames, x, rest) && s.session.tasks[x] == rest + [t] && (forall o :: o in rest ==> o.id != t.id)
    requires |frames| > 1 && m.calls == [] && t.state == MessageState(Completed, Some(m))
    ensures var r := Iterate(config, s, CALM);
            && r.Moved? && r.state.session.tasks == s.session.tasks[x := rest] && r.state.session.inputQueue == s.session.inputQueue
            && r.state.session.frames == (if m.continueTag then frames else frames[..|frames| - 1]) && r.state.next == s.next
  {
    hide FirstCompleted, FirstRunnable, TaskArtifacts, RemoveTask;
    FirstBehind(rest, t);
    RemovedLast(rest, t);
  }

  // ---- stretches of a run -----------------------------------------------------------------------

  lemma {:induction false} OneMove(config: Config, s: State, a: Answer, more: seq<Answer>)
    requires Iterate(config, s, a).Moved?
    ensures RunLoop(config, s, [a] + more) == RunLoop(config, Iterate(config, s, a).state, more)
  {
    assert ([a] + more)[1..] == more;
  }

  /** What the state shows of the session; the rest of it does not matter here. */
  predicate Stands(s: State, frames: seq<Frame>, queue: seq<Input>, tasks: map<string, seq<Task>>) {
    s.session.frames == frames && s.session.inputQueue == queue && s.session.tasks == tasks
  }

  predicate Fresh(rest: seq<Task>, next: nat) {
    forall o | o in rest :: o.id < next
  }

  function HandingOver(y: string): seq<Answer> {
    [CALM, Handing(y), CALM, CALM, CALM]
  }

  lemma {:induction false} FiveMoves(config: Config, s: State, s1: State, s2: State, s3: State, s4: State, s5: State, y: string, more: seq<Answer>)
    requires Iterate(config, s, CALM) == Moved(s1) && Iterate(config, s1, Handing(y)) == Moved(s2) && Iterate(config, s2, CALM) == Moved(s3)
    requires Iterate(config, s3, CALM) == Moved(s4) && Iterate(config, s4, CALM) == Moved(s5)
    ensures RunLoop(config, s, HandingOver(y) + more) == RunLoop(config, s5, more)
  {
    hide Iterate, RunLoop;
    var l5, l4, l3, l2 := [CALM] + more, [CALM, CALM] + more, [CALM, CALM, CALM] + more, [Handing(y), CALM, CALM, CALM] + more;
    assert l4 == [CALM] + l5 && l3 == [CALM] + l4 && l2 == [Handing(y)] + l3 && HandingOver(y) + more == [CALM] + l2;
    OneMove(config, s, CALM, l2);
    OneMove(config, s1, Handing(y), l3);
    OneMove(config, s2, CALM, l4);
    OneMove(config, s3, CALM, l5);
    OneMove(config, s4, CALM, more);
  }

  /** Where an agent stands before it takes the next input `q`. */
  predicate Ready(s: State, frames: seq<Frame>, x: string, rest: seq<Task>, q: Input) {
    At(s, frames, x, rest) && s.session.tasks[x] == rest && s.session.inputQueue == [q] && q.event.UserInput? && Fresh(rest, s.next)
  }

  /** Three steps from an input to the tool loop of one handoff. */
  lemma {:induction false} HandoffBegins(config: Config, s: State, frames: seq<Frame>, x: string, y: string, rest: seq<Task>, q: Input)
    returns (s1: State, s2: State, s3: State, t: Task, m: Message)
    requires Ready(s, frames, x, rest, q) && CanHand(config, x, y) && !OnStack(frames, y)
    ensures Iterate(config, s, CALM) == Moved(s1) && Iterate(config, s1, Handing(y)) == Moved(s2) && Iterate(config, s2, CALM) == Moved(s3)
    ensures t.state == ToolState(Running, m, [HandoffUnit(s2.next, y)]) && t.id == s.next && t.startInput == q
    ensures Stands(s3, frames, [], s.session.tasks[x := rest + [t]]) && s3.next == s.next + 2 && s3.registered == s.registered
  {
    hide Iterate, RunLoop, CanHand, Generate, OnStack, To, HandoffCall;
    Takes(config, s, frames, x, rest);
    s1 := Iterate(config, s, CALM).state;
    var t1 := NewTask(q, s.next);
    Speaks(config, s1, frames, x, rest, t1, Handing(y));
    ShownHandoff(config, s1.session, x, y);
    m := Generate(config, s1.session, x, false, Handing(y));
    s2 := Iterate(config, s1, Handing(y)).state;
    var t2 := t1.(state := MessageState(Completed, Some(m)), request := None);
    Enters(config, s2, frames, x, rest, t2, m, y);
    s3 := Iterate(config, s2, CALM).state;
    t := t2.(state := ToolState(Running, m, [HandoffUnit(s2.next, y)]), request := None);
  }

  /** Two steps from the tool loop to the change of control, be its target on the stack or not. */
  lemma {:induction false} HandoffEnds(config: Config, s: State, frames: seq<Frame>, x: string, y: string, rest: seq<Task>, t: Task, m: Message, id: nat)
    returns (s1: State, s2: State, q: Input)
    requires At(s, frames, x, rest) && s.session.tasks[x] == rest + [t] && t.state == ToolState(Running, m, [HandoffUnit(id, y)])
    requires CanHand(config, x, y) && s.session.inputQueue == [] && forall o :: o in rest ==> o.id != t.id
    ensures Iterate(config, s, CALM) == Moved(s1) && Iterate(config, s1, CALM) == Moved(s2)
    ensures Stands(s2, frames + [Frame(y, Some(x))], [q], s.session.tasks[x := rest]) && q.event.UserInput? && s2.next == s.next + 1
  {
    hide Iterate, RunLoop, CanHand, To, HandoffCall;
    HandsOff(config, s, frames, x, y, rest, t, m, id);
    s1 := Iterate(config, s, CALM).state;
    var done := t.(state := ToolState(Completed, m, [Handed(HandoffUnit(id, y), x, y)]), request := None);
    HandsOver(config, s1, frames, x, y, rest, done, m, HandoffUnit(id, y));
    s2 := Iterate(config, s1, CALM).state;
    q := Input(s1.next, Some(t.startInput.id), UserInput(""));
    assert [] + [q] == [q];
  }

  /** Five steps from an input to the handoff it leads to. */
  lemma {:induction false} HandoffTurn(config: Config, s: State, frames: seq<Frame>, x: string, y: string, rest: seq<Task>, q: Input, more: seq<Answer>)
    returns (s': State, q': Input)
    requires Ready(s, frames, x, rest, q) && CanHand(config, x, y) && !OnStack(frames, y)
    ensures RunLoop(config, s, HandingOver(y) + more) == RunLoop(config, s', more)
    ensures Stands(s', frames + [Frame(y, Some(x))], [q'], s.session.tasks) && q'.event.UserInput? && s'.next == s.next + 3
  {
    hide Iterate, RunLoop, CanHand, OnStack, To, HandoffCall;
    var s1, s2, s3, t, m := HandoffBegins(config, s, frames, x, y, rest, q);
    var s4, s5, next := HandoffEnds(config, s3, frames, x, y, rest, t, m, s2.next);
    FiveMoves(config, s, s1, s2, s3, s4, s5, y, more);
    s', q' := s5, next;
    assert s.session.tasks[x := rest + [t]][x := rest] == s.session.tasks;
  }

  /** An input that the model answers without calls: control goes back, or stays. */
  lemma {:induction false} PlainTurn(config: Config, s: State, frames: seq<Frame>, x: string, rest: seq<Task>, q: Input, tag: bool, more: seq<Answer>)
    returns (s': State)
    requires Ready(s, frames, x, rest, q) && |frames| > 1
    ensures RunLoop(config, s, [CALM, CALM.(continueTag := tag), CALM] + more) == RunLoop(config, s', more)
    ensures Stands(s', if tag then frames else frames[..|frames| - 1], [], s.session.tasks) && s'.next == s.next + 1
  {
    hide Iterate, RunLoop, Generate;
    var a := CALM.(continueTag := tag);
    Takes(config, s, frames, x, rest);
    var s1, t1 := Iterate(config, s, CALM).state, NewTask(q, s.next);
    Speaks(config, s1, frames, x, rest, t1, a);
    NoCalls(config, s1.session, x, a);
    var m := Generate(config, s1.session, x, false, a);
    var s2, t2 := Iterate(config, s1, a).state, t1.(state := MessageState(Completed, Some(m)), request := None);
    Ends(config, s2, frames, x, rest, t2, m);
    s' := Iterate(config, s2, CALM).state;
    assert [CALM, a, CALM] + more == [CALM] + ([a] + ([CALM] + more));
    OneMove(config, s, CALM, [a] + ([CALM] + more));
    OneMove(config, s1, a, [CALM] + more);
    OneMove(config, s2, CALM, more);
    assert s.session.tasks[x := rest + [t1]][x := rest + [t2]][x := rest] == s.session.tasks;
  }

  lemma {:induction false} NoCalls(config: Config, s: Session, x: string, a: Answer)
    requires a.calls == []
    ensures Generate(config, s, x, false, a).calls == [] && Generate(config, s, x, false, a).continueTag == a.continueTag
  {
  }

  function Interrupted(t: Task, id: nat): Task {
    t.(state := t.state.(status := Paused), request := Some(Request(id, ExceptionResume, Running, None)))
  }

  /** An exception while the handoff is carried out pauses its task. */
  lemma {:induction false} HandoffStops(config: Config, s: State, frames: seq<Frame>, x: string, t: Task)
    requires At(s, frames, x, []) && s.session.tasks[x] == [t] && t.state.ToolState? && Runnable(t)
    ensures RunLoop(config, s, [STOPPED]) == LoopResult(s, CheckpointOf(s), Excepted)
    ensures var r := PauseAfterException(Restored(CheckpointOf(s), s.registered, s.next));
            Stands(r, frames, s.session.inputQueue, s.session.tasks[x := [Interrupted(t, s.next)]]) && r.next == s.next + 1
  {
    hide TaskArtifacts, Work;
    assert [STOPPED][0] == STOPPED;
    assert FirstActive([t]) == 0;
    assert [t][0 := Interrupted(t, s.next)] == [Interrupted(t, s.next)];
    StopsHere(config, s, frames, x, t);
  }

  lemma {:induction false} StopsHere(config: Config, s: State, frames: seq<Frame>, x: string, t: Task)
    requires At(s, frames, x, []) && s.session.tasks[x] == [t] && t.state.ToolState? && Runnable(t)
    ensures Iterate(config, s, STOPPED) == Faulted(s.registered, s.next)
  {
    hide AdvanceRunning, TakeInput;
    assert FirstCompleted([t]) == 1 && FirstRunnable([t]) == 0;
  }

  /** The response is taken over and wakes the paused task, the only one there is. */
  lemma {:induction false} Wakes(config: Config, s: State, frames: seq<Frame>, x: string, t: Task, id: nat, q: Input)
    requires At(s, frames, x, []) && s.session.tasks[x] == [Interrupted(t, id)] && t.state.ToolState? && t.state.status.Running?
    requires s.session.inputQueue == [q] && q.event == InterruptionResponse(id, RetryData)
    requires x in config.agents && forall a :: a in config.agents && a != x ==> TasksOf(s.session, a) == []
    ensures var r := Iterate(config, s, CALM);
            && r.Moved? && Stands(r.state, frames, [], s.session.tasks[x := [Answering(Interrupted(t, id), RetryData)]]) && r.state.next == s.next
  {
    hide FirstCompleted, FirstRunnable;
    var paused := Interrupted(t, id);
    FirstBehind([paused], paused);
    assert [paused][0] == paused && FirstWaiting([paused], id) == 0;
    OnlyOneWaits(s.session, config.agents, x, id);
    assert [paused][0 := Answering(paused, RetryData)] == [Answering(paused, RetryData)];
  }

  lemma {:induction false} OnlyOneWaits(s: Session, agents: seq<string>, x: string, id: nat)
    requires x in agents && FirstWaiting(TasksOf(s, x), id) < |TasksOf(s, x)|
    requires forall a :: a in agents && a != x ==> TasksOf(s, a) == []
    ensures WaitingAgent(s, agents, id) == Some(x)
  {
    if agents[0] != x {
      assert forall a :: a in agents[1..] ==> a in agents;
      OnlyOneWaits(s, agents[1..], x, id);
    }
  }

  // ---- a history that puts an agent on the stack twice ---------------------------------------------

  /** The root hands off to both others, and these to one another. */
  const TRIANGLE := Config("r", ["r", "a", "b"], map[
    "r" := [ToolMeta(To("a"), false, false), ToolMeta(To("b"), false, false)],
    "a" := [ToolMeta(To("b"), false, false)],
    "b" := [ToolMeta(To("a"), false, false)]])

  lemma {:induction false} TriangleHands()
    ensures CanHand(TRIANGLE, "r", "a") && CanHand(TRIANGLE, "r", "b") && CanHand(TRIANGLE, "a", "b") && CanHand(TRIANGLE, "b", "a")
    ensures ConfigOk(TRIANGLE)
  {
    hide IsHitl, To;
    ToIsHandoff("a");
    ToIsHandoff("b");
    assert To("a")[|To("a")| - 1] == 'a' && To("b")[|To("b")| - 1] == 'b' by {
      LastOfTo("a", 'a');
      LastOfTo("b", 'b');
    }
    var tools := TRIANGLE.tools["r"];
    assert tools[1..][0] == ToolMeta(To("b"), false, false);
  }

  lemma {:induction false} LastOfTo(y: string, c: char)
    requires y == [c]
    ensures To(y) != "" && To(y)[|To(y)| - 1] == c
  {
  }

  /** The task of `a` is stopped inside its handoff to `b`; meanwhile `a` gives control back,
      and control goes to `b` and from there to `a`; then the stopped task is retried. */
  function TwiceHistory(): seq<Action> {
    [DoRun(Some(UserInput("one")), HandingOver("a") + [CALM, Handing("b"), CALM, STOPPED]),
     DoRun(Some(UserInput("two")), [CALM, CALM, CALM]),
     DoRun(Some(UserInput("three")), HandingOver("b") + HandingOver("a") + [CALM, CALM.(continueTag := true), CALM]),
     DoRun(Some(InterruptionResponse(6, RetryData)), [CALM, CALM, CALM])]
  }

  const ROOT := Frame("r", None)
  const A_UNDER_R := Frame("a", Some("r"))
  const B_UNDER_R := Frame("b", Some("r"))
  const A_UNDER_B := Frame("a", Some("b"))
  const B_UNDER_A := Frame("b", Some("a"))

  function Tasks(ofA: seq<Task>): map<string, seq<Task>> {
    map["r" := [], "a" := ofA, "b" := []]
  }

  lemma {:induction false} Queued(s: State, event: Event)
    requires s.session.inputQueue == []
    ensures var q := Input(s.next, None, event); var r := Enqueue(s, event, None);
            Stands(r, s.session.frames, [q], s.session.tasks) && r.next == s.next + 1
  {
    assert [] + [Input(s.next, None, event)] == [Input(s.next, None, event)];
  }

  lemma {:induction false} FirstStretch(s: State, q: Input) returns (s': State, t: Task, m: Message, id: nat)
    requires Ready(s, [ROOT], "r", [], q) && s.session.tasks == Tasks([]) && s.next == 1
    ensures RunLoop(TRIANGLE, s, HandingOver("a") + [CALM, Handing("b"), CALM, STOPPED]) == RunLoop(TRIANGLE, s', [STOPPED])
    ensures Stands(s', [ROOT, A_UNDER_R], [], Tasks([t])) && s'.next == 6
    ensures t.state == ToolState(Running, m, [HandoffUnit(id, "b")]) && t.id == 4
  {
    hide RunLoop, Iterate, CanHand, ConfigOk, To, HandoffCall, HandoffUnit;
    TriangleHands();
    var last := [CALM, Handing("b"), CALM, STOPPED];
    var s5, q5 := HandoffTurn(TRIANGLE, s, [ROOT], "r", "a", [], q, last);
    assert [ROOT] + [A_UNDER_R] == [ROOT, A_UNDER_R];
    var s6, s7, s8, t8, m8 := HandoffBegins(TRIANGLE, s5, [ROOT, A_UNDER_R], "a", "b", [], q5);
    assert [] + [t8] == [t8];
    assert last == [CALM] + ([Handing("b")] + ([CALM] + [STOPPED]));
    OneMove(TRIANGLE, s5, CALM, [Handing("b")] + ([CALM] + [STOPPED]));
    OneMove(TRIANGLE, s6, Handing("b"), [CALM] + [STOPPED]);
    OneMove(TRIANGLE, s7, CALM, [STOPPED]);
    s', t, m, id := s8, t8, m8, s7.next;
    assert Tasks([])["a" := [t8]] == Tasks([t8]);
  }

  /** The first run: the root hands to `a`, and an exception stops the handoff of `a`. */
  lemma {:induction false} FirstRun() returns (t: Task, m: Message, id: nat)
    ensures var s := Apply(TRIANGLE, NewWorld(TRIANGLE), TwiceHistory()[0]).state;
            Stands(s, [ROOT, A_UNDER_R], [], Tasks([Interrupted(t, 6)])) && s.next == 7
    ensures t.state == ToolState(Running, m, [HandoffUnit(id, "b")]) && t.id == 4
  {
    hide RunLoop, Iterate, CanHand, ConfigOk, PauseAfterException, HandingOver, To, HandoffCall, HandoffUnit;
    var s := NewWorld(TRIANGLE).state;
    StartTasks();
    Queued(s, UserInput("one"));
    var q, s0 := Input(0, None, UserInput("one")), Enqueue(s, UserInput("one"), None);
    var s', t', m', id' := FirstStretch(s0, q);
    RunnableHandoff(t', m', id', "b");
    HandoffStops(TRIANGLE, s', [ROOT, A_UNDER_R], "a", t');
    t, m, id := t', m', id';
    assert Tasks([t'])["a" := [Interrupted(t', 6)]] == Tasks([Interrupted(t', 6)]);
  }

  lemma {:induction false} StartTasks()
    ensures Stands(NewWorld(TRIANGLE).state, [ROOT], [], Tasks([])) && NewWorld(TRIANGLE).state.next == 0
  {
    var none: seq<Task> := [];
    assert (map a | a in TRIANGLE.agents :: none) == map["r" := none, "a" := none, "b" := none];
  }

  lemma {:induction false} RunnableHandoff(t: Task, m: Message, id: nat, y: string)
    requires t.state == ToolState(Running, m, [HandoffUnit(id, y)])
    ensures t.state.ToolState? && Runnable(t)
  {
  }

  /** The second run: another input of `a` is answered, and control goes back to the root. */
  lemma {:induction false} SecondRun(w: World, t: Task)
    requires Stands(w.state, [ROOT, A_UNDER_R], [], Tasks([Interrupted(t, 6)])) && w.state.next == 7 && t.id == 4
    ensures var s := Apply(TRIANGLE, w, TwiceHistory()[1]).state;
            Stands(s, [ROOT], [], Tasks([Interrupted(t, 6)])) && s.next == 9
  {
    hide RunLoop, Iterate;
    Queued(w.state, UserInput("two"));
    var q, s0 := Input(7, None, UserInput("two")), Enqueue(w.state, UserInput("two"), None);
    var s3 := PlainTurn(TRIANGLE, s0, [ROOT, A_UNDER_R], "a", [Interrupted(t, 6)], q, false, []);
    RunEnds(s3);
    assert [CALM, CALM.(continueTag := false), CALM] + [] == [CALM, CALM, CALM];
    assert [ROOT, A_UNDER_R][..1] == [ROOT];
  }

  lemma {:induction false} RunEnds(s: State)
    ensures RunLoop(TRIANGLE, s, []) == LoopResult(s, CheckpointOf(s), Unfinished)
  {
  }

  /** The third run: the root hands to `b`, `b` hands to `a`, and `a` keeps control. */
  lemma {:induction false} ThirdRun(w: World, t: Task)
    requires Stands(w.state, [ROOT], [], Tasks([Interrupted(t, 6)])) && w.state.next == 9 && t.id == 4
    ensures var s := Apply(TRIANGLE, w, TwiceHistory()[2]).state;
            Stands(s, [ROOT, B_UNDER_R, A_UNDER_B], [], Tasks([Interrupted(t, 6)])) && s.next == 17
  {
    hide RunLoop, Iterate, CanHand, ConfigOk;
    TriangleHands();
    Queued(w.state, UserInput("three"));
    var q, s0 := Input(9, None, UserInput("three")), Enqueue(w.state, UserInput("three"), None);
    var last := [CALM, CALM.(continueTag := true), CALM];
    var s5, q5 := HandoffTurn(TRIANGLE, s0, [ROOT], "r", "b", [], q, HandingOver("a") + last);
    assert [ROOT] + [B_UNDER_R] == [ROOT, B_UNDER_R];
    var s10, q10 := HandoffTurn(TRIANGLE, s5, [ROOT, B_UNDER_R], "b", "a", [], q5, last);
    assert [ROOT, B_UNDER_R] + [A_UNDER_B] == [ROOT, B_UNDER_R, A_UNDER_B];
    var s13 := PlainTurn(TRIANGLE, s10, [ROOT, B_UNDER_R, A_UNDER_B], "a", [Interrupted(t, 6)], q10, true, []);
    RunEnds(s13);
    assert HandingOver("b") + (HandingOver("a") + last) == HandingOver("b") + HandingOver("a") + last && last + [] == last;
  }

  /** The fourth run: the stopped task is retried, and its handoff is carried out. */
  lemma {:induction false} FourthRun(w: World, t: Task, m: Message, id: nat)
    requires Stands(w.state, [ROOT, B_UNDER_R, A_UNDER_B], [], Tasks([Interrupted(t, 6)])) && w.state.next == 17 && t.id == 4
    requires t.state == ToolState(Running, m, [HandoffUnit(id, "b")])
    ensures Apply(TRIANGLE, w, TwiceHistory()[3]).state.session.frames == [ROOT, B_UNDER_R, A_UNDER_B, B_UNDER_A]
  {
    hide RunLoop, Iterate, CanHand, ConfigOk;
    TriangleHands();
    var frames := [ROOT, B_UNDER_R, A_UNDER_B];
    Queued(w.state, InterruptionResponse(6, RetryData));
    var q, s0 := Input(17, None, InterruptionResponse(6, RetryData)), Enqueue(w.state, InterruptionResponse(6, RetryData), None);
    Wakes(TRIANGLE, s0, frames, "a", t, 6, q);
    var s1, woken := Iterate(TRIANGLE, s0, CALM).state, Answering(Interrupted(t, 6), RetryData);
    assert [] + [woken] == [woken];
    var s2, s3, q3 := HandoffEnds(TRIANGLE, s1, frames, "a", "b", [], woken, m, id);
    assert [CALM, CALM, CALM] == [CALM] + ([CALM] + ([CALM] + []));
    OneMove(TRIANGLE, s0, CALM, [CALM] + ([CALM] + []));
    OneMove(TRIANGLE, s1, CALM, [CALM] + []);
    OneMove(TRIANGLE, s2, CALM, []);
    RunEnds(s3);
    assert frames + [B_UNDER_A] == [ROOT, B_UNDER_R, A_UNDER_B, B_UNDER_A];
  }

  /** So an agent can stand on the stack twice: a handoff that was stopped while its target
      was free is carried out when the target has control already. */
  lemma {:induction false} AgentStandsTwice()
    ensures ConfigOk(TRIANGLE)
    ensures ApplyAll(TRIANGLE, NewWorld(TRIANGLE), TwiceHistory()).state.session.frames == [ROOT, B_UNDER_R, A_UNDER_B, B_UNDER_A]
  {
    hide Apply, ConfigOk, TwiceHistory, NewWorld;
    TriangleHands();
    var h := TwiceHistory();
    FourActions(h);
    var t, m, id := FirstRun();
    var w1 := Apply(TRIANGLE, NewWorld(TRIANGLE), h[0]);
    SecondRun(w1, t);
    var w2 := Apply(TRIANGLE, w1, h[1]);
    ThirdRun(w2, t);
    FourthRun(Apply(TRIANGLE, w2, h[2]), t, m, id);
  }

  lemma {:induction false} FourActions(h: seq<Action>)
    requires h == TwiceHistory()
    ensures |h| == 4 && ApplyAll(TRIANGLE, NewWorld(TRIANGLE), h)
         == Apply(TRIANGLE, Apply(TRIANGLE, Apply(TRIANGLE, Apply(TRIANGLE, NewWorld(TRIANGLE), h[0]), h[1]), h[2]), h[3])
  {
    hide Apply, NewWorld;
    var h3, h2, h1 := h[..3], h[..2], h[..1];
    assert h3[..2] == h2 && h2[..1] == h1 && h1[..0] == [];
    assert ApplyAll(TRIANGLE, NewWorld(TRIANGLE), h1) == Apply(TRIANGLE, NewWorld(TRIANGLE), h[0]);
    assert ApplyAll(TRIANGLE, NewWorld(TRIANGLE), h2) == Apply(TRIANGLE, ApplyAll(TRIANGLE, NewWorld(TRIANGLE), h1), h[1]);
    assert ApplyAll(TRIANGLE, NewWorld(TRIANGLE), h3) == Apply(TRIANGLE, ApplyAll(TRIANGLE, NewWorld(TRIANGLE), h2), h[2]);
  }
}
