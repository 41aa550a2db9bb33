/** The history the runtime writes is a list of rounds, and what these say to the model keeps
    the tool-call protocol exactly as far as every call was answered. */
module KernelChronicle {
  import opened Common
  import opened KernelModels
  import opened ToolUnits
  import opened ToolExecution
  import opened KernelSteps
  import opened KernelInvariant
  import opened KernelPreserved
  import opened KernelHistoryKept
  import opened KernelLoading
  import opened KernelTheorems
  import opened ToolRounds
  import opened ToolHistories

  /** The history is what paused and closed tasks left, one round each. */
  ghost predicate Chronicle(history: seq<Artifact>) {
    exists rs: seq<Made> :: RoundsOf(rs) == history && forall r :: r in rs ==> IsMade(r)
  }

  lemma {:induction false} ChronicleGrows(history: seq<Artifact>, r: Made)
    requires Chronicle(history) && IsMade(r)
    ensures Chronicle(history + RoundOf(r))
  {
    hide IsMade, RoundOf;
    var rs: seq<Made> :| RoundsOf(rs) == history && forall x :: x in rs ==> IsMade(x);
    assert (rs + [r])[..|rs|] == rs;
    assert RoundsOf(rs + [r]) == history + RoundOf(r);
  }

  // ---- what one task leaves -------------------------------------------------------------------

  /** A paused task leaves its input and the request. */
  lemma {:induction false} PauseIsMade(owner: string, t: Task)
    requires t.state.status.Paused? && t.request.Some?
    ensures var r := Made(owner, t.startInput, [InterruptionArtifact(owner, t.request.value)], []);
            IsMade(r) && RoundOf(r) == TaskArtifacts(owner, t)
  {
    assert IsShort([InterruptionArtifact(owner, t.request.value)]);
  }

  /** A completed task leaves its input and a last word or a finished tool loop. */
  lemma {:induction false} CompletedIsBody(config: Config, owner: string, log: seq<Entry>, next: nat, t: Task)
    requires TaskOk(config, owner, log, next, t) && t.state.status.Completed?
    requires t.state.MessageState? ==> t.state.message.Some? && t.state.message.value.calls == []
    ensures IsBody(TaskArtifacts(owner, t)[1..]) && TaskArtifacts(owner, t) == [InputArtifact(owner, t.startInput)] + TaskArtifacts(owner, t)[1..]
  {
    hide LoopArtifacts, InRounds, Gated, MessageOk, HandoffOk, ToolIdOk;
    var body := TaskArtifacts(owner, t)[1..];
    if t.state.MessageState? {
      assert body == [AssistantArtifact(owner, t.state.message.value)];
    } else {
      var units := t.state.units;
      forall u | u in units ensures u.IsFinished() && UnitOk(config, owner, log, u) {
        var k :| 0 <= k < |units| && units[k] == u;
        assert k < NextUnit(units);
      }
      assert AllDone(t.state.callMessage.calls, units);
      assert body == [ToolCallArtifact(owner, t.state.callMessage)] + LoopArtifacts(owner, units);
    }
  }

  lemma {:induction false} CloseIsMade(s: State, agent: string, t: Task) returns (r: Made)
    requires s.session.frames != [] && CloseTask(s, agent, t).Moved?
    requires IsBody(TaskArtifacts(agent, t)[1..]) && TaskArtifacts(agent, t) == [InputArtifact(agent, t.startInput)] + TaskArtifacts(agent, t)[1..]
    ensures IsMade(r) && CloseTask(s, agent, t).state.session.history == s.session.history + RoundOf(r)
  {
    hide TaskArtifacts, IsBody, FrameChangeOf, RemoveTask, FramesAfter;
    var body := TaskArtifacts(agent, t)[1..];
    var change := FrameChangeOf(s.session.frames, t.state);
    r := Made(agent, t.startInput, body, if change.Some? then [FrameArtifact(agent, change.value)] else []);
    assert RoundOf(r) == TaskArtifacts(agent, t) + r.tail;
    assert s.session.history + (TaskArtifacts(agent, t) + r.tail) == s.session.history + TaskArtifacts(agent, t) + r.tail;
  }

  // ---- every step ---------------------------------------------------------------------------------

  lemma {:induction false} RunningWrites(config: Config, s: State, agent: string, k: nat, a: Answer)
    requires k < |TasksOf(s.session, agent)| && Runnable(TasksOf(s.session, agent)[k]) && Chronicle(s.session.history)
    requires AdvanceRunning(config, s, agent, k, a).Moved?
    ensures Chronicle(AdvanceRunning(config, s, agent, k, a).state.session.history)
  {
    hide ExecuteTool, RegisteredAfter, Generate, BuildUnits, NextUnit, Chronicle, TaskArtifacts, RoundOf, IsMade, AllFinished;
    var s' := AdvanceRunning(config, s, agent, k, a).state;
    if s'.session.history != s.session.history {
      var t := TasksOf(s'.session, agent)[k];
      PauseIsMade(agent, t);
      ChronicleGrows(s.session.history, Made(agent, t.startInput, [InterruptionArtifact(agent, t.request.value)], []));
    }
  }

  lemma {:induction false} TakeWrites(config: Config, s: State)
    requires s.session.inputQueue != [] && s.session.frames != [] && TakeInput(config, s).Moved?
    ensures TakeInput(config, s).state.session.history == s.session.history
  {
  }

  /** One iteration adds a round to the history or none. */
  lemma {:induction false} WorkWrites(config: Config, s: State, a: Answer)
    requires ConfigOk(config) && LocalOk(config, s) && Chronicle(s.session.history) && Work(config, s, a).Moved?
    ensures Chronicle(Work(config, s, a).state.session.history)
  {
    hide ConfigOk, LocalOk, Chronicle, AdvanceRunning, TakeInput, CloseTask, BuildUnits, Runnable, TaskArtifacts, IsBody, IsMade, RoundOf, TaskOk;
    TopIsKnown(config, s);
    var agent := TopAgent(s.session);
    var tasks := TasksOf(s.session, agent);
    var c, r := FirstCompleted(tasks), FirstRunnable(tasks);
    if c < |tasks| {
      if !(tasks[c].state.MessageState? && tasks[c].state.message.value.calls != []) {
        LocalTask(config, s, agent, c);
        CompletedIsBody(config, agent, s.log, s.next, tasks[c]);
        var made := CloseIsMade(s, agent, tasks[c]);
        ChronicleGrows(s.session.history, made);
      }
    } else if r < |tasks| {
      RunningWrites(config, s, agent, r, a);
    } else {
      TakeWrites(config, s);
    }
  }

  lemma {:induction false} LocalTask(config: Config, s: State, agent: string, k: nat)
    requires LocalOk(config, s) && k < |TasksOf(s.session, agent)|
    ensures TaskOk(config, agent, s.log, s.next, TasksOf(s.session, agent)[k])
  {
    hide TaskOk, FramesOk;
    TheTask(config, s, agent, k);
  }

  lemma {:induction false} PauseWrites(s: State)
    requires Chronicle(s.session.history)
    ensures Chronicle(PauseAfterException(s).session.history)
  {
    hide Chronicle, TaskArtifacts, RoundOf, IsMade;
    if CanPause(s) {
      var agent := TopAgent(s.session);
      var k := FirstActive(TasksOf(s.session, agent));
      var t := TasksOf(PauseAfterException(s).session, agent)[k];
      PauseIsMade(agent, t);
      ChronicleGrows(s.session.history, Made(agent, t.startInput, [InterruptionArtifact(agent, t.request.value)], []));
    }
  }

  lemma {:induction false} LoopWrites(config: Config, s: State, answers: seq<Answer>)
    requires ConfigOk(config) && Sound(config, s) && Chronicle(s.session.history)
    ensures var r := RunLoop(config, s, answers); Chronicle(r.checkpoint.session.history) && Chronicle(r.state.session.history)
    decreases |answers|
  {
    hide ConfigOk, LocalOk, GlobalOk, Recorded, Work, Chronicle;
    if answers != [] {
      var a := answers[0];
      IterateOk(config, s, a);
      if Iterate(config, s, a).Moved? {
        WorkWrites(config, s, a);
        LoopWrites(config, Iterate(config, s, a).state, answers[1..]);
      }
    }
  }

  lemma {:induction false} RunWrites(config: Config, s: State, event: Option<Event>, answers: seq<Answer>)
    requires ConfigOk(config) && Sound(config, s) && Chronicle(s.session.history)
    ensures var r := Run(config, s, event, answers); Chronicle(r.state.session.history) && Chronicle(r.checkpoint.session.history)
  {
    hide ConfigOk, Sound, RunLoop, Chronicle, PauseAfterException;
    var ready := if event.Some? then Enqueue(s, event.value, None) else s;
    if event.Some? {
      EnqueueSound(config, s, event.value);
    }
    LoopWrites(config, ready, answers);
    var r := RunLoop(config, ready, answers);
    PauseWrites(Restored(r.checkpoint, r.state.registered, r.state.next));
  }

  ghost predicate Written(w: World) {
    Chronicle(w.state.session.history) && Chronicle(w.saved.session.history)
  }

  lemma {:induction false} ApplyWrites(config: Config, w: World, action: Action)
    requires ConfigOk(config) && Safe(config, w) && Written(w)
    ensures Written(Apply(config, w, action))
  {
    hide ConfigOk, Sound, Run, PauseAfterException, Chronicle, Discards, Abandons, PausedOnly;
    match action {
      case DoRun(event, answers) => RunWrites(config, w.state, event, answers);
      case EarlyException => PauseWrites(Restored(w.saved, w.state.registered, w.state.next));
      case DoFinish =>
      case Reload(resume) =>
    }
  }

  lemma {:induction false} AlwaysWritten(config: Config, actions: seq<Action>)
    requires ConfigOk(config)
    ensures Written(ApplyAll(config, NewWorld(config), actions))
  {
    hide ConfigOk, Safe, Apply, Written;
    if actions == [] {
      NewIsWritten(config);
    } else {
      AlwaysSafe(config, actions[..|actions| - 1]);
      AlwaysWritten(config, actions[..|actions| - 1]);
      ApplyWrites(config, ApplyAll(config, NewWorld(config), actions[..|actions| - 1]), actions[|actions| - 1]);
    }
  }

  lemma {:induction false} NewIsWritten(config: Config)
    ensures Written(NewWorld(config))
  {
    var none: seq<Made> := [];
    assert RoundsOf(none) == [];
  }

  // ---- the result ------------------------------------------------------------------------------------

  /** Over every history of runs: what was written is a list of rounds, and for any of these
      in any selection, told one behind the other, the model is told every answer before the
      next word, exactly if only the last round leaves calls unanswered, with nothing said
      behind them. */
  lemma {:induction false} HistoriesTalk(config: Config, actions: seq<Action>) returns (rs: seq<Made>)
    requires ConfigOk(config)
    ensures RoundsOf(rs) == ApplyAll(config, NewWorld(config), actions).state.session.history
    ensures forall told: seq<Made> :: (forall r :: r in told ==> r in rs) ==> (Talk(Messages(RoundsOf(told)), [], 0) <==> AnsweredBut(told))
  {
    hide ApplyAll, IsMade, Talk, Messages, AnsweredBut;
    AlwaysWritten(config, actions);
    rs :| RoundsOf(rs) == ApplyAll(config, NewWorld(config), actions).state.session.history && forall r :: r in rs ==> IsMade(r);
    forall told: seq<Made> | forall r :: r in told ==> r in rs ensures Talk(Messages(RoundsOf(told)), [], 0) <==> AnsweredBut(told) {
      TalkOfRounds(told);
    }
  }
}
