/** Inputs over whole histories: taken in order, one task each, never lost from sight. */
module KernelInputs {
  import opened Common
  import opened KernelModels
  import opened ToolUnits
  import opened ToolExecution
  import opened KernelSteps
  import opened KernelInvariant
  import opened KernelPreserved
  import opened KernelHistory
  import opened KernelHistoryKept
  import opened KernelTheorems

  // ---- order ------------------------------------------------------------------------------

  lemma {:induction false} TakenGrows(log: seq<Entry>, n: nat)
    requires n <= |log|
    ensures TakenUsers(log[..n]) <= TakenUsers(log)
  {
    if n < |log| {
      assert log[..|log| - 1][..n] == log[..n];
      TakenGrows(log[..|log| - 1], n);
    } else {
      assert log[..n] == log;
    }
  }

  predicate Takes(e: Entry) {
    (e.Started? || e.Discarded?) && e.input.event.UserInput?
  }

  /** Where the input taken by entry `n` stands in the order of departures. */
  lemma {:induction false} TakenAt(log: seq<Entry>, n: nat)
    requires n < |log| && Takes(log[n])
    ensures |TakenUsers(log[..n])| < |TakenUsers(log)|
    ensures TakenUsers(log)[|TakenUsers(log[..n])|] == log[n].input
    ensures |TakenUsers(log[..n + 1])| == |TakenUsers(log[..n])| + 1
  {
    assert log[..n + 1][..n] == log[..n];
    TakenGrows(log, n + 1);
  }

  lemma {:induction false} ArrivedAreDistinct(log: seq<Entry>)
    requires OnceEach(log)
    ensures forall x :: x in ArrivedUsers(log) ==> Arrived(x) in log
    ensures forall i, j :: 0 <= i < j < |ArrivedUsers(log)| ==> ArrivedUsers(log)[i].id != ArrivedUsers(log)[j].id
  {
    if log != [] {
      var front, last := log[..|log| - 1], log[|log| - 1];
      assert forall k :: 0 <= k < |front| ==> front[k] == log[k];
      ArrivedAreDistinct(front);
      assert log == front + [last];
      var a := ArrivedUsers(front);
      if last.Arrived? {
        forall i | 0 <= i < |a| ensures a[i].id != last.input.id {
          assert a[i] in a;
          var k :| 0 <= k < |front| && front[k] == Arrived(a[i]);
          assert log[k].Arrived? && log[|front|].Arrived?;
        }
      }
    }
  }

  /** The user inputs that have left the queue are the first that arrived, in the order
      they arrived; the others are the queue. */
  lemma {:induction false} InputsInArrivalOrder(config: Config, actions: seq<Action>)
    requires ConfigOk(config)
    ensures var s := ApplyAll(config, NewWorld(config), actions).state;
            ArrivedUsers(s.log) == TakenUsers(s.log) + QueuedUsers(s.session.inputQueue)
  {
    hide ConfigOk, LocalOk, RequestsOk, AllAccounted, ApplyAll;
    AlwaysSafe(config, actions);
  }

  /** No user input starts two tasks, and none that was discarded starts one. */
  lemma {:induction false} OneTaskPerInput(config: Config, s: State, m: nat, n: nat)
    requires Sound(config, s) && m < n < |s.log| && Takes(s.log[m]) && Takes(s.log[n])
    ensures s.log[m].input.id != s.log[n].input.id
  {
    hide LocalOk, DistinctTasks, UniqueWaiting, WaitingUnanswered, IdsKnown, AllAccounted, OnceEach;
    TakenAt(s.log, m);
    TakenAt(s.log, n);
    TakenGrows(s.log[..n], m + 1);
    assert s.log[..n][..m + 1] == s.log[..m + 1];
    ArrivedAreDistinct(s.log);
    var i, j := |TakenUsers(s.log[..m])|, |TakenUsers(s.log[..n])|;
    assert i < j;
    assert ArrivedUsers(s.log)[i] == s.log[m].input && ArrivedUsers(s.log)[j] == s.log[n].input;
  }

  // ---- accounting -----------------------------------------------------------------------------

  /** After every history each accepted user input is queued, is what a live task started
      from, stands in the history, or was dropped by a clean-up on record. */
  lemma {:induction false} NoInputLostFromSight(config: Config, actions: seq<Action>, input: Input)
    requires ConfigOk(config) && input.event.UserInput?
    requires Arrived(input) in ApplyAll(config, NewWorld(config), actions).state.log
    ensures Accounted(ApplyAll(config, NewWorld(config), actions).state, input)
  {
    hide ConfigOk, LocalOk, RequestsOk, InOrder, ApplyAll, Accounted;
    AlwaysSafe(config, actions);
  }

  /** Only a clean-up drops an input: no iteration of the loop does. */
  lemma {:induction false} LoopDropsNothing(config: Config, s: State, a: Answer, input: Input)
    requires Iterate(config, s, a).Moved?
    requires Discarded(input) in Iterate(config, s, a).state.log || Abandoned(input) in Iterate(config, s, a).state.log
    ensures Discarded(input) in s.log || Abandoned(input) in s.log
  {
    hide ExecuteTool, TaskArtifacts, RemoveTask, Generate, BuildUnits, FrameChangeOf, Runnable;
  }

  // ---- an input that is dropped ------------------------------------------------------------------

  const ALONE := Config("main", ["main"], map["main" := []])
  const FIRST := Input(0, None, UserInput("first"))
  const SECOND := Input(1, None, UserInput("second"))
  const CALM := Answer(NoCrash, [], false, true, true, false, None)
  const CRASH := Answer(DuringCall, [], false, true, true, false, None)

  /** A run is killed before its input is taken; the next run takes it over, fails in
      the model call and is cleaned up. */
  function LossyHistory(): seq<Action> {
    [DoRun(Some(UserInput("first")), []), Reload(true), DoRun(Some(UserInput("second")), [CALM, CRASH]), DoFinish]
  }

  /** So an accepted input can be dropped: after an exception the clean-up discards the
      inputs still queued. */
  lemma {:induction false} ExceptionThenFinishDropsInput()
    ensures var s := ApplyAll(ALONE, NewWorld(ALONE), LossyHistory()).state;
            ConfigOk(ALONE) && Arrived(SECOND) in s.log && Discarded(SECOND) in s.log
            && SECOND !in s.session.inputQueue
  {
    hide RunLoop, PauseAfterException, FinishRun, ApplyAll;
    var h := LossyHistory();
    assert h[..0] == [] && h[..4] == h;
    NothingApplied();
    forall n: nat | n < 4 {
      OneMore(h, n);
    }
    var w1, w2, w3 := ApplyAll(ALONE, NewWorld(ALONE), h[..1]), ApplyAll(ALONE, NewWorld(ALONE), h[..2]), ApplyAll(ALONE, NewWorld(ALONE), h[..3]);
    assert w1 == Apply(ALONE, NewWorld(ALONE), h[0]) && w2 == Apply(ALONE, w1, h[1]) && w3 == Apply(ALONE, w2, h[2]);
    FirstRun(w1);
    SecondRun(w2.state);
    LastFinish(w3.state);
  }

  lemma {:induction false} NothingApplied()
    ensures ApplyAll(ALONE, NewWorld(ALONE), []) == NewWorld(ALONE)
  {
  }

  lemma {:induction false} OneMore(h: seq<Action>, n: nat)
    requires n < |h|
    ensures ApplyAll(ALONE, NewWorld(ALONE), h[..n + 1]) == Apply(ALONE, ApplyAll(ALONE, NewWorld(ALONE), h[..n]), h[n])
  {
    assert h[..n + 1][..n] == h[..n];
  }

  lemma {:induction false} FirstRun(w: World)
    requires w == Apply(ALONE, NewWorld(ALONE), DoRun(Some(UserInput("first")), []))
    ensures w.state == State(Session([Frame("main", None)], [FIRST], [], map["main" := []]), [Arrived(FIRST)], {}, 1)
  {
    var none: seq<Task> := [];
    assert (map a | a in ALONE.agents :: none) == map["main" := none];
  }

  function Waiting(): State {
    State(Session([Frame("main", None)], [SECOND], [], map["main" := [NewTask(FIRST, 2)]]),
          [Arrived(FIRST), Arrived(SECOND), Started(FIRST, 2)], {}, 3)
  }

  lemma {:induction false} SecondRun(s: State)
    requires s == State(Session([Frame("main", None)], [FIRST], [], map["main" := []]), [Arrived(FIRST)], {}, 1)
    ensures Run(ALONE, s, Some(UserInput("second")), [CALM, CRASH]).state == PauseAfterException(Waiting())
  {
    hide PauseAfterException;
    var ready := Enqueue(s, UserInput("second"), None);
    assert ready.session.inputQueue == [FIRST, SECOND] && ready.session.inputQueue[1..] == [SECOND];
    assert TopAgent(ready.session) == "main" && TasksOf(ready.session, "main") == [];
    assert Work(ALONE, ready, CALM) == TakeInput(ALONE, ready);
    assert TasksOf(ready.session, "main") + [NewTask(FIRST, 2)] == [NewTask(FIRST, 2)];
    assert ready.session.tasks["main" := [NewTask(FIRST, 2)]] == map["main" := [NewTask(FIRST, 2)]];
    assert ready.log + [Started(FIRST, 2)] == Waiting().log;
    assert ready.session.inputQueue[0] == FIRST && FIRST.event.UserInput?;
    assert TakeInput(ALONE, ready).state.session == Waiting().session;
    assert TakeInput(ALONE, ready) == Moved(Waiting());
    assert Iterate(ALONE, ready, CALM) == Moved(Waiting());
    assert Iterate(ALONE, Waiting(), CRASH).Faulted? && Iterate(ALONE, Waiting(), CRASH).next == 3;
    assert [CALM, CRASH][1..] == [CRASH];
    assert RunLoop(ALONE, Waiting(), [CRASH]).checkpoint == CheckpointOf(Waiting());
  }

  lemma {:induction false} LastFinish(s: State)
    requires s == PauseAfterException(Waiting())
    ensures Discarded(SECOND) in Finished(s).log && Arrived(SECOND) in Finished(s).log && Finished(s).session.inputQueue == []
  {
    hide TaskArtifacts, Abandons;
    assert Waiting().log[1] == Arrived(SECOND);
    assert s.log == Waiting().log + [Raised(3, None)];
    assert s.log[1] == Arrived(SECOND);
    assert Discards([SECOND]) == [Discarded(SECOND)];
    assert Finished(s).log == s.log + [Discarded(SECOND)] + Abandons(TasksOf(s.session, "main"));
    assert Finished(s).log[1] == Arrived(SECOND) && Finished(s).log[|s.log|] == Discarded(SECOND);
  }
}
