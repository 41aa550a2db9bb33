/** What holds after every history of runs, exceptions, restarts and clean-ups. */
module KernelTheorems {
  import opened Common
  import opened KernelModels
  import opened ToolUnits
  import opened ToolExecution
  import opened KernelSteps
  import opened KernelInvariant
  import opened KernelPreserved
  import opened KernelHistory
  import opened KernelHistoryKept
  import opened KernelLoading

  // ---- histories ------------------------------------------------------------------------

  /** The runtime between two actions: its state and the last rollback point. */
  datatype World = World(state: State, saved: Checkpoint)

  /** A run with the answers it gets (it may be killed when they end), an exception
      before the first checkpoint of a run, the clean-up after a run, and a new
      process that loads the saved session. */
  datatype Action = DoRun(event: Option<Event>, answers: seq<Answer>) | EarlyException | DoFinish | Reload(resume: bool)

  function Recovered(c: Checkpoint, registered: set<(string, string)>, next: nat): World {
    var paused := PauseAfterException(Restored(c, registered, next));
    World(paused, CheckpointOf(paused))
  }

  function Finished(s: State): State {
    if s.session.frames == [] then s else FinishRun(s)
  }

  function Apply(config: Config, w: World, action: Action): World {
    match action
    case DoRun(event, answers) => var r := Run(config, w.state, event, answers); World(r.state, r.checkpoint)
    case EarlyException => Recovered(w.saved, w.state.registered, w.state.next)
    case DoFinish => w.(state := Finished(w.state))
    case Reload(resume) =>
      var loaded := w.state.(session := Loaded(config, w.state.session));
      var s := (if resume then loaded else Finished(loaded)).(registered := {});
      World(s, CheckpointOf(s))
  }

  function ApplyAll(config: Config, w: World, actions: seq<Action>): World {
    if actions == [] then w
    else Apply(config, ApplyAll(config, w, actions[..|actions| - 1]), actions[|actions| - 1])
  }

  /** A new session: the root alone, nothing queued, nothing done. */
  function NewWorld(config: Config): World {
    var s := State(Session([Frame(config.root, None)], [], [], map a | a in config.agents :: []), [], {}, 0);
    World(s, CheckpointOf(s))
  }

  // ---- the invariant ------------------------------------------------------------------------

  ghost predicate Sound(config: Config, s: State) {
    LocalOk(config, s) && GlobalOk(s) && Recorded(config, s)
  }

  ghost predicate Safe(config: Config, w: World) {
    Sound(config, w.state) && Sound(config, Restored(w.saved, w.state.registered, w.state.next))
  }

  lemma {:induction false} OkGrows(config: Config, s: State, registered: set<(string, string)>, next: nat)
    requires Sound(config, s) && next >= s.next && RegisteredOk(registered)
    ensures Sound(config, s.(registered := registered, next := next))
  {
    hide InOrder, AllAccounted, RequestsOk, LocalOk;
    LocalGrows(config, s, registered, next);
    GlobalQuiet(s, s.(registered := registered, next := next));
  }

  lemma {:induction false} EnqueueSound(config: Config, s: State, event: Event)
    requires Sound(config, s)
    ensures Sound(config, Enqueue(s, event, None))
  {
    hide LocalOk, GlobalOk, Recorded, Enqueue;
    EnqueueOk(config, s, event, None);
    GlobalEnqueue(s, event, None);
    EnqueueRecorded(config, s, event, None);
  }

  lemma {:induction false} IterateOk(config: Config, s: State, a: Answer)
    requires ConfigOk(config) && Sound(config, s)
    ensures match Iterate(config, s, a)
            case Idle => true
            case Moved(s') => Sound(config, s') && s'.next >= s.next
            case Faulted(registered, next) => RegisteredOk(registered) && next >= s.next
  {
    hide ConfigOk, Work, GlobalOk, TasksOk, Recorded;
    var w := Work(config, s, a);
    WorkOk(config, s, a);
    if w.Moved? {
      WorkGlobal(config, s, a);
      WorkRecorded(config, s, a);
    }
  }

  /** Every state at the head of the loop, and the state a rollback would restore. */
  lemma {:induction false} LoopOk(config: Config, s: State, answers: seq<Answer>)
    requires ConfigOk(config) && Sound(config, s)
    ensures var r := RunLoop(config, s, answers);
            && r.state.next >= s.next
            && Sound(config, Restored(r.checkpoint, r.state.registered, r.state.next))
            && (!r.end.Excepted? ==> Sound(config, r.state) && r.checkpoint == CheckpointOf(r.state))
    decreases |answers|
  {
    hide ConfigOk, Sound, Iterate;
    if answers != [] {
      IterateOk(config, s, answers[0]);
      match Iterate(config, s, answers[0]) {
        case Idle =>
        case Faulted(registered, next) => OkGrows(config, s, registered, next);
        case Moved(s') => LoopOk(config, s', answers[1..]);
      }
    }
  }

  lemma {:induction false} RunOk(config: Config, s: State, event: Option<Event>, answers: seq<Answer>)
    requires ConfigOk(config) && Sound(config, s)
    ensures var r := Run(config, s, event, answers);
            Sound(config, r.state) && r.checkpoint == CheckpointOf(r.state)
  {
    hide Sound, PauseAfterException;
    var ready := if event.Some? then Enqueue(s, event.value, None) else s;
    if event.Some? {
      EnqueueSound(config, s, event.value);
    }
    var r := RunLoop(config, ready, answers);
    LoopOk(config, ready, answers);
    PauseOk(config, Restored(r.checkpoint, r.state.registered, r.state.next), r.end.Excepted?);
  }

  lemma {:induction false} PauseOk(config: Config, s: State, really: bool)
    requires ConfigOk(config) && (really ==> Sound(config, s))
    ensures really ==> Sound(config, PauseAfterException(s))
  {
    if really {
      PauseAfterExceptionOk(config, s);
      GlobalPause(s);
      TopIsKnown(config, s);
      PauseRecorded(config, s);
    }
  }

  lemma {:induction false} FinishedOk(config: Config, s: State)
    requires Sound(config, s)
    ensures Sound(config, Finished(s)) && Finished(s).next == s.next && Finished(s).registered == s.registered
  {
    GlobalFinish(config, s);
    FinishRecorded(config, s);
  }

  lemma {:induction false} LoadedSound(config: Config, s: State)
    requires ConfigOk(config) && Sound(config, s)
    ensures Sound(config, s.(session := Loaded(config, s.session)))
  {
    LoadedOk(config, s);
  }

  lemma {:induction false} RestoredIsState(s: State)
    ensures Restored(CheckpointOf(s), s.registered, s.next) == s
  {
  }

  lemma {:induction false} ApplySafe(config: Config, w: World, action: Action)
    requires ConfigOk(config) && Safe(config, w)
    ensures Safe(config, Apply(config, w, action))
  {
    hide ConfigOk, Sound, Run, PauseAfterException, Finished;
    RestoredIsState(Apply(config, w, action).state);
    match action {
      case DoRun(event, answers) => RunOk(config, w.state, event, answers);
      case EarlyException => PauseOk(config, Restored(w.saved, w.state.registered, w.state.next), true);
      case DoFinish => FinishedOk(config, w.state);
      case Reload(resume) =>
        var loaded := w.state.(session := Loaded(config, w.state.session));
        LoadedSound(config, w.state);
        FinishedOk(config, loaded);
        var s := if resume then loaded else Finished(loaded);
        OkGrows(config, s, {}, s.next);
    }
  }

  /** The main invariant: after every history the session is sound, and so is the one
      a rollback would restore. */
  lemma {:induction false} AlwaysSafe(config: Config, actions: seq<Action>)
    requires ConfigOk(config)
    ensures Safe(config, ApplyAll(config, NewWorld(config), actions))
  {
    hide ConfigOk, Safe, Apply;
    if actions == [] {
      NewWorldSafe(config);
    } else {
      AlwaysSafe(config, actions[..|actions| - 1]);
      ApplySafe(config, ApplyAll(config, NewWorld(config), actions[..|actions| - 1]), actions[|actions| - 1]);
    }
  }

  lemma {:induction false} NewWorldSafe(config: Config)
    requires ConfigOk(config)
    ensures Safe(config, NewWorld(config))
  {
  }
}
