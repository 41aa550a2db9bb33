/** One iteration of the main loop as a function of the state, and what a rollback
    and the end of a run do to it. */
module KernelSteps {
  import opened Common
  import opened KernelModels
  import opened ToolUnits
  import opened ToolExecution

  /** What has happened and has been kept, in order. */
  datatype Entry =
    | Arrived(input: Input)
    | Started(input: Input, task: nat)
    | Raised(request: nat, exe: Option<nat>)
    | Answered(request: nat, data: ResponseData)
    | Discarded(input: Input)
    | Abandoned(input: Input)

  datatype State = State(session: Session, log: seq<Entry>, registered: set<(string, string)>, next: nat)

  /** The end of one iteration: a checkpointed state, nothing to do, or an exception
      of which only the used ids and the registered tools survive. */
  datatype Outcome = Moved(state: State) | Idle | Faulted(registered: set<(string, string)>, next: nat)

  // ---- reading the session ---------------------------------------------------------

  function TopAgent(s: Session): string
    requires s.frames != []
  {
    s.frames[|s.frames| - 1].agent
  }

  function TasksOf(s: Session, agent: string): seq<Task> {
    if agent in s.tasks then s.tasks[agent] else []
  }

  function SetTask(s: Session, agent: string, k: nat, t: Task): Session
    requires k < |TasksOf(s, agent)|
  {
    s.(tasks := s.tasks[agent := s.tasks[agent][k := t]])
  }

  /** The first unit still to be executed, or the number of units. */
  function NextUnit(units: seq<Unit>): (n: nat)
    ensures n <= |units|
    ensures n < |units| ==> units[n].status.UnitPending?
    ensures forall j :: 0 <= j < n ==> !units[j].status.UnitPending?
  {
    if units == [] then 0
    else if units[0].status.UnitPending? then 0
    else 1 + NextUnit(units[1..])
  }

  predicate Runnable(t: Task) {
    t.state.status.Running? && (t.state.ToolState? ==> NextUnit(t.state.units) < |t.state.units|)
  }

  predicate IsPaused(t: Task) {
    t.state.status.Paused?
  }

  function FirstCompleted(tasks: seq<Task>): (n: nat)
    ensures n <= |tasks|
    ensures n < |tasks| ==> tasks[n].state.status.Completed?
    ensures forall j :: 0 <= j < n ==> !tasks[j].state.status.Completed?
  {
    if tasks == [] then 0
    else if tasks[0].state.status.Completed? then 0
    else 1 + FirstCompleted(tasks[1..])
  }

  function FirstRunnable(tasks: seq<Task>): (n: nat)
    ensures n <= |tasks|
    ensures n < |tasks| ==> Runnable(tasks[n])
    ensures forall j :: 0 <= j < n ==> !Runnable(tasks[j])
  {
    if tasks == [] then 0
    else if Runnable(tasks[0]) then 0
    else 1 + FirstRunnable(tasks[1..])
  }

  predicate Waits(t: Task, requestId: nat) {
    t.state.status.Paused? && t.request.Some? && t.request.value.id == requestId
  }

  function FirstWaiting(tasks: seq<Task>, requestId: nat): (n: nat)
    ensures n <= |tasks|
    ensures n < |tasks| ==> Waits(tasks[n], requestId)
    ensures forall j :: 0 <= j < n ==> !Waits(tasks[j], requestId)
  {
    if tasks == [] then 0
    else if Waits(tasks[0], requestId) then 0
    else 1 + FirstWaiting(tasks[1..], requestId)
  }

  /** The first agent in order with a task waiting for the request. */
  function WaitingAgent(s: Session, agents: seq<string>, requestId: nat): (r: Option<string>)
    ensures r.Some? ==> r.value in agents && FirstWaiting(TasksOf(s, r.value), requestId) < |TasksOf(s, r.value)|
    ensures r.None? ==> forall a :: a in agents ==> FirstWaiting(TasksOf(s, a), requestId) == |TasksOf(s, a)|
  {
    if agents == [] then None
    else if FirstWaiting(TasksOf(s, agents[0]), requestId) < |TasksOf(s, agents[0])| then Some(agents[0])
    else WaitingAgent(s, agents[1..], requestId)
  }

  // ---- artifacts ---------------------------------------------------------------------

  function UnitArtifacts(owner: string, u: Unit): seq<Artifact> {
    if !u.IsFinished() then []
    else if u.LlmUnit? then [ToolLlmArtifact(owner, u)]
    else if u.fromLlm then [ToolExeArtifact(owner, u)]
    else []
  }

  function LoopArtifacts(owner: string, units: seq<Unit>): seq<Artifact> {
    if units == [] then []
    else LoopArtifacts(owner, units[..|units| - 1]) + UnitArtifacts(owner, units[|units| - 1])
  }

  /** `build_task_artifacts`: what a task leaves in the history when it is paused or
      complete. */
  function TaskArtifacts(owner: string, t: Task): (r: seq<Artifact>)
    ensures r != [] && r[0] == InputArtifact(owner, t.startInput)
  {
    [InputArtifact(owner, t.startInput)] +
    if t.state.status.Paused? && t.request.Some? then [InterruptionArtifact(owner, t.request.value)]
    else if t.state.MessageState? then
      if t.state.status.Completed? && t.state.message.Some? then [AssistantArtifact(owner, t.state.message.value)] else []
    else [ToolCallArtifact(owner, t.state.callMessage)] + LoopArtifacts(owner, t.state.units)
  }

  // ---- inputs ---------------------------------------------------------------------------

  /** A new input joins the queue. */
  function Enqueue(s: State, event: Event, origin: Option<nat>): State {
    var input := Input(s.next, origin, event);
    s.(session := s.session.(inputQueue := s.session.inputQueue + [input]),
       log := s.log + [Arrived(input)], next := s.next + 1)
  }

  function ClearRequest(t: Task): Task {
    if t.state.status.Paused? then t else t.(request := None)
  }

  function Answering(t: Task, data: ResponseData): Task
    requires t.request.Some?
  {
    t.(request := Some(t.request.value.(response := Some(data))),
       state := t.state.(status := t.request.value.originStatus))
  }

  /** `_apply_interruption_response`. */
  function ApplyResponse(config: Config, s: State, requestId: nat, data: ResponseData): State {
    var agent := WaitingAgent(s.session, config.agents, requestId);
    if agent.None? then s
    else
      var k := FirstWaiting(TasksOf(s.session, agent.value), requestId);
      var t := TasksOf(s.session, agent.value)[k];
      if t.request.value.response.Some? then s
      else s.(session := SetTask(s.session, agent.value, k, Answering(t, data)),
              log := s.log + [Answered(requestId, data)])
  }

  function NewTask(input: Input, id: nat): Task {
    Task(id, MessageState(Running, None), input, None)
  }

  /** `_process_new_input`: the input at the head of the queue is taken over. */
  function TakeInput(config: Config, s: State): (r: Outcome)
    requires s.session.inputQueue != [] && s.session.frames != []
    ensures !r.Idle? && (r.Faulted? ==> r.registered == s.registered && r.next == s.next)
  {
    var input := s.session.inputQueue[0];
    var popped := s.(session := s.session.(inputQueue := s.session.inputQueue[1..]));
    match input.event
    case UserInput(_) =>
      var agent := TopAgent(s.session);
      Moved(popped.(session := popped.session.(
                      tasks := s.session.tasks[agent := TasksOf(s.session, agent) + [NewTask(input, s.next)]]),
                    log := s.log + [Started(input, s.next)], next := s.next + 1))
    case InterruptionResponse(requestId, data) => Moved(ApplyResponse(config, popped, requestId, data))
    case EnvironmentMessage => Faulted(s.registered, s.next)
  }

  // ---- the model's turn --------------------------------------------------------------------

  predicate HasPaused(tasks: seq<Task>) {
    exists t | t in tasks :: t.state.status.Paused?
  }

  /** The message the model writes: tool calls only of a round where tools are shown. */
  function Generate(config: Config, s: Session, agent: string, noToolCall: bool, a: Answer): Message {
    var available := if noToolCall then [] else ShownTools(ToolsOf(config, agent), s.frames, HasPaused(TasksOf(s, agent)));
    Message(if available == [] then [] else a.calls, available, a.continueTag)
  }

  // ---- control frames --------------------------------------------------------------------------

  function LastHandoff(units: seq<Unit>): Option<FrameChange> {
    if units == [] then None
    else
      var u := units[|units| - 1];
      if u.ToolUnit? && u.result.Some? then u.result.value.handoff else None
  }

  /** `_get_completed_task_message`. */
  function CompletedMessage(t: TaskState): Option<Message> {
    if t.MessageState? then t.message
    else if t.units == [] then None
    else
      var u := t.units[|t.units| - 1];
      if u.LlmUnit? then u.message else None
  }

  /** `_build_task_agent_frame_change`. */
  function FrameChangeOf(frames: seq<Frame>, t: TaskState): Option<FrameChange> {
    if t.ToolState? && LastHandoff(t.units).Some? then LastHandoff(t.units)
    else if |frames| <= 1 then None
    else
      var message := CompletedMessage(t);
      if message.None? || message.value.continueTag then None
      else Some(Pop(frames[|frames| - 1].agent, frames[|frames| - 2].agent, false))
  }

  function FramesAfter(frames: seq<Frame>, change: FrameChange): seq<Frame>
    requires frames != []
  {
    if change.Push? then frames + [Frame(change.target, Some(frames[|frames| - 1].agent))]
    else frames[..|frames| - 1]
  }

  /** `_change_agent_frame`: a handoff wakes its target with an empty input. */
  function ChangeFrame(s: State, t: Task, change: FrameChange): State
    requires s.session.frames != []
  {
    var moved := s.(session := s.session.(frames := FramesAfter(s.session.frames, change)));
    if change.Push? || change.byTool then Enqueue(moved, UserInput(""), Some(t.startInput.id)) else moved
  }

  function RemoveTask(tasks: seq<Task>, id: nat): seq<Task> {
    if tasks == [] then []
    else
      var front := RemoveTask(tasks[..|tasks| - 1], id);
      if tasks[|tasks| - 1].id == id then front else front + [tasks[|tasks| - 1]]
  }

  // ---- a completed task ---------------------------------------------------------------------------

  /** A message with tool calls becomes a tool loop. */
  function EnterToolLoop(config: Config, s: State, agent: string, k: nat): State
    requires k < |TasksOf(s.session, agent)|
    requires var t := TasksOf(s.session, agent)[k].state; t.MessageState? && t.message.Some?
  {
    var t := TasksOf(s.session, agent)[k];
    var message := t.state.message.value;
    var built := BuildUnits(ToolsOf(config, agent), message, s.next);
    s.(session := SetTask(s.session, agent, k, t.(state := ToolState(Running, message, built.units), request := None)),
       next := built.next)
  }

  /** A task is closed: its artifacts join the history, control changes hands, and
      it is removed. */
  function CloseTask(s: State, agent: string, t: Task): (r: Outcome)
    requires s.session.frames != []
    ensures !r.Idle? && (r.Faulted? ==> r.registered == s.registered && r.next == s.next)
  {
    var saved := s.session.history + TaskArtifacts(agent, t);
    var change := FrameChangeOf(s.session.frames, t.state);
    var history := if change.Some? then saved + [FrameArtifact(agent, change.value)] else saved;
    var recorded := s.(session := s.session.(history := history));
    if change.Some? && change.value.source != TopAgent(s.session) then Faulted(s.registered, s.next)
    else
      var changed := if change.Some? then ChangeFrame(recorded, t, change.value) else recorded;
      Moved(changed.(session := changed.session.(
        tasks := changed.session.tasks[agent := RemoveTask(TasksOf(changed.session, agent), t.id)])))
  }

  function AdvanceCompleted(config: Config, s: State, agent: string, k: nat): (r: Outcome)
    requires s.session.frames != [] && k < |TasksOf(s.session, agent)|
    ensures !r.Idle? && (r.Faulted? ==> r.registered == s.registered && r.next == s.next)
  {
    var t := TasksOf(s.session, agent)[k];
    if t.state.MessageState? && t.state.message.None? then Faulted(s.registered, s.next)
    else if t.state.MessageState? && t.state.message.value.calls != [] then Moved(EnterToolLoop(config, s, agent, k))
    else CloseTask(s, agent, t)
  }

  // ---- a running task -------------------------------------------------------------------------------

  function AdvanceMessage(config: Config, s: State, agent: string, k: nat, a: Answer): State
    requires k < |TasksOf(s.session, agent)| && TasksOf(s.session, agent)[k].state.MessageState?
  {
    var t := TasksOf(s.session, agent)[k];
    var message := Generate(config, s.session, agent, false, a);
    s.(session := SetTask(s.session, agent, k, t.(state := MessageState(Completed, Some(message)), request := None)))
  }

  predicate AllFinished(units: seq<Unit>) {
    forall u | u in units :: u.IsFinished()
  }

  /** A task whose unit `n` has been executed. */
  function WithUnits(t: Task, units: seq<Unit>): Task
    requires t.state.ToolState?
  {
    var status := if AllFinished(units) then Completed else t.state.status;
    t.(state := t.state.(status := status, units := units))
  }

  function AdvanceLlmUnit(config: Config, s: State, agent: string, k: nat, n: nat, a: Answer): State
    requires k < |TasksOf(s.session, agent)| && TasksOf(s.session, agent)[k].state.ToolState?
    requires n < |TasksOf(s.session, agent)[k].state.units| && TasksOf(s.session, agent)[k].state.units[n].LlmUnit?
  {
    var t := TasksOf(s.session, agent)[k];
    var u := t.state.units[n];
    var message := Generate(config, s.session, agent, u.noToolCall, a);
    var built := if message.calls == [] then Built([], s.next, false)
                 else BuildUnits(ToolsOf(config, agent), message, s.next);
    var units := t.state.units[n := u.(status := UnitCompleted, message := Some(message))] + built.units;
    s.(session := SetTask(s.session, agent, k, ClearRequest(WithUnits(t, units))), next := built.next)
  }

  /** Raising an asynchronous request pauses the task. */
  function PauseForRequest(s: State, agent: string, k: nat, n: nat): State
    requires k < |TasksOf(s.session, agent)| && TasksOf(s.session, agent)[k].state.ToolState?
    requires n < |TasksOf(s.session, agent)[k].state.units| && TasksOf(s.session, agent)[k].state.units[n].ToolUnit?
  {
    var t := TasksOf(s.session, agent)[k];
    var u := t.state.units[n].(status := UnitPending, requestId := Some(s.next), result := Some(ToolResult(Waiting, None)));
    var paused := t.(state := t.state.(status := Paused, units := t.state.units[n := u]),
                     request := Some(Request(s.next, AsyncToolRequest, t.state.status, None)));
    s.(session := SetTask(s.session.(history := s.session.history + TaskArtifacts(agent, paused)), agent, k, paused),
       log := s.log + [Raised(s.next, Some(u.id))], next := s.next + 1)
  }

  function FinishToolUnit(s: State, agent: string, k: nat, n: nat, e: Execution): State
    requires k < |TasksOf(s.session, agent)| && TasksOf(s.session, agent)[k].state.ToolState? && e.Executed?
    requires n < |TasksOf(s.session, agent)[k].state.units| && TasksOf(s.session, agent)[k].state.units[n].ToolUnit?
  {
    var t := TasksOf(s.session, agent)[k];
    var u := t.state.units[n].(status := e.status, result := Some(e.result));
    var done := s.(session := SetTask(s.session, agent, k, ClearRequest(WithUnits(t, t.state.units[n := u]))));
    if e.event.Some? then Enqueue(done, e.event.value, None) else done
  }

  function EnvOf(config: Config, s: State, agent: string): Env {
    Env(config, agent, s.session.frames, s.registered)
  }

  function AdvanceToolUnit(config: Config, s: State, agent: string, k: nat, n: nat, a: Answer): Outcome
    requires k < |TasksOf(s.session, agent)| && TasksOf(s.session, agent)[k].state.ToolState?
    requires n < |TasksOf(s.session, agent)[k].state.units| && TasksOf(s.session, agent)[k].state.units[n].ToolUnit?
  {
    var t := TasksOf(s.session, agent)[k];
    var e := ExecuteTool(EnvOf(config, s, agent), t.state.units, n, t.request, a);
    var fetched := s.(registered := RegisteredAfter(EnvOf(config, s, agent), t.state.units[n]));
    match e
    case Broken => Faulted(fetched.registered, s.next)
    case Requested => Moved(PauseForRequest(fetched, agent, k, n))
    case Executed(_, _, _) => Moved(FinishToolUnit(fetched, agent, k, n, e))
  }

  function AdvanceRunning(config: Config, s: State, agent: string, k: nat, a: Answer): (r: Outcome)
    requires k < |TasksOf(s.session, agent)| && Runnable(TasksOf(s.session, agent)[k])
    ensures !r.Idle?
  {
    var t := TasksOf(s.session, agent)[k];
    if t.state.MessageState? then Moved(AdvanceMessage(config, s, agent, k, a))
    else
      var n := NextUnit(t.state.units);
      if t.state.units[n].LlmUnit? then Moved(AdvanceLlmUnit(config, s, agent, k, n, a))
      else AdvanceToolUnit(config, s, agent, k, n, a)
  }

  // ---- one iteration ------------------------------------------------------------------------------------

  function Work(config: Config, s: State, a: Answer): Outcome {
    if s.session.frames == [] then Faulted(s.registered, s.next)
    else
      var agent := TopAgent(s.session);
      var tasks := TasksOf(s.session, agent);
      var c := FirstCompleted(tasks);
      if c < |tasks| then AdvanceCompleted(config, s, agent, c)
      else
        var r := FirstRunnable(tasks);
        if r < |tasks| then AdvanceRunning(config, s, agent, r, a)
        else if s.session.inputQueue == [] then Idle
        else TakeInput(config, s)
  }

  /** An exception on the way, or while the checkpoint is saved, makes the iteration
      void. */
  function Iterate(config: Config, s: State, a: Answer): Outcome {
    var work := Work(config, s, a);
    if work.Idle? || a.crash.NoCrash? then work
    else if a.crash.DuringCall? then Faulted(s.registered, s.next)
    else if work.Faulted? then work
    else Faulted(work.state.registered, work.state.next)
  }

  // ---- around the loop -------------------------------------------------------------------------------------

  /** The part of the state a checkpoint keeps. */
  datatype Checkpoint = Checkpoint(session: Session, log: seq<Entry>)

  function CheckpointOf(s: State): Checkpoint {
    Checkpoint(s.session, s.log)
  }

  function FirstActive(tasks: seq<Task>): (n: nat)
    ensures n <= |tasks|
    ensures n < |tasks| ==> !tasks[n].state.status.Paused?
    ensures forall j :: 0 <= j < n ==> tasks[j].state.status.Paused?
  {
    if tasks == [] then 0
    else if !tasks[0].state.status.Paused? then 0
    else 1 + FirstActive(tasks[1..])
  }

  /** The state restored from a checkpoint; ids and registered tools stay as they are. */
  function Restored(c: Checkpoint, registered: set<(string, string)>, next: nat): State {
    State(c.session, c.log, registered, next)
  }

  predicate CanPause(s: State) {
    s.session.frames != [] && FirstActive(TasksOf(s.session, TopAgent(s.session))) < |TasksOf(s.session, TopAgent(s.session))|
  }

  /** `_pause_task_after_exception` after the rollback: the first active task of the
      top agent waits for a retry. Without such a task the state stays as restored. */
  function PauseAfterException(s: State): State {
    if !CanPause(s) then s
    else
      var agent := TopAgent(s.session);
      var tasks := TasksOf(s.session, agent);
      var k := FirstActive(tasks);
      var paused := tasks[k].(state := tasks[k].state.(status := Paused),
                              request := Some(Request(s.next, ExceptionResume, tasks[k].state.status, None)));
      s.(session := SetTask(s.session.(history := s.session.history + TaskArtifacts(agent, paused)), agent, k, paused),
         log := s.log + [Raised(s.next, None)], next := s.next + 1)
  }

  function PausedOnly(tasks: seq<Task>): seq<Task> {
    if tasks == [] then []
    else
      var front := PausedOnly(tasks[..|tasks| - 1]);
      if tasks[|tasks| - 1].state.status.Paused? then front + [tasks[|tasks| - 1]] else front
  }

  /** `clean_state`: the queue and the unfinished tasks of the top agent are dropped. */
  function Clean(s: Session): Session
    requires s.frames != []
  {
    s.(inputQueue := [], tasks := s.tasks[TopAgent(s) := PausedOnly(TasksOf(s, TopAgent(s)))])
  }

  function Discards(queue: seq<Input>): seq<Entry> {
    if queue == [] then [] else Discards(queue[..|queue| - 1]) + [Discarded(queue[|queue| - 1])]
  }

  function Abandons(tasks: seq<Task>): seq<Entry> {
    if tasks == [] then []
    else
      var last := tasks[|tasks| - 1];
      Abandons(tasks[..|tasks| - 1]) + if last.state.status.Paused? then [] else [Abandoned(last.startInput)]
  }

  /** `finish`, with a record of what it drops. */
  function FinishRun(s: State): State
    requires s.session.frames != []
  {
    s.(session := Clean(s.session),
       log := s.log + Discards(s.session.inputQueue) + Abandons(TasksOf(s.session, TopAgent(s.session))))
  }

  // ---- a run of the loop ---------------------------------------------------------------------------------------

  datatype LoopEnd = Drained | Excepted | Unfinished

  /** Where the loop gets with the given answers, one per iteration: the state, how it
      ended, and the last checkpoint. */
  datatype LoopResult = LoopResult(state: State, checkpoint: Checkpoint, end: LoopEnd)

  function RunLoop(config: Config, s: State, answers: seq<Answer>): LoopResult
    decreases |answers|
  {
    if answers == [] then LoopResult(s, CheckpointOf(s), Unfinished)
    else
      match Iterate(config, s, answers[0])
      case Idle => LoopResult(s, CheckpointOf(s), Drained)
      case Faulted(registered, next) => LoopResult(s.(registered := registered, next := next), CheckpointOf(s), Excepted)
      case Moved(s') => RunLoop(config, s', answers[1..])
  }

  /** `run`: the new input joins what the last run left in the queue, the loop goes as
      far as it gets, and an exception is turned into a paused task. */
  function Run(config: Config, s: State, event: Option<Event>, answers: seq<Answer>): LoopResult {
    var ready := if event.Some? then Enqueue(s, event.value, None) else s;
    var r := RunLoop(config, ready, answers);
    if !r.end.Excepted? then r
    else
      var paused := PauseAfterException(Restored(r.checkpoint, r.state.registered, r.state.next));
      LoopResult(paused, CheckpointOf(paused), Excepted)
  }
}
