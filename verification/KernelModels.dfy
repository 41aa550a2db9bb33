/** The resumable session of the kernel: inputs, tasks, execution units, the
    control-frame stack and the history. */
module KernelModels {
  import opened Common

  // ---- inputs and interruptions -------------------------------------------------

  /** What an interruption response carries back. */
  datatype ResponseData = RetryData | AsyncData(option: string)

  datatype Event =
    | UserInput(content: string)
    | InterruptionResponse(requestId: nat, data: ResponseData)
    | EnvironmentMessage

  /** An input package; its first event decides what it does. */
  datatype Input = Input(id: nat, origin: Option<nat>, event: Event)

  datatype TaskStatus = Running | Paused | Completed

  datatype RequestKind = ExceptionResume | AsyncToolRequest

  datatype Request = Request(id: nat, kind: RequestKind, originStatus: TaskStatus, response: Option<ResponseData>)

  // ---- tool calls and execution units ----------------------------------------------

  /** Ids the model chose, and ids the runtime generated for its own calls. */
  datatype CallId = FromModel(text: string) | Generated(n: nat)

  datatype ToolCall = ToolCall(id: CallId, name: Option<string>, error: bool)

  /** `available` are the tools the model was shown when it wrote the message. */
  datatype Message = Message(calls: seq<ToolCall>, available: seq<string>, continueTag: bool)

  datatype FrameChange = Push(source: string, target: string) | Pop(source: string, target: string, byTool: bool)

  datatype ToolStatus = Success | Failure | Waiting

  datatype ToolResult = ToolResult(status: ToolStatus, handoff: Option<FrameChange>)

  datatype UnitStatus = UnitPending | UnitRunning | UnitCompleted | UnitFailed

  datatype Unit =
    | ToolUnit(id: nat, status: UnitStatus, toolId: string, call: ToolCall, fromLlm: bool,
               requestId: Option<nat>, result: Option<ToolResult>)
    | LlmUnit(id: nat, status: UnitStatus, noToolCall: bool, message: Option<Message>)
  {
    predicate IsFinished() {
      status.UnitCompleted? || status.UnitFailed?
    }

    function WithStatus(s: UnitStatus): Unit {
      this.(status := s)
    }
  }

  // ---- tasks and the session -----------------------------------------------------------

  datatype TaskState =
    | MessageState(status: TaskStatus, message: Option<Message>)
    | ToolState(status: TaskStatus, callMessage: Message, units: seq<Unit>)
  {
    function WithStatus(s: TaskStatus): TaskState {
      this.(status := s)
    }
  }

  datatype Task = Task(id: nat, state: TaskState, startInput: Input, request: Option<Request>)

  datatype Frame = Frame(agent: string, from: Option<string>)

  datatype Artifact =
    | InputArtifact(owner: string, input: Input)
    | AssistantArtifact(owner: string, message: Message)
    | ToolCallArtifact(owner: string, message: Message)
    | ToolExeArtifact(owner: string, exe: Unit)
    | ToolLlmArtifact(owner: string, exe: Unit)
    | FrameArtifact(owner: string, change: FrameChange)
    | InterruptionArtifact(owner: string, request: Request)

  datatype Session = Session(
    frames: seq<Frame>, inputQueue: seq<Input>, history: seq<Artifact>, tasks: map<string, seq<Task>>)

  // ---- the static configuration -----------------------------------------------------------

  datatype ToolMeta = ToolMeta(id: string, requiresConfirmation: bool, isAsync: bool)

  /** The reachable agents in order and the tools registered with each. */
  datatype Config = Config(root: string, agents: seq<string>, tools: map<string, seq<ToolMeta>>)

  const HITL_PREFIX := "_hitl_"
  const HANDOFF_PREFIX := "_handoff_agent_"
  const HANDOFF_RETURN := "_handoff_return"
  const RESUME_TASK := "_resume_task"
  const APPROVE := "approve"

  predicate IsHitl(toolId: string) {
    HITL_PREFIX <= toolId
  }

  function HitlId(toolId: string): string {
    HITL_PREFIX + toolId
  }

  predicate IsHandoffId(toolId: string) {
    HANDOFF_PREFIX <= toolId
  }

  function HandoffTarget(toolId: string): string {
    if IsHandoffId(toolId) then toolId[|HANDOFF_PREFIX|..] else toolId
  }

  // ---- what the world outside answers -----------------------------------------------------

  /** Where an iteration of the main loop breaks off with an exception. */
  datatype Crash = NoCrash | DuringCall | BeforeCheckpoint

  /** The outside world in one iteration: what the model writes, whether a tool's
      arguments and hooks let it run, what its body returns, and failures. */
  datatype Answer = Answer(
    crash: Crash, calls: seq<ToolCall>, continueTag: bool,
    accepted: bool, handled: bool, bodyFailed: bool, event: Option<Event>)
}
