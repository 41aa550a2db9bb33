/** The blocks of the chat page: built live from the event stream, and again from the
    events the server keeps. */
module ChatBlocks {
  import opened Common

  // ---- events ------------------------------------------------------------------------------

  datatype ToolInfo = ToolInfo(callId: string, name: string, details: string)

  datatype Event =
    | Input(id: string)
    | MessageDelta(id: string, text: string)
    | MessagePartial(id: string, text: string, reasoning: string)
    | MessageFinal(id: string, text: string, reasoning: string)
    | ToolCall(id: string, tool: ToolInfo)
    | ToolResultStart(id: string, tool: ToolInfo)
    | ToolResult(id: string, tool: ToolInfo, success: bool)
    | CompressionStart(id: string, level: nat)
    | CompressionFinal(id: string, level: nat, merged: bool)
    | Interrupted(id: string, requestId: string, approvalFor: string)
    | Complete(id: string, duration: nat)
    | AgentFrameChange(id: string)
    | ActivityIndicator(id: string, title: string)

  /** `_filter_history_events`: the kinds of events that survive a reload. */
  predicate IsStored(e: Event) {
    e.Input? || e.MessageFinal? || e.ToolCall? || e.ToolResultStart? || e.ToolResult? || e.CompressionFinal?
    || e.Interrupted? || e.Complete? || e.AgentFrameChange?
  }

  function Stored(events: seq<Event>): seq<Event> {
    if events == [] then []
    else if IsStored(events[0]) then [events[0]] + Stored(events[1..])
    else Stored(events[1..])
  }

  // ---- blocks --------------------------------------------------------------------------------

  datatype Role = MessageRole | ToolRole | ToolStartRole | ToolResultRole | CompressionRole | InterruptedRole | ActivityRole

  /** A block id is an event or call id with a role behind it. */
  datatype BlockId = BlockId(owner: string, role: Role)

  datatype LabelState = Loading | Normal

  datatype Block =
    | Text(id: BlockId, content: string, reasoning: string, event: Event)
    | ToolLabel(id: BlockId, callId: string, title: string, subtitle: string, state: LabelState,
                approvalPending: Option<Event>, details: seq<Event>)
    | CompressionLabel(id: BlockId, state: LabelState, event: Event)
    | ActivityLabel(id: BlockId, event: Event)
    | InterruptedBlock(id: BlockId, requestId: string, resolved: Option<string>, event: Event)
    | CompletionBlock(duration: nat, event: Event)
    | ThinkingBlock
    | LiveCompletionBlock
    | ErrorBlock(text: string)

  type Blocks = seq<Block>

  /** Blocks of the current page's end and completions have ids of their own. */
  predicate IsLabelled(b: Block) {
    b.Text? || b.ToolLabel? || b.CompressionLabel? || b.ActivityLabel? || b.InterruptedBlock?
  }

  predicate HasId(b: Block, id: BlockId) {
    IsLabelled(b) && b.id == id
  }

  /** The first text block of an id, or the length. */
  function TextIndex(blocks: Blocks, id: BlockId): (i: nat)
    ensures i <= |blocks|
    ensures i < |blocks| ==> blocks[i].Text? && blocks[i].id == id
    ensures forall j :: 0 <= j < i ==> !(blocks[j].Text? && blocks[j].id == id)
  {
    if blocks == [] then 0
    else if blocks[0].Text? && blocks[0].id == id then 0
    else 1 + TextIndex(blocks[1..], id)
  }

  function IdIndex(blocks: Blocks, id: BlockId): (i: nat)
    ensures i <= |blocks|
    ensures i < |blocks| ==> HasId(blocks[i], id)
    ensures forall j :: 0 <= j < i ==> !HasId(blocks[j], id)
  {
    if blocks == [] || HasId(blocks[0], id) then 0 else 1 + IdIndex(blocks[1..], id)
  }

  function MessageId(id: string): BlockId {
    BlockId(id, MessageRole)
  }

  /** `appendDelta`. */
  function AppendDelta(blocks: Blocks, e: Event): Blocks
    requires e.MessageDelta?
  {
    var i := TextIndex(blocks, MessageId(e.id));
    if i == |blocks| then blocks + [Text(MessageId(e.id), e.text, "", e)]
    else blocks[i := Text(blocks[i].id, blocks[i].content + e.text, blocks[i].reasoning, e)]
  }

  /** `applyMessageFinal`, for finals and partials: an empty text removes the block. */
  function PutText(blocks: Blocks, b: Block): Blocks
    requires b.Text?
  {
    var i := TextIndex(blocks, b.id);
    if b.content == "" && b.reasoning == "" then
      if i == |blocks| then blocks else blocks[..i] + blocks[i + 1..]
    else if i == |blocks| then blocks + [b]
    else blocks[i := b]
  }

  /** `upsertBlock`. */
  function Upsert(blocks: Blocks, b: Block): Blocks
    requires IsLabelled(b)
  {
    var i := IdIndex(blocks, b.id);
    if i == |blocks| then blocks + [b] else blocks[i := b]
  }

  /** The last label of a tool call, -1 if there is none. */
  function LastToolLabel(blocks: Blocks, callId: string): (i: int)
    ensures -1 <= i < |blocks|
    ensures i >= 0 ==> blocks[i].ToolLabel? && blocks[i].callId == callId
    ensures forall j :: i < j < |blocks| ==> !(blocks[j].ToolLabel? && blocks[j].callId == callId)
  {
    if blocks == [] then -1
    else
      var b := blocks[|blocks| - 1];
      if b.ToolLabel? && b.callId == callId then |blocks| - 1 else LastToolLabel(blocks[..|blocks| - 1], callId)
  }

  /** `findLastToolLabelIndex`. */
  method FindLastToolLabelIndex(blocks: Blocks, callId: string) returns (index: int)
    ensures index == LastToolLabel(blocks, callId)
  {
    index := |blocks| - 1;
    assert blocks[..|blocks|] == blocks;
    while index >= 0
      invariant -1 <= index < |blocks|
      invariant LastToolLabel(blocks, callId) == LastToolLabel(blocks[..index + 1], callId)
    {
      assert blocks[..index + 1][..index] == blocks[..index];
      var b := blocks[index];
      if b.ToolLabel? && b.callId == callId {
        return;
      }
      index := index - 1;
    }
  }

  /** The title of a result whose call has no label. */
  const TOOL_RESULT_TITLE := "\U{5DE5}\U{5177}\U{7ED3}\U{679C}"

  function NewLabel(id: BlockId, e: Event, state: LabelState): Block
    requires e.ToolCall? || e.ToolResultStart?
  {
    ToolLabel(id, e.tool.callId, e.tool.name, e.tool.details, state, None, [e])
  }

  function StartTool(blocks: Blocks, e: Event): Blocks
    requires e.ToolResultStart?
  {
    var i := LastToolLabel(blocks, e.tool.callId);
    if i >= 0 && blocks[i].approvalPending.None? then blocks
    else blocks + [NewLabel(BlockId(e.id, ToolStartRole), e, Loading)]
  }

  function CompleteTool(blocks: Blocks, e: Event): Blocks
    requires e.ToolResult?
  {
    var i := LastToolLabel(blocks, e.tool.callId);
    if i < 0 then blocks + [ToolLabel(BlockId(e.id, ToolResultRole), e.tool.callId, TOOL_RESULT_TITLE, e.tool.details, Normal, None, [e])]
    else blocks[i := ToolLabel(blocks[i].id, e.tool.callId, blocks[i].title, e.tool.details, Normal, None, blocks[i].details + [e])]
  }

  /** `markApprovalPendingTool` on one block. */
  function MarkBlock(b: Block, e: Event): Block
    requires e.Interrupted?
  {
    if !b.ToolLabel? then b
    else if b.title != e.approvalFor then b.(state := Normal, details := b.details)
    else b.(state := Normal, approvalPending := Some(e))
  }

  function MarkApproval(blocks: Blocks, e: Event): (r: Blocks)
    requires e.Interrupted?
    ensures |r| == |blocks|
  {
    if e.approvalFor == "" then blocks
    else seq(|blocks|, k requires 0 <= k < |blocks| => MarkBlock(blocks[k], e))
  }

  function CompletionIndex(blocks: Blocks): (i: nat)
    ensures i <= |blocks|
    ensures i < |blocks| ==> blocks[i].CompletionBlock?
    ensures forall j :: 0 <= j < i ==> !blocks[j].CompletionBlock?
  {
    if blocks == [] || blocks[0].CompletionBlock? then 0 else 1 + CompletionIndex(blocks[1..])
  }

  function AddCompletion(blocks: Blocks, e: Event): Blocks
    requires e.Complete?
  {
    var i := CompletionIndex(blocks);
    if i == |blocks| then blocks + [CompletionBlock(e.duration, e)] else blocks[i := CompletionBlock(e.duration, e)]
  }

  predicate IsHandoffTool(e: Event) {
    (e.ToolCall? || e.ToolResultStart? || e.ToolResult?) && "_handoff" <= e.tool.name
  }

  /** `applyEventToBlocks`. */
  function ApplyEvent(blocks: Blocks, e: Event): Blocks {
    if IsHandoffTool(e) then blocks
    else
      match e
      case MessageDelta(_, _) => AppendDelta(blocks, e)
      case MessagePartial(id, text, reasoning) => PutText(blocks, Text(MessageId(id), text, reasoning, e))
      case MessageFinal(id, text, reasoning) => PutText(blocks, Text(MessageId(id), text, reasoning, e))
      case ToolCall(_, tool) => Upsert(blocks, NewLabel(BlockId(tool.callId, ToolRole), e, Loading))
      case ToolResultStart(_, _) => StartTool(blocks, e)
      case ToolResult(_, _, _) => CompleteTool(blocks, e)
      case CompressionStart(id, _) => Upsert(blocks, CompressionLabel(BlockId(id, CompressionRole), Loading, e))
      case CompressionFinal(id, _, _) => Upsert(blocks, CompressionLabel(BlockId(id, CompressionRole), Normal, e))
      case Interrupted(id, requestId, _) =>
        Upsert(MarkApproval(blocks, e), InterruptedBlock(BlockId(id, InterruptedRole), requestId, None, e))
      case Complete(_, _) => AddCompletion(blocks, e)
      case ActivityIndicator(id, _) => Upsert(blocks, ActivityLabel(BlockId(id, ActivityRole), e))
      case Input(_) => blocks
      case AgentFrameChange(_) => blocks
  }

  function ToBlocks(start: Blocks, events: seq<Event>): Blocks
    decreases |events|
  {
    if events == [] then start else ToBlocks(ApplyEvent(start, events[0]), events[1..])
  }

  // ---- the page ---------------------------------------------------------------------------------

  datatype ItemStatus = Pending | Streaming | Finished | Failed(text: string)

  /** `applyResolvedInterruptionStates` on one block. */
  function Resolve(b: Block, answers: map<string, string>): Block {
    if b.InterruptedBlock? && b.requestId in answers then InterruptedBlock(b.id, b.requestId, Some(answers[b.requestId]), b.event) else b
  }

  /** A question that has been answered bears its answer; every other block is as it was. */
  predicate ShownAs(b: Block, shown: Block, answers: map<string, string>) {
    if b.InterruptedBlock? && b.requestId in answers then
      shown.InterruptedBlock? && shown.id == b.id && shown.requestId == b.requestId && shown.event == b.event
      && shown.resolved == Some(answers[b.requestId])
    else shown == b
  }

  function Resolved(blocks: Blocks, answers: map<string, string>): (r: Blocks)
    ensures |r| == |blocks|
  {
    seq(|blocks|, k requires 0 <= k < |blocks| => Resolve(blocks[k], answers))
  }

  /** What stands at the end of the current item. */
  function Tail(isCurrent: bool, status: ItemStatus): Blocks {
    if isCurrent && status.Streaming? then [ThinkingBlock, LiveCompletionBlock]
    else if isCurrent && status.Failed? then [ErrorBlock(status.text)]
    else []
  }

  /** `eventsToBlocks`: the reducer loop, the answers to interruptions put over it, and the
      end of the current item. */
  method EventsToBlocks(events: seq<Event>, answers: map<string, string>, isCurrent: bool, status: ItemStatus) returns (blocks: Blocks)
    ensures blocks == Resolved(ToBlocks([], events), answers) + Tail(isCurrent, status)
    ensures |ToBlocks([], events)| <= |blocks|
    ensures forall k :: 0 <= k < |ToBlocks([], events)| ==> ShownAs(ToBlocks([], events)[k], blocks[k], answers)
    ensures blocks[|ToBlocks([], events)|..] ==
            if !isCurrent || status.Pending? || status.Finished? then []
            else if status.Streaming? then [ThinkingBlock, LiveCompletionBlock]
            else [ErrorBlock(status.text)]
  {
    blocks := [];
    assert events[0..] == events;
    for k := 0 to |events|
      invariant ToBlocks([], events) == ToBlocks(blocks, events[k..])
    {
      assert events[k..][0] == events[k] && events[k..][1..] == events[k + 1..];
      blocks := ApplyEvent(blocks, events[k]);
    }
    blocks := Resolved(blocks, answers);
    if !isCurrent {
      assert blocks + [] == blocks;
      return;
    }
    match status {
      case Streaming => blocks := blocks + [ThinkingBlock, LiveCompletionBlock];
      case Failed(text) => blocks := blocks + [ErrorBlock(text)];
      case _ => assert blocks + [] == blocks;
    }
  }
}
