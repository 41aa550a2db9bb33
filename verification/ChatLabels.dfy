/** The labels of tool calls, the questions and the end of a run, each told from the events
    that concern it alone. */
module ChatLabels {
  import opened Common
  import opened ChatBlocks
  import opened ChatLanes
  import opened ChatPages
  import opened ChatTexts

  // ---- what an event does to a page -----------------------------------------------------------

  /** Two blocks that stand for the same thing. */
  predicate SameKind(x: Block, y: Block) {
    && (x.Text? <==> y.Text?) && (x.CompletionBlock? <==> y.CompletionBlock?) && (x.InterruptedBlock? <==> y.InterruptedBlock?)
    && (x.ToolLabel? <==> y.ToolLabel?) && (IsLabelled(x) <==> IsLabelled(y)) && (IsLabelled(x) ==> x.id == y.id)
    && (x.ToolLabel? ==> x.callId == y.callId)
  }

  /** The label a call is given when it is made bears the call's own id. */
  predicate CallsNamed(blocks: Blocks) {
    forall b | b in blocks :: b.ToolLabel? && b.id.role == ToolRole ==> b.id.owner == b.callId
  }

  ghost predicate PageOk(blocks: Blocks) {
    WellFormed(blocks) && CallsNamed(blocks)
  }

  /** A block set in place of the `i`-th or behind all others, or the `i`-th taken out. */
  datatype Change = Nothing | Put(i: nat, b: Block) | Take(i: nat)

  predicate Possible(blocks: Blocks, c: Change) {
    match c
    case Nothing => true
    case Put(i, b) => i <= |blocks| && (i < |blocks| ==> SameKind(blocks[i], b))
    case Take(i) => i < |blocks| && blocks[i].Text?
  }

  function Changed(blocks: Blocks, c: Change): Blocks
    requires Possible(blocks, c)
  {
    match c
    case Nothing => blocks
    case Put(i, b) => if i < |blocks| then blocks[i := b] else blocks + [b]
    case Take(i) => blocks[..i] + blocks[i + 1..]
  }

  /** The block is of the kind the event is about. */
  predicate Fits(b: Block, e: Event) {
    && (b.CompletionBlock? <==> e.Complete?) && (b.InterruptedBlock? <==> e.Interrupted?)
    && (b.InterruptedBlock? ==> b.id == BlockId(e.id, InterruptedRole))
    && (b.ToolLabel? <==> e.ToolCall? || e.ToolResultStart? || e.ToolResult?)
    && (b.ToolLabel? ==> b.callId == e.tool.callId && (b.id.role == ToolRole ==> b.id.owner == b.callId))
  }

  /** The page before the event's own block is set: a question marks the labels first. */
  function Marked(blocks: Blocks, e: Event): Blocks {
    if e.Interrupted? then MarkApproval(blocks, e) else blocks
  }

  lemma {:induction false} RoleDecides(blocks: Blocks, i: nat, b: Block)
    requires PageOk(blocks) && i < |blocks| && RightRole(b) && IsLabelled(b) && HasId(blocks[i], b.id)
    requires b.ToolLabel? ==> b.id == BlockId(b.callId, ToolRole)
    ensures SameKind(blocks[i], b)
  {
    assert blocks[i] in blocks;
  }

  lemma {:induction false} UpsertChanges(blocks: Blocks, b: Block) returns (c: Change)
    requires PageOk(blocks) && IsLabelled(b) && RightRole(b) && (b.ToolLabel? ==> b.id == BlockId(b.callId, ToolRole))
    ensures Possible(blocks, c) && c.Put? && c.b == b && Upsert(blocks, b) == Changed(blocks, c)
  {
    hide PageOk, RightRole;
    var i := IdIndex(blocks, b.id);
    if i < |blocks| {
      RoleDecides(blocks, i, b);
    }
    c := Put(i, b);
  }

  lemma {:induction false} TextChanges(blocks: Blocks, e: Event) returns (c: Change)
    requires e.MessageDelta? || e.MessagePartial? || e.MessageFinal?
    ensures Possible(blocks, c) && ApplyEvent(blocks, e) == Changed(blocks, c) && (c.Put? ==> Fits(c.b, e))
  {
    var i := TextIndex(blocks, MessageId(e.id));
    if e.MessageDelta? {
      c := Put(i, if i == |blocks| then Text(MessageId(e.id), e.text, "", e)
                  else Text(blocks[i].id, blocks[i].content + e.text, blocks[i].reasoning, e));
    } else if e.text == "" && e.reasoning == "" {
      c := if i == |blocks| then Nothing else Take(i);
    } else {
      c := Put(i, Text(MessageId(e.id), e.text, e.reasoning, e));
    }
  }

  lemma {:induction false} ToolChanges(blocks: Blocks, e: Event) returns (c: Change)
    requires PageOk(blocks) && !IsHandoffTool(e) && (e.ToolCall? || e.ToolResultStart? || e.ToolResult?)
    ensures Possible(blocks, c) && ApplyEvent(blocks, e) == Changed(blocks, c) && (c.Put? ==> Fits(c.b, e))
  {
    hide WellFormed, Upsert;
    if e.ToolCall? {
      var b := NewLabel(BlockId(e.tool.callId, ToolRole), e, Loading);
      LabelFits(e, b);
      c := UpsertChanges(blocks, b);
    } else if e.ToolResultStart? {
      var i := LastToolLabel(blocks, e.tool.callId);
      c := if i >= 0 && blocks[i].approvalPending.None? then Nothing
           else Put(|blocks|, NewLabel(BlockId(e.id, ToolStartRole), e, Loading));
    } else {
      var i := LastToolLabel(blocks, e.tool.callId);
      if i >= 0 {
        assert blocks[i] in blocks;
        c := Put(i, ToolLabel(blocks[i].id, e.tool.callId, blocks[i].title, e.tool.details, Normal, None, blocks[i].details + [e]));
      } else {
        c := Put(|blocks|, ToolLabel(BlockId(e.id, ToolResultRole), e.tool.callId, TOOL_RESULT_TITLE, e.tool.details, Normal, None, [e]));
      }
    }
  }

  lemma {:induction false} LabelFits(e: Event, b: Block)
    requires e.ToolCall? && b == NewLabel(BlockId(e.tool.callId, ToolRole), e, Loading)
    ensures Fits(b, e) && RightRole(b)
  {
  }

  /** Every event changes at most one block, for one of the same kind. */
  lemma {:induction false} EventChanges(blocks: Blocks, e: Event) returns (c: Change)
    requires PageOk(Marked(blocks, e))
    ensures Possible(Marked(blocks, e), c) && ApplyEvent(blocks, e) == Changed(Marked(blocks, e), c)
    ensures c.Put? ==> Fits(c.b, e)
    ensures c != Nothing ==> !IsHandoffTool(e)
  {
    hide PageOk, Upsert, PutText, AppendDelta, StartTool, CompleteTool;
    if IsHandoffTool(e) {
      return Nothing;
    }
    match e {
      case MessageDelta(_, _) => c := TextChanges(blocks, e);
      case MessagePartial(_, _, _) => c := TextChanges(blocks, e);
      case MessageFinal(_, _, _) => c := TextChanges(blocks, e);
      case ToolCall(_, _) => c := ToolChanges(blocks, e);
      case ToolResultStart(_, _) => c := ToolChanges(blocks, e);
      case ToolResult(_, _, _) => c := ToolChanges(blocks, e);
      case CompressionStart(_, _) => c := UpsertChanges(blocks, LabelFor(e));
      case CompressionFinal(_, _, _) => c := UpsertChanges(blocks, LabelFor(e));
      case ActivityIndicator(_, _) => c := UpsertChanges(blocks, LabelFor(e));
      case Interrupted(id, requestId, _) =>
        c := UpsertChanges(Marked(blocks, e), InterruptedBlock(BlockId(id, InterruptedRole), requestId, None, e));
      case Complete(_, _) => c := Put(CompletionIndex(blocks), CompletionBlock(e.duration, e));
      case _ => c := Nothing;
    }
  }

  lemma {:induction false} MarkedOk(blocks: Blocks, e: Event)
    requires PageOk(blocks)
    ensures PageOk(Marked(blocks, e))
  {
    hide WellFormed;
    if e.Interrupted? {
      MarkStays(blocks, e);
      var marked := MarkApproval(blocks, e);
      forall b | b in marked && b.ToolLabel? && b.id.role == ToolRole ensures b.id.owner == b.callId {
        var k :| 0 <= k < |blocks| && marked[k] == b;
        assert blocks[k] in blocks;
      }
    }
  }

  lemma {:induction false} ChangeKeepsNames(blocks: Blocks, c: Change, e: Event)
    requires CallsNamed(blocks) && Possible(blocks, c) && (c.Put? ==> Fits(c.b, e))
    ensures CallsNamed(Changed(blocks, c))
  {
    hide SameKind;
    forall b | b in Changed(blocks, c) ensures b in blocks || (c.Put? && b == c.b) {
    }
  }

  lemma {:induction false} PageIsOk(events: seq<Event>)
    ensures PageOk(ToBlocks([], events))
  {
    hide WellFormed, ApplyEvent, CallsNamed, Fits, Possible;
    if events == [] {
      NothingShown(events);
      NoCalls();
    } else {
      var front, e := events[..|events| - 1], events[|events| - 1];
      PageIsOk(front);
      PagesGrow(events);
      PageWellFormed(events);
      MarkedOk(ToBlocks([], front), e);
      var c := EventChanges(ToBlocks([], front), e);
      ChangeKeepsNames(Marked(ToBlocks([], front), e), c, e);
    }
  }

  lemma {:induction false} NoCalls()
    ensures CallsNamed([])
  {
  }

  // ---- a part of the page ------------------------------------------------------------------------

  lemma {:induction false} FilterSet(f: Block -> bool, blocks: Blocks, i: nat, b: Block)
    requires i < |blocks| && !f(blocks[i]) && !f(b)
    ensures Filter(f, blocks[i := b]) == Filter(f, blocks)
  {
    hide Filter;
    var front, back := blocks[..i], blocks[i + 1..];
    assert blocks == front + [blocks[i]] + back && blocks[i := b] == front + [b] + back;
    FilterConcat(f, front + [blocks[i]], back);
    FilterConcat(f, front, [blocks[i]]);
    FilterConcat(f, front + [b], back);
    FilterConcat(f, front, [b]);
    FilterAllOrNone(f, [b], false);
    FilterAllOrNone(f, [blocks[i]], false);
  }

  /** A change to a block of another part. */
  lemma {:induction false} ChangeElsewhere(f: Block -> bool, blocks: Blocks, c: Change)
    requires Possible(blocks, c)
    requires c.Put? ==> !f(c.b) && (c.i < |blocks| ==> !f(blocks[c.i]))
    requires c.Take? ==> !f(blocks[c.i])
    ensures Filter(f, Changed(blocks, c)) == Filter(f, blocks)
  {
    hide Filter, SameKind;
    match c {
      case Nothing =>
      case Put(i, b) =>
        if i < |blocks| {
          FilterSet(f, blocks, i, b);
        } else {
          FilterConcat(f, blocks, [b]);
          FilterAllOrNone(f, [b], false);
        }
      case Take(i) =>
        var front, back := blocks[..i], blocks[i + 1..];
        assert blocks == front + [blocks[i]] + back;
        FilterConcat(f, front + [blocks[i]], back);
        FilterConcat(f, front, [blocks[i]]);
        FilterConcat(f, front, back);
        FilterAllOrNone(f, [blocks[i]], false);
    }
  }

  /** The first block of the id replaced, or the block added. */
  function Placed(blocks: Blocks, b: Block): Blocks
    requires IsLabelled(b)
  {
    if blocks == [] then [b]
    else if HasId(blocks[0], b.id) then [b] + blocks[1..]
    else [blocks[0]] + Placed(blocks[1..], b)
  }

  lemma {:induction false} UpsertFirst(blocks: Blocks, b: Block)
    requires blocks != [] && IsLabelled(b)
    ensures Upsert(blocks, b) == if HasId(blocks[0], b.id) then [b] + blocks[1..] else [blocks[0]] + Upsert(blocks[1..], b)
  {
  }

  lemma {:induction false} UpsertInPart(f: Block -> bool, blocks: Blocks, b: Block)
    requires IsLabelled(b) && f(b) && forall x :: x in blocks && HasId(x, b.id) ==> f(x)
    ensures Filter(f, Upsert(blocks, b)) == Placed(Filter(f, blocks), b)
  {
    hide Filter, HasId, Upsert;
    if blocks == [] {
      assert Upsert([], b) == [b] by {
        UpsertEmpty(b);
      }
      FilterAllOrNone(f, [b], true);
      FilterAllOrNone(f, blocks, true);
    } else {
      var first, rest := blocks[0], blocks[1..];
      UpsertFirst(blocks, b);
      FilterFirst(f, blocks);
      assert first in blocks && forall x :: x in rest ==> x in blocks;
      if HasId(first, b.id) {
        FilterFirst(f, [b] + rest);
        assert ([b] + rest)[1..] == rest;
        assert ([first] + Filter(f, rest))[1..] == Filter(f, rest);
      } else {
        var after := [first] + Upsert(rest, b);
        FilterFirst(f, after);
        assert after[1..] == Upsert(rest, b);
        UpsertInPart(f, rest, b);
        PlacedBehind(first, Filter(f, rest), b);
        assert [] + Filter(f, rest) == Filter(f, rest);
      }
    }
  }

  lemma {:induction false} PlacedBehind(first: Block, rest: Blocks, b: Block)
    requires IsLabelled(b) && !HasId(first, b.id)
    ensures Placed([first] + rest, b) == [first] + Placed(rest, b)
  {
    assert ([first] + rest)[1..] == rest;
  }

  lemma {:induction false} UpsertEmpty(b: Block)
    requires IsLabelled(b)
    ensures Upsert([], b) == [b]
  {
  }

  // ---- the labels of one tool call -------------------------------------------------------------------

  predicate LabelOf(b: Block, callId: string) {
    b.ToolLabel? && b.callId == callId
  }

  function Labels(blocks: Blocks, callId: string): Blocks {
    Filter((b: Block) => LabelOf(b, callId), blocks)
  }

  /** Handoffs show no labels. */
  predicate IsOfCall(e: Event, callId: string) {
    (e.ToolCall? || e.ToolResultStart? || e.ToolResult?) && e.tool.callId == callId && !("_handoff" <= e.tool.name)
  }

  predicate AreLabels(labels: Blocks) {
    forall b | b in labels :: b.ToolLabel?
  }

  /** What a call's own event does to its labels: a call makes one or starts it afresh, a
      start makes one unless the last is waiting for nobody, a result closes the last and
      joins its details. */
  function Told(labels: Blocks, e: Event): Blocks
    requires AreLabels(labels) && (e.ToolCall? || e.ToolResultStart? || e.ToolResult?)
  {
    match e
    case ToolCall(_, tool) =>
      Placed(labels, ToolLabel(BlockId(tool.callId, ToolRole), tool.callId, tool.name, tool.details, Loading, None, [e]))
    case ToolResultStart(id, tool) =>
      if labels != [] && labels[|labels| - 1].approvalPending.None? then labels
      else labels + [ToolLabel(BlockId(id, ToolStartRole), tool.callId, tool.name, tool.details, Loading, None, [e])]
    case ToolResult(id, tool, _) =>
      if labels == [] then
        [ToolLabel(BlockId(id, ToolResultRole), tool.callId, "\U{5DE5}\U{5177}\U{7ED3}\U{679C}", tool.details, Normal, None, [e])]
      else
        var last := labels[|labels| - 1];
        labels[..|labels| - 1] + [ToolLabel(last.id, last.callId, last.title, tool.details, Normal, None, last.details + [e])]
  }

  /** What a question for approval does: no label goes on loading, and those of the tool in
      question wait for the answer. */
  function Asked(labels: Blocks, e: Event): (r: Blocks)
    requires AreLabels(labels) && e.Interrupted?
    ensures AreLabels(r)
  {
    seq(|labels|, k requires 0 <= k < |labels| =>
      assert labels[k] in labels;
      var l := labels[k];
      ToolLabel(l.id, l.callId, l.title, l.subtitle, Normal, if l.title == e.approvalFor then Some(e) else l.approvalPending, l.details))
  }

  lemma {:induction false} ToldAreLabels(labels: Blocks, e: Event)
    requires AreLabels(labels) && (e.ToolCall? || e.ToolResultStart? || e.ToolResult?)
    ensures AreLabels(Told(labels, e))
  {
    if e.ToolCall? {
      PlacedAreLabels(labels, ToolLabel(BlockId(e.tool.callId, ToolRole), e.tool.callId, e.tool.name, e.tool.details, Loading, None, [e]));
    }
  }

  lemma {:induction false} PlacedAreLabels(labels: Blocks, b: Block)
    requires AreLabels(labels) && b.ToolLabel?
    ensures AreLabels(Placed(labels, b))
  {
    if labels != [] {
      assert labels[0] in labels;
      PlacedAreLabels(labels[1..], b);
    }
  }

  /** The labels of one call, from its own events and the questions alone. */
  function Story(events: seq<Event>, callId: string): (r: Blocks)
    ensures AreLabels(r)
  {
    if events == [] then []
    else
      var labels, e := Story(events[..|events| - 1], callId), events[|events| - 1];
      if IsOfCall(e, callId) then
        ToldAreLabels(labels, e);
        Told(labels, e)
      else if e.Interrupted? && e.approvalFor != "" then Asked(labels, e)
      else labels
  }

  /** The last label of a call, seen from its labels. */
  lemma {:induction false} LastLabel(blocks: Blocks, callId: string)
    ensures var i := LastToolLabel(blocks, callId);
            Labels(blocks, callId) == if i < 0 then [] else Labels(blocks[..i], callId) + [blocks[i]]
  {
    var i := LastToolLabel(blocks, callId);
    if blocks != [] && i < |blocks| - 1 {
      LastLabel(blocks[..|blocks| - 1], callId);
      assert i >= 0 ==> blocks[..|blocks| - 1][..i] == blocks[..i];
    }
  }

  lemma {:induction false} MarkedLabels(blocks: Blocks, e: Event, callId: string)
    requires e.Interrupted? && AreLabels(Labels(blocks, callId))
    ensures Labels(MarkApproval(blocks, e), callId) == if e.approvalFor == "" then Labels(blocks, callId) else Asked(Labels(blocks, callId), e)
  {
    if blocks != [] && e.approvalFor != "" {
      var front, last := blocks[..|blocks| - 1], blocks[|blocks| - 1];
      var marked := MarkApproval(blocks, e);
      LabelsAreLabels(front, callId);
      MarkedLabels(front, e, callId);
      assert marked[..|marked| - 1] == MarkApproval(front, e) && marked[|marked| - 1] == MarkBlock(last, e);
    }
  }

  lemma {:induction false} LabelsAreLabels(blocks: Blocks, callId: string)
    ensures AreLabels(Labels(blocks, callId))
  {
    FilterHolds((b: Block) => LabelOf(b, callId), blocks);
  }

  /** An event of the call acts on its labels. */
  lemma {:induction false} OwnEvent(blocks: Blocks, e: Event, callId: string)
    requires PageOk(blocks) && IsOfCall(e, callId)
    ensures AreLabels(Labels(blocks, callId)) && Labels(ApplyEvent(blocks, e), callId) == Told(Labels(blocks, callId), e)
  {
    hide WellFormed, Labels, Upsert, Placed, LastToolLabel;
    LabelsAreLabels(blocks, callId);
    LastLabel(blocks, callId);
    match e {
      case ToolCall(_, tool) => CallPlaced(blocks, e);
      case ToolResultStart(_, tool) =>
        LabelAdded(blocks, NewLabel(BlockId(e.id, ToolStartRole), e, Loading));
      case ToolResult(_, tool, _) =>
        var i := LastToolLabel(blocks, callId);
        if i >= 0 {
          LastReplaced(blocks, callId, ToolLabel(blocks[i].id, callId, blocks[i].title, tool.details, Normal, None, blocks[i].details + [e]));
        } else {
          LabelAdded(blocks, ToolLabel(BlockId(e.id, ToolResultRole), callId, TOOL_RESULT_TITLE, tool.details, Normal, None, [e]));
          assert [] + [ToolLabel(BlockId(e.id, ToolResultRole), callId, TOOL_RESULT_TITLE, tool.details, Normal, None, [e])]
              == [ToolLabel(BlockId(e.id, ToolResultRole), callId, TOOL_RESULT_TITLE, tool.details, Normal, None, [e])];
        }
    }
  }

  lemma {:induction false} CallPlaced(blocks: Blocks, e: Event)
    requires PageOk(blocks) && e.ToolCall?
    ensures var b := NewLabel(BlockId(e.tool.callId, ToolRole), e, Loading);
            Labels(Upsert(blocks, b), e.tool.callId) == Placed(Labels(blocks, e.tool.callId), b)
  {
    hide Filter, Upsert, Placed;
    UpsertInPart((b: Block) => LabelOf(b, e.tool.callId), blocks, NewLabel(BlockId(e.tool.callId, ToolRole), e, Loading));
  }

  lemma {:induction false} LabelAdded(blocks: Blocks, b: Block)
    requires b.ToolLabel?
    ensures Labels(blocks + [b], b.callId) == Labels(blocks, b.callId) + [b]
  {
    hide Filter;
    var f := (x: Block) => LabelOf(x, b.callId);
    FilterConcat(f, blocks, [b]);
    FilterAllOrNone(f, [b], true);
  }

  lemma {:induction false} LastReplaced(blocks: Blocks, callId: string, b: Block)
    requires LastToolLabel(blocks, callId) >= 0 && LabelOf(b, callId)
    ensures var i := LastToolLabel(blocks, callId);
            Labels(blocks[i := b], callId) == Labels(blocks[..i], callId) + [b]
  {
    hide Labels;
    var i := LastToolLabel(blocks, callId);
    var after := blocks[i := b];
    LastToolLabelIs(after, callId, i);
    LastLabel(after, callId);
    assert after[..i] == blocks[..i];
  }

  /** For every stream: the labels of a call are what its own events and the questions
      make of them, whatever else is shown. */
  lemma {:induction false} LabelsAre(events: seq<Event>, callId: string)
    ensures Labels(ToBlocks([], events), callId) == Story(events, callId)
  {
    hide PageOk, ApplyEvent, Labels, Told, Asked, ToBlocks, Fits, Changed;
    if events == [] {
      NothingShown(events);
      NoLabels(callId);
    } else {
      var front, e := events[..|events| - 1], events[|events| - 1];
      LabelsAre(front, callId);
      PagesGrow(events);
      PageIsOk(front);
      if IsOfCall(e, callId) {
        OwnEvent(ToBlocks([], front), e, callId);
      } else {
        OtherEvent(ToBlocks([], front), e, callId);
      }
    }
  }

  lemma {:induction false} NoLabels(callId: string)
    ensures Labels([], callId) == []
  {
  }

  lemma {:induction false} OtherEvent(blocks: Blocks, e: Event, callId: string)
    requires PageOk(blocks) && !IsOfCall(e, callId)
    ensures AreLabels(Labels(blocks, callId))
    ensures Labels(ApplyEvent(blocks, e), callId) ==
            if e.Interrupted? && e.approvalFor != "" then Asked(Labels(blocks, callId), e) else Labels(blocks, callId)
  {
    hide PageOk, ApplyEvent, Filter, MarkApproval, Asked;
    LabelsAreLabels(blocks, callId);
    MarkedOk(blocks, e);
    var c := EventChanges(blocks, e);
    if e.Interrupted? {
      MarkedLabels(blocks, e, callId);
    }
    ChangeElsewhere((b: Block) => LabelOf(b, callId), Marked(blocks, e), c);
  }

  // ---- a call that nobody has to approve -----------------------------------------------------------

  function Results(events: seq<Event>, callId: string): seq<Event> {
    Filter((e: Event) => IsOfCall(e, callId) && e.ToolResult?, events)
  }

  predicate AsksAnything(e: Event) {
    e.Interrupted? && e.approvalFor != ""
  }

  predicate AskedAfter(events: seq<Event>, p: nat) {
    exists k | p < k < |events| :: AsksAnything(events[k])
  }

  /** The call comes first, is made once, and nobody asks for its tool afterwards. */
  predicate MadeOnce(events: seq<Event>, callId: string, p: nat) {
    && p < |events| && events[p].ToolCall? && IsOfCall(events[p], callId)
    && (forall k | 0 <= k < p :: !IsOfCall(events[k], callId))
    && (forall k | p < k < |events| :: IsOfCall(events[k], callId) ==> !events[k].ToolCall?)
    && (forall k | p < k < |events| :: AsksAnything(events[k]) ==> events[k].approvalFor != events[p].tool.name)
  }

  /** Such a call has one label: it bears the call's name, its details are the call and then
      its results in the order they came, it shows the last of them, and it goes on loading
      until one comes or a question stops the run. */
  lemma {:induction false} OneLabelPerCall(events: seq<Event>, callId: string, p: nat)
    requires MadeOnce(events, callId, p)
    ensures var call, results := events[p], Results(events[p + 1..], callId);
            && (forall e :: e in results ==> e.ToolResult?)
            && Labels(ToBlocks([], events), callId) ==
               [ToolLabel(BlockId(callId, ToolRole), callId, call.tool.name,
                          if results == [] then call.tool.details else results[|results| - 1].tool.details,
                          if results == [] && !AskedAfter(events, p) then Loading else Normal,
                          None, [call] + results)]
  {
    hide ToBlocks, Labels, Story, Filter, AskedAfter;
    LabelsAre(events, callId);
    CallStory(events, callId, p);
  }

  lemma {:induction false} BeforeTheCall(events: seq<Event>, callId: string)
    requires forall k :: 0 <= k < |events| ==> !IsOfCall(events[k], callId)
    ensures Story(events, callId) == []
  {
    if events != [] {
      BeforeTheCall(events[..|events| - 1], callId);
    }
  }

  lemma {:induction false} CallStory(events: seq<Event>, callId: string, p: nat)
    requires MadeOnce(events, callId, p)
    ensures var call, results := events[p], Results(events[p + 1..], callId);
            && (forall e :: e in results ==> e.ToolResult?)
            && Story(events, callId) == [CallLabel(call, results, AskedAfter(events, p))]
  {
    hide Story, Filter, AskedAfter;
    var front, e := events[..|events| - 1], events[|events| - 1];
    StoryGrows(events, callId);
    ResultsAreResults(events[p + 1..], callId);
    if p == |events| - 1 {
      BeforeTheCall(front, callId);
      NoResults(events[p + 1..], callId);
      NotAsked(events);
      assert [e] + [] == [e];
    } else {
      FrontMadeOnce(events, callId, p);
      CallStory(front, callId, p);
      ResultsGrow(events, callId, p);
      assert front[p] == events[p] && e == events[|events| - 1];
      var results := Results(front[p + 1..], callId);
      LabelGrows(events[p], results, AskedAfter(front, p), e);
      assert results + [] == results;
      assert IsOfCall(e, callId) ==> !e.ToolCall?;
      assert AsksAnything(e) ==> e.approvalFor != events[p].tool.name;
    }
  }

  lemma {:induction false} NotAsked(events: seq<Event>)
    requires events != []
    ensures !AskedAfter(events, |events| - 1)
  {
  }

  function CallLabel(call: Event, results: seq<Event>, asked: bool): Block
    requires call.ToolCall? && forall e :: e in results ==> e.ToolResult?
  {
    assert results != [] ==> results[|results| - 1] in results;
    ToolLabel(BlockId(call.tool.callId, ToolRole), call.tool.callId, call.tool.name,
              if results == [] then call.tool.details else results[|results| - 1].tool.details,
              if results == [] && !asked then Loading else Normal, None, [call] + results)
  }

  lemma {:induction false} LabelGrows(call: Event, results: seq<Event>, asked: bool, e: Event)
    requires call.ToolCall? && forall x :: x in results ==> x.ToolResult?
    ensures var labels := [CallLabel(call, results, asked)];
            && (e.ToolResult? && e.tool.callId == call.tool.callId ==> Told(labels, e) == [CallLabel(call, results + [e], asked)])
            && (e.ToolResultStart? ==> Told(labels, e) == labels)
            && (e.Interrupted? && e.approvalFor != call.tool.name ==> Asked(labels, e) == [CallLabel(call, results, true)])
  {
    assert ([call] + results) + [e] == [call] + (results + [e]);
  }

  lemma {:induction false} FrontMadeOnce(events: seq<Event>, callId: string, p: nat)
    requires MadeOnce(events, callId, p) && p < |events| - 1
    ensures MadeOnce(events[..|events| - 1], callId, p)
    ensures AskedAfter(events, p) <==> AskedAfter(events[..|events| - 1], p) || AsksAnything(events[|events| - 1])
  {
    hide IsOfCall, AsksAnything;
    var front := events[..|events| - 1];
    assert forall k :: 0 <= k < |front| ==> front[k] == events[k];
    if AskedAfter(events, p) && !AsksAnything(events[|events| - 1]) {
      var k :| p < k < |events| && AsksAnything(events[k]);
      assert AsksAnything(front[k]);
    }
    if k :| p < k < |front| && AsksAnything(front[k]) {
      assert AsksAnything(events[k]);
    }
  }

  lemma {:induction false} StoryGrows(events: seq<Event>, callId: string)
    requires events != []
    ensures var labels, e := Story(events[..|events| - 1], callId), events[|events| - 1];
            Story(events, callId) == if IsOfCall(e, callId) then Told(labels, e)
                                     else if AsksAnything(e) then Asked(labels, e) else labels
  {
  }

  lemma {:induction false} ResultsAreResults(events: seq<Event>, callId: string)
    ensures forall e :: e in Results(events, callId) ==> e.ToolResult?
  {
    FilterHolds((e: Event) => IsOfCall(e, callId) && e.ToolResult?, events);
  }

  lemma {:induction false} NoResults(events: seq<Event>, callId: string)
    requires events == []
    ensures Results(events, callId) == []
  {
  }

  lemma {:induction false} ResultsGrow(events: seq<Event>, callId: string, p: nat)
    requires p < |events| - 1
    ensures var e := events[|events| - 1];
            Results(events[p + 1..], callId) == Results(events[..|events| - 1][p + 1..], callId)
                                              + if IsOfCall(e, callId) && e.ToolResult? then [e] else []
  {
    var later := events[p + 1..];
    assert later[..|later| - 1] == events[..|events| - 1][p + 1..];
  }

  // ---- questions and the end of a run -----------------------------------------------------------------

  /** The last event of a kind. */
  function LastWith(events: seq<Event>, f: Event -> bool): (r: Option<Event>)
    ensures r.Some? ==> f(r.value)
  {
    if events == [] then None
    else if f(events[|events| - 1]) then Some(events[|events| - 1])
    else LastWith(events[..|events| - 1], f)
  }

  function Questions(blocks: Blocks, id: string): Blocks {
    Filter((b: Block) => b.InterruptedBlock? && b.id == BlockId(id, InterruptedRole), blocks)
  }

  function Endings(blocks: Blocks): Blocks {
    Filter((b: Block) => b.CompletionBlock?, blocks)
  }

  lemma {:induction false} MarksNoOther(f: Block -> bool, blocks: Blocks, e: Event)
    requires e.Interrupted? && forall b: Block :: f(b) ==> !b.ToolLabel?
    ensures Filter(f, MarkApproval(blocks, e)) == Filter(f, blocks)
  {
    if blocks != [] && e.approvalFor != "" {
      var front := blocks[..|blocks| - 1];
      var marked := MarkApproval(blocks, e);
      MarksNoOther(f, front, e);
      assert marked[..|marked| - 1] == MarkApproval(front, e);
    }
  }

  /** A question has one block, still open, that of its last event. */
  lemma {:induction false} QuestionIs(events: seq<Event>, id: string)
    ensures var last := LastWith(events, (e: Event) => e.Interrupted? && e.id == id);
            Questions(ToBlocks([], events), id) ==
              if last.None? then [] else [InterruptedBlock(BlockId(id, InterruptedRole), last.value.requestId, None, last.value)]
  {
    hide PageOk, ApplyEvent, Questions, ToBlocks, Changed;
    if events == [] {
      NothingShown(events);
      NoneAtAll(id);
    } else {
      var front, e := events[..|events| - 1], events[|events| - 1];
      QuestionIs(front, id);
      PagesGrow(events);
      PageIsOk(front);
      if e.Interrupted? && e.id == id {
        QuestionPut(ToBlocks([], front), e);
      } else {
        QuestionStays(ToBlocks([], front), e, id);
      }
    }
  }

  lemma {:induction false} NoneAtAll(id: string)
    ensures Questions([], id) == [] && Endings([]) == []
  {
  }

  lemma {:induction false} QuestionPut(blocks: Blocks, e: Event)
    requires PageOk(blocks) && e.Interrupted? && |Questions(blocks, e.id)| <= 1
    ensures Questions(ApplyEvent(blocks, e), e.id) == [InterruptedBlock(BlockId(e.id, InterruptedRole), e.requestId, None, e)]
  {
    hide Filter, Upsert, WellFormed, MarkApproval;
    var f := (x: Block) => x.InterruptedBlock? && x.id == BlockId(e.id, InterruptedRole);
    var b := InterruptedBlock(BlockId(e.id, InterruptedRole), e.requestId, None, e);
    MarkedOk(blocks, e);
    MarksNoOther(f, blocks, e);
    var marked := MarkApproval(blocks, e);
    IdsOfQuestion(marked, b);
    UpsertInPart(f, marked, b);
    FilterHolds(f, blocks);
    OnlyPlaced(Questions(blocks, e.id), b);
  }

  lemma {:induction false} IdsOfQuestion(blocks: Blocks, b: Block)
    requires PageOk(blocks) && b.InterruptedBlock? && b.id.role == InterruptedRole
    ensures forall x :: x in blocks && HasId(x, b.id) ==> x.InterruptedBlock? && x.id == b.id
  {
  }

  lemma {:induction false} OnlyPlaced(blocks: Blocks, b: Block)
    requires IsLabelled(b) && |blocks| <= 1 && forall x :: x in blocks ==> HasId(x, b.id)
    ensures Placed(blocks, b) == [b]
  {
    if blocks != [] {
      assert blocks[0] in blocks;
    }
  }

  lemma {:induction false} QuestionStays(blocks: Blocks, e: Event, id: string)
    requires PageOk(blocks) && !(e.Interrupted? && e.id == id)
    ensures Questions(ApplyEvent(blocks, e), id) == Questions(blocks, id)
  {
    hide PageOk, ApplyEvent, Filter, MarkApproval;
    var f := (x: Block) => x.InterruptedBlock? && x.id == BlockId(id, InterruptedRole);
    MarkedOk(blocks, e);
    var c := EventChanges(blocks, e);
    if e.Interrupted? {
      MarksNoOther(f, blocks, e);
    }
    ChangeElsewhere(f, Marked(blocks, e), c);
  }

  /** A page has one end, that of the last completion. */
  lemma {:induction false} EndIs(events: seq<Event>)
    ensures var last := LastWith(events, (e: Event) => e.Complete?);
            Endings(ToBlocks([], events)) == if last.None? then [] else [CompletionBlock(last.value.duration, last.value)]
  {
    hide PageOk, ApplyEvent, Endings, ToBlocks, Changed;
    if events == [] {
      NothingShown(events);
      NoneAtAll("");
    } else {
      var front, e := events[..|events| - 1], events[|events| - 1];
      EndIs(front);
      PagesGrow(events);
      PageIsOk(front);
      if e.Complete? {
        EndPut(ToBlocks([], front), e);
      } else {
        EndStays(ToBlocks([], front), e);
      }
    }
  }

  lemma {:induction false} EndPut(blocks: Blocks, e: Event)
    requires e.Complete? && |Endings(blocks)| <= 1
    ensures Endings(ApplyEvent(blocks, e)) == [CompletionBlock(e.duration, e)]
  {
    hide Filter;
    var f, b, i := (x: Block) => x.CompletionBlock?, CompletionBlock(e.duration, e), CompletionIndex(blocks);
    FilterAllOrNone(f, [b], true);
    if i < |blocks| {
      var front, back := blocks[..i], blocks[i + 1..];
      assert blocks == front + [blocks[i]] + back && blocks[i := b] == front + [b] + back;
      FilterConcat(f, front + [blocks[i]], back);
      FilterConcat(f, front, [blocks[i]]);
      FilterConcat(f, front + [b], back);
      FilterConcat(f, front, [b]);
      FilterAllOrNone(f, front, false);
      FilterAllOrNone(f, [blocks[i]], true);
    } else {
      FilterAllOrNone(f, blocks, false);
      FilterConcat(f, blocks, [b]);
    }
  }

  lemma {:induction false} EndStays(blocks: Blocks, e: Event)
    requires PageOk(blocks) && !e.Complete?
    ensures Endings(ApplyEvent(blocks, e)) == Endings(blocks)
  {
    hide PageOk, ApplyEvent, Filter, MarkApproval;
    var f := (x: Block) => x.CompletionBlock?;
    MarkedOk(blocks, e);
    var c := EventChanges(blocks, e);
    if e.Interrupted? {
      MarksNoOther(f, blocks, e);
    }
    ChangeElsewhere(f, Marked(blocks, e), c);
  }
}
