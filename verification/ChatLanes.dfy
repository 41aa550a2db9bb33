/** Whose block is whose on the chat page: what each event does to the blocks of its own
    message, compression or activity, and to those that stored events alone make. */
module ChatLanes {
  import opened Common
  import opened ChatBlocks

  // ---- whose a block is ---------------------------------------------------------------------------

  /** Blocks that events which are not stored can show: one for each message, compression
      and activity. All other blocks are made by stored events alone. */
  datatype Lane = MessageLane(id: string) | CompressionLane(id: string) | ActivityLane(id: string) | Kept

  function LaneOf(b: Block): Lane {
    match b
    case Text(id, _, _, _) => MessageLane(id.owner)
    case CompressionLabel(id, _, _) => CompressionLane(id.owner)
    case ActivityLabel(id, _) => ActivityLane(id.owner)
    case _ => Kept
  }

  function EventLane(e: Event): Lane {
    match e
    case MessageDelta(id, _) => MessageLane(id)
    case MessagePartial(id, _, _) => MessageLane(id)
    case MessageFinal(id, _, _) => MessageLane(id)
    case CompressionStart(id, _) => CompressionLane(id)
    case CompressionFinal(id, _, _) => CompressionLane(id)
    case ActivityIndicator(id, _) => ActivityLane(id)
    case _ => Kept
  }

  /** The last word on a message or a compression. */
  predicate Settles(e: Event) {
    e.MessageFinal? || e.CompressionFinal?
  }

  /** An event of a message that leaves no text takes its block away. */
  predicate Shows(e: Event) {
    (e.MessagePartial? || e.MessageFinal?) ==> e.text != "" || e.reasoning != ""
  }

  predicate RightRole(b: Block) {
    match b
    case Text(id, _, _, _) => id.role == MessageRole
    case ToolLabel(id, _, _, _, _, _, _) => id.role in {ToolRole, ToolStartRole, ToolResultRole}
    case CompressionLabel(id, _, _) => id.role == CompressionRole
    case ActivityLabel(id, _) => id.role == ActivityRole
    case InterruptedBlock(id, _, _, _) => id.role == InterruptedRole
    case _ => true
  }

  /** Ids fit their blocks, and no lane but the common one has two blocks. */
  predicate WellFormed(blocks: Blocks) {
    && (forall b | b in blocks :: RightRole(b))
    && (forall i, j | 0 <= i < j < |blocks| :: LaneOf(blocks[i]) == LaneOf(blocks[j]) ==> LaneOf(blocks[i]) == Kept)
  }

  function Shape(blocks: Blocks): (r: seq<Lane>)
    ensures |r| == |blocks| && forall k :: 0 <= k < |r| ==> r[k] == LaneOf(blocks[k])
  {
    seq(|blocks|, k requires 0 <= k < |blocks| => LaneOf(blocks[k]))
  }

  /** The blocks of the common lane. */
  function Keep(blocks: Blocks): (r: Blocks)
    ensures forall b :: b in r <==> b in blocks && LaneOf(b) == Kept
  {
    if blocks == [] then []
    else
      var front := Keep(blocks[..|blocks| - 1]);
      if LaneOf(blocks[|blocks| - 1]) == Kept then front + [blocks[|blocks| - 1]] else front
  }

  lemma {:induction false} KeepConcat(a: Blocks, b: Blocks)
    ensures Keep(a + b) == Keep(a) + Keep(b)
  {
    if b == [] {
      assert a + b == a;
    } else {
      assert (a + b)[..|a + b| - 1] == a + b[..|b| - 1];
      KeepConcat(a, b[..|b| - 1]);
    }
  }

  /** The place of block `i` among the kept ones. */
  function Rank(blocks: Blocks, i: nat): nat
    requires i <= |blocks|
  {
    |Keep(blocks[..i])|
  }

  lemma {:induction false} KeepParts(front: Blocks, x: Block, back: Blocks)
    ensures Keep(front + [x] + back) == Keep(front) + Keep([x]) + Keep(back)
  {
    hide Keep;
    KeepConcat(front + [x], back);
    KeepConcat(front, [x]);
  }

  lemma {:induction false} Replaced(front: Blocks, x: Block, back: Blocks, b: Block)
    ensures (front + [x] + back)[|front| := b] == front + [b] + back
    ensures (front + [x] + back)[..|front|] == front && (front + [x] + back)[|front| + 1..] == back
  {
  }

  lemma {:induction false} KeepAt(blocks: Blocks, i: nat, b: Block)
    requires i < |blocks| && LaneOf(blocks[i]) == Kept
    ensures Rank(blocks, i) < |Keep(blocks)| && Keep(blocks)[Rank(blocks, i)] == blocks[i]
    ensures LaneOf(b) == Kept ==> Keep(blocks[i := b]) == Keep(blocks)[Rank(blocks, i) := b]
  {
    hide Keep, LaneOf;
    var front, x, back := blocks[..i], blocks[i], blocks[i + 1..];
    assert blocks == front + [x] + back;
    KeepParts(front, x, back);
    OneKept(x);
    if LaneOf(b) == Kept {
      Replaced(front, x, back, b);
      KeepParts(front, b, back);
      OneKept(b);
      Replaced(Keep(front), x, Keep(back), b);
    }
  }

  lemma {:induction false} OneKept(b: Block)
    ensures Keep([b]) == if LaneOf(b) == Kept then [b] else []
  {
    assert [b][..0] == [];
  }

  lemma {:induction false} KeepAppend(blocks: Blocks, b: Block)
    ensures Keep(blocks + [b]) == Keep(blocks) + if LaneOf(b) == Kept then [b] else []
    ensures Shape(blocks + [b]) == Shape(blocks) + [LaneOf(b)]
  {
    hide LaneOf, Keep;
    OneKept(b);
    KeepConcat(blocks, [b]);
  }

  // ---- stored events act on the common lane ------------------------------------------------------------

  lemma {:induction false} IdIndexIs(blocks: Blocks, id: BlockId, i: nat)
    requires i <= |blocks| && (i < |blocks| ==> HasId(blocks[i], id)) && forall j :: 0 <= j < i ==> !HasId(blocks[j], id)
    ensures IdIndex(blocks, id) == i
  {
  }

  /** The first block of an id among the kept ones is the first of all. */
  lemma {:induction false} KeptIdIndex(blocks: Blocks, id: BlockId)
    requires forall b :: b in blocks && HasId(b, id) ==> LaneOf(b) == Kept
    ensures var i := IdIndex(blocks, id);
            IdIndex(Keep(blocks), id) == if i < |blocks| then Rank(blocks, i) else |Keep(blocks)|
  {
    var i, kept := IdIndex(blocks, id), Keep(blocks);
    var n := if i < |blocks| then Rank(blocks, i) else |kept|;
    KeepUpTo(blocks, i);
    forall j | 0 <= j < n ensures !HasId(kept[j], id) {
      assert kept[j] in blocks[..i];
    }
    IdIndexIs(kept, id, n);
  }

  /** The kept blocks before block `i`, and block `i` behind them if it is kept. */
  lemma {:induction false} KeepUpTo(blocks: Blocks, i: nat)
    requires i <= |blocks|
    ensures Rank(blocks, i) <= |Keep(blocks)| && (i == |blocks| ==> Rank(blocks, i) == |Keep(blocks)|)
    ensures forall j :: 0 <= j < Rank(blocks, i) ==> Keep(blocks)[j] in blocks[..i]
    ensures forall j :: Rank(blocks, i) <= j < |Keep(blocks)| ==> Keep(blocks)[j] in blocks[i..]
    ensures i < |blocks| && LaneOf(blocks[i]) == Kept ==> Rank(blocks, i) < |Keep(blocks)| && Keep(blocks)[Rank(blocks, i)] == blocks[i]
  {
    assert blocks == blocks[..i] + blocks[i..];
    KeepConcat(blocks[..i], blocks[i..]);
    forall j | Rank(blocks, i) <= j < |Keep(blocks)| ensures Keep(blocks)[j] in blocks[i..] {
      assert Keep(blocks)[j] == Keep(blocks[i..])[j - Rank(blocks, i)];
    }
    forall j | 0 <= j < Rank(blocks, i) ensures Keep(blocks)[j] in blocks[..i] {
      assert Keep(blocks)[j] == Keep(blocks[..i])[j];
    }
    if i < |blocks| && LaneOf(blocks[i]) == Kept {
      KeepAt(blocks, i, blocks[i]);
    }
  }

  lemma {:induction false} CompletionIndexIs(blocks: Blocks, i: nat)
    requires i <= |blocks| && (i < |blocks| ==> blocks[i].CompletionBlock?) && forall j :: 0 <= j < i ==> !blocks[j].CompletionBlock?
    ensures CompletionIndex(blocks) == i
  {
  }

  lemma {:induction false} KeptCompletion(blocks: Blocks)
    ensures var i := CompletionIndex(blocks);
            CompletionIndex(Keep(blocks)) == if i < |blocks| then Rank(blocks, i) else |Keep(blocks)|
  {
    var i, kept := CompletionIndex(blocks), Keep(blocks);
    var n := if i < |blocks| then Rank(blocks, i) else |kept|;
    KeepUpTo(blocks, i);
    forall j | 0 <= j < n ensures !kept[j].CompletionBlock? {
      assert kept[j] in blocks[..i];
    }
    CompletionIndexIs(kept, n);
  }

  lemma {:induction false} LastToolLabelIs(blocks: Blocks, callId: string, i: int)
    requires -1 <= i < |blocks| && (i >= 0 ==> blocks[i].ToolLabel? && blocks[i].callId == callId)
    requires forall j :: i < j < |blocks| ==> !(blocks[j].ToolLabel? && blocks[j].callId == callId)
    ensures LastToolLabel(blocks, callId) == i
  {
  }

  lemma {:induction false} KeptToolLabel(blocks: Blocks, callId: string)
    ensures var i := LastToolLabel(blocks, callId);
            LastToolLabel(Keep(blocks), callId) == if i >= 0 then Rank(blocks, i) else -1
  {
    hide LastToolLabel, Keep;
    var i, kept := LastToolLabel(blocks, callId), Keep(blocks);
    var n := if i >= 0 then Rank(blocks, i) else -1;
    if i >= 0 {
      KeepUpTo(blocks, i);
      KeepUpTo(blocks, i + 1);
      KeepAppend(blocks[..i], blocks[i]);
      assert blocks[..i + 1] == blocks[..i] + [blocks[i]];
    }
    forall j | n < j < |kept| ensures !(kept[j].ToolLabel? && kept[j].callId == callId) {
      assert kept[j] in if i >= 0 then blocks[i + 1..] else blocks;
    }
    LastToolLabelIs(kept, callId, n);
  }

  lemma {:induction false} MarkAt(blocks: Blocks, e: Event)
    requires e.Interrupted?
    ensures var marked := MarkApproval(blocks, e);
            forall k :: 0 <= k < |blocks| ==>
              && LaneOf(marked[k]) == LaneOf(blocks[k]) && (RightRole(blocks[k]) ==> RightRole(marked[k]))
              && (LaneOf(blocks[k]) != Kept ==> marked[k] == blocks[k])
  {
  }

  lemma {:induction false} MarkKeeps(blocks: Blocks, e: Event)
    requires e.Interrupted?
    ensures Keep(MarkApproval(blocks, e)) == MarkApproval(Keep(blocks), e)
  {
    hide MarkBlock;
    if blocks != [] && e.approvalFor != "" {
      var front, last := blocks[..|blocks| - 1], blocks[|blocks| - 1];
      var marked := MarkApproval(blocks, e);
      MarkKeeps(front, e);
      MarkAt(blocks, e);
      assert marked[..|marked| - 1] == MarkApproval(front, e);
      if LaneOf(last) == Kept {
        assert MarkApproval(Keep(front) + [last], e) == MarkApproval(Keep(front), e) + [MarkBlock(last, e)];
      }
    }
  }

  lemma {:induction false} MarkStays(blocks: Blocks, e: Event)
    requires e.Interrupted? && WellFormed(blocks)
    ensures WellFormed(MarkApproval(blocks, e)) && Shape(MarkApproval(blocks, e)) == Shape(blocks)
    ensures forall b :: LaneOf(b) != Kept ==> (b in MarkApproval(blocks, e) <==> b in blocks)
  {
    hide RightRole, MarkApproval, MarkBlock;
    MarkAt(blocks, e);
    var marked := MarkApproval(blocks, e);
    forall b | b in marked ensures RightRole(b) && (LaneOf(b) != Kept ==> b in blocks) {
      var k :| 0 <= k < |blocks| && marked[k] == b;
      assert blocks[k] in blocks;
    }
    forall b | b in blocks && LaneOf(b) != Kept ensures b in marked {
      var k :| 0 <= k < |blocks| && blocks[k] == b;
      assert marked[k] == b;
    }
  }

  /** What a block of the common lane does to a page, put in place of block `i` or at the
      end. */
  lemma {:induction false} PutKept(blocks: Blocks, i: nat, b: Block)
    requires WellFormed(blocks) && i <= |blocks| && LaneOf(b) == Kept && RightRole(b)
    requires i < |blocks| ==> LaneOf(blocks[i]) == Kept
    ensures var r := if i < |blocks| then blocks[i := b] else blocks + [b];
            && WellFormed(r) && (i < |blocks| ==> Rank(blocks, i) < |Keep(blocks)|)
            && Keep(r) == (if i < |blocks| then Keep(blocks)[Rank(blocks, i) := b] else Keep(blocks) + [b])
            && Shape(r) == (if i < |blocks| then Shape(blocks) else Shape(blocks) + [Kept])
            && (forall x :: LaneOf(x) != Kept ==> (x in r <==> x in blocks))
  {
    hide Keep, LaneOf, RightRole, WellFormed, Rank;
    KeptWellFormed(blocks, i, b);
    if i < |blocks| {
      KeepAt(blocks, i, b);
    } else {
      KeepAppend(blocks, b);
    }
  }

  lemma {:induction false} KeptWellFormed(blocks: Blocks, i: nat, b: Block)
    requires WellFormed(blocks) && i <= |blocks| && LaneOf(b) == Kept && RightRole(b)
    requires i < |blocks| ==> LaneOf(blocks[i]) == Kept
    ensures var r := if i < |blocks| then blocks[i := b] else blocks + [b];
            WellFormed(r) && forall x :: LaneOf(x) != Kept ==> (x in r <==> x in blocks)
  {
    hide LaneOf, RightRole;
    var r := if i < |blocks| then blocks[i := b] else blocks + [b];
    forall x | x in blocks && LaneOf(x) != Kept ensures x in r {
      var k :| 0 <= k < |blocks| && blocks[k] == x;
      assert r[k] == x;
    }
    forall x | x in r ensures x in blocks || x == b {
    }
  }

  lemma {:induction false} UpsertKept(blocks: Blocks, b: Block)
    requires WellFormed(blocks) && (b.ToolLabel? || b.InterruptedBlock?) && RightRole(b)
    ensures ActsOnKept(blocks, Upsert(blocks, b), Upsert(Keep(blocks), b))
  {
    hide Keep, Rank, WellFormed, LaneOf, RightRole, Shape;
    IdsAreKept(blocks, b);
    KeptIdIndex(blocks, b.id);
    var i := IdIndex(blocks, b.id);
    if i < |blocks| {
      assert blocks[i] in blocks;
    }
    OneLane(b);
    PutKept(blocks, i, b);
  }

  lemma {:induction false} OneLane(b: Block)
    ensures b.ToolLabel? || b.InterruptedBlock? || b.CompletionBlock? ==> LaneOf(b) == Kept
  {
  }

  lemma {:induction false} IdsAreKept(blocks: Blocks, b: Block)
    requires WellFormed(blocks) && (b.ToolLabel? || b.InterruptedBlock?) && RightRole(b)
    ensures forall x :: x in blocks && HasId(x, b.id) ==> LaneOf(x) == Kept
  {
  }

  /** A shape to which a kept block was added if their number grew. */
  function Grown(shape: seq<Lane>, before: nat, after: nat): seq<Lane> {
    if after > before then shape + [Kept] else shape
  }

  /** What a stored event does to a page as a whole, seen from its kept blocks. */
  ghost predicate ActsOnKept(blocks: Blocks, r: Blocks, kept: Blocks) {
    && WellFormed(r) && Keep(r) == kept && Shape(r) == Grown(Shape(blocks), |Keep(blocks)|, |kept|)
    && (forall x :: LaneOf(x) != Kept ==> (x in r <==> x in blocks))
  }

  /** A stored event of the common lane does to the kept blocks of a page what it does to a
      page without any others. */
  lemma {:induction false} KeptStep(blocks: Blocks, e: Event)
    requires WellFormed(blocks) && EventLane(e) == Kept
    ensures ActsOnKept(blocks, ApplyEvent(blocks, e), ApplyEvent(Keep(blocks), e))
  {
    hide Keep, WellFormed, Shape, Upsert, StartTool, CompleteTool, AddCompletion, MarkApproval;
    if !IsHandoffTool(e) {
      match e {
        case ToolCall(_, tool) => UpsertKept(blocks, NewLabel(BlockId(tool.callId, ToolRole), e, Loading));
        case ToolResultStart(_, _) => StartKept(blocks, e);
        case ToolResult(_, _, _) => CompleteKept(blocks, e);
        case Interrupted(_, _, _) => InterruptedKept(blocks, e);
        case Complete(_, _) => CompletionKept(blocks, e);
        case _ =>
      }
    }
  }

  lemma {:induction false} StartKept(blocks: Blocks, e: Event)
    requires WellFormed(blocks) && e.ToolResultStart?
    ensures ActsOnKept(blocks, StartTool(blocks, e), StartTool(Keep(blocks), e))
  {
    hide Keep, WellFormed, Shape, Rank;
    KeptToolLabel(blocks, e.tool.callId);
    var i := LastToolLabel(blocks, e.tool.callId);
    if i >= 0 {
      KeepAt(blocks, i, blocks[i]);
    }
    PutKept(blocks, |blocks|, NewLabel(BlockId(e.id, ToolStartRole), e, Loading));
  }

  lemma {:induction false} InterruptedKept(blocks: Blocks, e: Event)
    requires WellFormed(blocks) && e.Interrupted?
    ensures var b := InterruptedBlock(BlockId(e.id, InterruptedRole), e.requestId, None, e);
            ActsOnKept(blocks, Upsert(MarkApproval(blocks, e), b), Upsert(MarkApproval(Keep(blocks), e), b))
  {
    hide Keep, WellFormed, Shape, Upsert;
    MarkKeeps(blocks, e);
    MarkStays(blocks, e);
    UpsertKept(MarkApproval(blocks, e), InterruptedBlock(BlockId(e.id, InterruptedRole), e.requestId, None, e));
    SameLength(blocks, MarkApproval(blocks, e), e);
  }

  lemma {:induction false} CompletionKept(blocks: Blocks, e: Event)
    requires WellFormed(blocks) && e.Complete?
    ensures ActsOnKept(blocks, AddCompletion(blocks, e), AddCompletion(Keep(blocks), e))
  {
    hide Keep, WellFormed, Shape, Rank;
    KeptCompletion(blocks);
    PutKept(blocks, CompletionIndex(blocks), CompletionBlock(e.duration, e));
  }

  lemma {:induction false} SameLength(blocks: Blocks, marked: Blocks, e: Event)
    requires e.Interrupted? && marked == MarkApproval(blocks, e) && Keep(marked) == MarkApproval(Keep(blocks), e)
    ensures |Keep(marked)| == |Keep(blocks)|
  {
  }

  lemma {:induction false} CompleteKept(blocks: Blocks, e: Event)
    requires WellFormed(blocks) && e.ToolResult?
    ensures ActsOnKept(blocks, CompleteTool(blocks, e), CompleteTool(Keep(blocks), e))
  {
    hide Keep, WellFormed, Rank;
    KeptToolLabel(blocks, e.tool.callId);
    var i := LastToolLabel(blocks, e.tool.callId);
    if i >= 0 {
      KeepAt(blocks, i, blocks[i]);
      LabelRole(blocks, i);
      PutKept(blocks, i, ToolLabel(blocks[i].id, e.tool.callId, blocks[i].title, e.tool.details, Normal, None, blocks[i].details + [e]));
    } else {
      PutKept(blocks, |blocks|, ToolLabel(BlockId(e.id, ToolResultRole), e.tool.callId, TOOL_RESULT_TITLE, e.tool.details, Normal, None, [e]));
    }
  }

  lemma {:induction false} LabelRole(blocks: Blocks, i: nat)
    requires WellFormed(blocks) && i < |blocks|
    ensures RightRole(blocks[i])
  {
    assert blocks[i] in blocks;
  }

  // ---- the other lanes -----------------------------------------------------------------------------------

  function Without(shape: seq<Lane>, l: Lane): seq<Lane> {
    if shape == [] then []
    else
      var front := Without(shape[..|shape| - 1], l);
      if shape[|shape| - 1] == l then front else front + [shape[|shape| - 1]]
  }

  function ShapeAfter(shape: seq<Lane>, l: Lane, shows: bool): seq<Lane> {
    if !shows then Without(shape, l) else if l in shape then shape else shape + [l]
  }

  lemma {:induction false} WithoutAbsent(shape: seq<Lane>, l: Lane)
    requires l !in shape
    ensures Without(shape, l) == shape
  {
    if shape != [] {
      WithoutAbsent(shape[..|shape| - 1], l);
      assert shape == shape[..|shape| - 1] + [shape[|shape| - 1]];
    }
  }

  lemma {:induction false} WithoutConcat(a: seq<Lane>, b: seq<Lane>, l: Lane)
    ensures Without(a + b, l) == Without(a, l) + Without(b, l)
  {
    if b == [] {
      assert a + b == a;
    } else {
      assert (a + b)[..|a + b| - 1] == a + b[..|b| - 1];
      WithoutConcat(a, b[..|b| - 1], l);
    }
  }

  /** Leaving out a block that is not of the common lane. */
  lemma {:induction false} LeftOut(front: Blocks, x: Block, back: Blocks)
    requires LaneOf(x) != Kept
    ensures Keep(front + [x] + back) == Keep(front + back)
    ensures WellFormed(front + [x] + back) ==>
              RightRole(x) && WellFormed(front + back) && LaneOf(x) !in Shape(front) && LaneOf(x) !in Shape(back)
    ensures Shape(front + [x] + back) == Shape(front) + [LaneOf(x)] + Shape(back) && Shape(front + back) == Shape(front) + Shape(back)
  {
    hide Keep, WellFormed, LaneOf, RightRole;
    OneKept(x);
    KeepParts(front, x, back);
    KeepConcat(front, back);
    assert Keep(front) + [] == Keep(front);
    ShapeParts(front, x, back);
    if WellFormed(front + [x] + back) {
      PartsWellFormed(front, x, back);
    }
  }

  lemma {:induction false} ShapeParts(front: Blocks, x: Block, back: Blocks)
    ensures Shape(front + [x] + back) == Shape(front) + [LaneOf(x)] + Shape(back) && Shape(front + back) == Shape(front) + Shape(back)
  {
    hide LaneOf;
  }

  lemma {:induction false} PartsWellFormed(front: Blocks, x: Block, back: Blocks)
    requires WellFormed(front + [x] + back) && LaneOf(x) != Kept
    ensures RightRole(x) && WellFormed(front + back) && LaneOf(x) !in Shape(front) && LaneOf(x) !in Shape(back)
  {
    hide RightRole, LaneOf;
    var all, rest := front + [x] + back, front + back;
    assert all[|front|] == x;
    forall k | 0 <= k < |rest| ensures rest[k] == all[if k < |front| then k else k + 1] {
    }
    forall k | 0 <= k < |front| ensures Shape(front)[k] != LaneOf(x) {
      assert all[k] == front[k];
    }
    forall k | 0 <= k < |back| ensures Shape(back)[k] != LaneOf(x) {
      assert all[|front| + 1 + k] == back[k];
    }
    forall b | b in rest ensures b in all {
    }
  }

  lemma {:induction false} PutIn(front: Blocks, x: Block, back: Blocks)
    requires WellFormed(front + back) && RightRole(x) && LaneOf(x) !in Shape(front) && LaneOf(x) !in Shape(back)
    ensures WellFormed(front + [x] + back)
  {
    hide RightRole, LaneOf;
    var all, rest := front + [x] + back, front + back;
    forall k | 0 <= k < |all| && k != |front| ensures LaneOf(all[k]) != LaneOf(x) {
      assert LaneOf(all[k]) == if k < |front| then Shape(front)[k] else Shape(back)[k - |front| - 1];
    }
    forall i, j | 0 <= i < j < |all| && LaneOf(all[i]) == LaneOf(all[j]) ensures LaneOf(all[i]) == Kept {
      if i != |front| && j != |front| {
        var i', j' := if i < |front| then i else i - 1, if j < |front| then j else j - 1;
        assert rest[i'] == all[i] && rest[j'] == all[j];
      }
    }
    forall b | b in all ensures b in rest || b == x {
    }
  }

  /** Block `b` put in place of block `i` of its own lane, or at the end if there is none. */
  lemma {:induction false} PutOwn(blocks: Blocks, i: nat, b: Block)
    requires WellFormed(blocks) && i <= |blocks| && LaneOf(b) != Kept && RightRole(b)
    requires if i < |blocks| then LaneOf(blocks[i]) == LaneOf(b) else LaneOf(b) !in Shape(blocks)
    ensures var r := if i < |blocks| then blocks[i := b] else blocks + [b];
            && WellFormed(r) && Keep(r) == Keep(blocks) && Shape(r) == ShapeAfter(Shape(blocks), LaneOf(b), true)
            && (forall x :: LaneOf(x) != LaneOf(b) ==> (x in r <==> x in blocks))
            && (forall x :: LaneOf(x) == LaneOf(b) ==> (x in r <==> x == b))
  {
    hide WellFormed, Keep, RightRole;
    if i < |blocks| {
      var front, back := blocks[..i], blocks[i + 1..];
      assert blocks == front + [blocks[i]] + back && blocks[i := b] == front + [b] + back;
      LeftOut(front, blocks[i], back);
      LeftOut(front, b, back);
      PutIn(front, b, back);
      assert Shape(blocks)[i] == LaneOf(b);
      NotThere(front, LaneOf(b));
      NotThere(back, LaneOf(b));
    } else {
      assert blocks + [b] == blocks + [b] + [] && blocks + [] == blocks;
      LeftOut(blocks, b, []);
      PutIn(blocks, b, []);
      NotThere(blocks, LaneOf(b));
    }
  }

  lemma {:induction false} TakeOwn(blocks: Blocks, i: nat)
    requires WellFormed(blocks) && i < |blocks| && LaneOf(blocks[i]) != Kept
    ensures var r := blocks[..i] + blocks[i + 1..];
            && WellFormed(r) && Keep(r) == Keep(blocks) && Shape(r) == ShapeAfter(Shape(blocks), LaneOf(blocks[i]), false)
            && (forall x :: LaneOf(x) != LaneOf(blocks[i]) ==> (x in r <==> x in blocks))
            && (forall x :: LaneOf(x) == LaneOf(blocks[i]) ==> x !in r)
  {
    hide WellFormed, Keep;
    var front, back, l := blocks[..i], blocks[i + 1..], LaneOf(blocks[i]);
    assert blocks == front + [blocks[i]] + back;
    LeftOut(front, blocks[i], back);
    WithoutConcat(Shape(front) + [l], Shape(back), l);
    WithoutConcat(Shape(front), [l], l);
    assert [l][..0] == [] && Without([l], l) == [];
    WithoutAbsent(Shape(front), l);
    WithoutAbsent(Shape(back), l);
    NotThere(front, l);
    NotThere(back, l);
  }

  /** The block that a last word leaves. */
  function FinalBlock(e: Event): Block
    requires Settles(e)
  {
    match e
    case MessageFinal(id, text, reasoning) => Text(MessageId(id), text, reasoning, e)
    case CompressionFinal(id, _, _) => CompressionLabel(BlockId(id, CompressionRole), Normal, e)
  }

  lemma {:induction false} TextIsLane(blocks: Blocks, id: string)
    requires WellFormed(blocks)
    ensures TextIndex(blocks, MessageId(id)) < |blocks| <==> MessageLane(id) in Shape(blocks)
  {
    var i := TextIndex(blocks, MessageId(id));
    if i < |blocks| {
      assert Shape(blocks)[i] == MessageLane(id);
    } else {
      forall k | 0 <= k < |blocks| ensures Shape(blocks)[k] != MessageLane(id) {
        LabelRole(blocks, k);
      }
    }
  }

  lemma {:induction false} LabelIsLane(blocks: Blocks, b: Block)
    requires WellFormed(blocks) && (b.CompressionLabel? || b.ActivityLabel?) && RightRole(b)
    ensures var i := IdIndex(blocks, b.id);
            if i < |blocks| then LaneOf(blocks[i]) == LaneOf(b) else LaneOf(b) !in Shape(blocks)
  {
    var i := IdIndex(blocks, b.id);
    if i < |blocks| {
      LabelRole(blocks, i);
    } else {
      forall k | 0 <= k < |blocks| ensures Shape(blocks)[k] != LaneOf(b) {
        LabelRole(blocks, k);
      }
    }
  }

  /** An event of another lane touches the block of that lane only. */
  lemma {:induction false} OwnStep(blocks: Blocks, e: Event)
    requires WellFormed(blocks) && EventLane(e) != Kept
    ensures var r, l := ApplyEvent(blocks, e), EventLane(e);
            && WellFormed(r) && Keep(r) == Keep(blocks) && Shape(r) == ShapeAfter(Shape(blocks), l, Shows(e))
            && (forall x :: LaneOf(x) != l ==> (x in r <==> x in blocks))
            && (Settles(e) && Shows(e) ==> forall x :: LaneOf(x) == l ==> (x in r <==> x == FinalBlock(e)))
            && (!Shows(e) ==> forall x :: LaneOf(x) == l ==> x !in r)
  {
    hide Keep, WellFormed, Shape, Without;
    match e {
      case MessageDelta(id, _) =>
        TextIsLane(blocks, id);
        var i := TextIndex(blocks, MessageId(id));
        var b := if i == |blocks| then Text(MessageId(id), e.text, "", e)
                 else Text(blocks[i].id, blocks[i].content + e.text, blocks[i].reasoning, e);
        PutOwn(blocks, i, b);
      case MessagePartial(id, text, reasoning) => PutTextOwn(blocks, Text(MessageId(id), text, reasoning, e));
      case MessageFinal(id, text, reasoning) => PutTextOwn(blocks, Text(MessageId(id), text, reasoning, e));
      case CompressionStart(id, _) =>
        UpsertOwn(blocks, CompressionLabel(BlockId(id, CompressionRole), Loading, e));
      case CompressionFinal(id, _, _) =>
        UpsertOwn(blocks, CompressionLabel(BlockId(id, CompressionRole), Normal, e));
      case ActivityIndicator(id, _) => UpsertOwn(blocks, ActivityLabel(BlockId(id, ActivityRole), e));
    }
  }

  lemma {:induction false} UpsertOwn(blocks: Blocks, b: Block)
    requires WellFormed(blocks) && (b.CompressionLabel? || b.ActivityLabel?) && RightRole(b)
    ensures var r := Upsert(blocks, b);
            && WellFormed(r) && Keep(r) == Keep(blocks) && Shape(r) == ShapeAfter(Shape(blocks), LaneOf(b), true)
            && (forall x :: LaneOf(x) != LaneOf(b) ==> (x in r <==> x in blocks))
            && (forall x :: LaneOf(x) == LaneOf(b) ==> (x in r <==> x == b))
  {
    hide Keep, WellFormed, Shape;
    LabelIsLane(blocks, b);
    PutOwn(blocks, IdIndex(blocks, b.id), b);
  }

  lemma {:induction false} PutTextOwn(blocks: Blocks, b: Block)
    requires WellFormed(blocks) && b.Text? && b.id.role == MessageRole
    ensures var r, shows := PutText(blocks, b), b.content != "" || b.reasoning != "";
            && WellFormed(r) && Keep(r) == Keep(blocks) && Shape(r) == ShapeAfter(Shape(blocks), LaneOf(b), shows)
            && (forall x :: LaneOf(x) != LaneOf(b) ==> (x in r <==> x in blocks))
            && (forall x :: LaneOf(x) == LaneOf(b) ==> (x in r <==> shows && x == b))
  {
    hide Keep, WellFormed, Shape, Without;
    TextIsLane(blocks, b.id.owner);
    assert MessageId(b.id.owner) == b.id;
    var i := TextIndex(blocks, b.id);
    if b.content != "" || b.reasoning != "" {
      PutOwn(blocks, i, b);
    } else if i < |blocks| {
      TakeOwn(blocks, i);
    } else {
      WithoutAbsent(Shape(blocks), LaneOf(b));
      NotThere(blocks, LaneOf(b));
    }
  }

  lemma {:induction false} NotThere(blocks: Blocks, l: Lane)
    requires l !in Shape(blocks)
    ensures forall x :: LaneOf(x) == l ==> x !in blocks
  {
    forall x | x in blocks ensures LaneOf(x) != l {
      var k :| 0 <= k < |blocks| && blocks[k] == x;
      assert Shape(blocks)[k] == LaneOf(x);
    }
  }
}
