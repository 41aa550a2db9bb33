/** What the default interceptor leaves of the reasoning text, and which parameters it sets. */
module StreamReasoning {
  import opened Common
  import opened Messages
  import opened Interceptors
  import opened MessageFold
  import opened MessagePublishing
  import opened StreamViews
  import opened StreamTheorems
  import opened StreamRepeats
  import opened StreamRaw
  import Text

  // ---- texts in pieces --------------------------------------------------------------------

  function Joined(pieces: seq<string>): string {
    if pieces == [] then "" else Joined(pieces[..|pieces| - 1]) + pieces[|pieces| - 1]
  }

  /** Every piece without its markers; at the root no marker is taken out. */
  function JoinedStripped(depth: nat, pieces: seq<string>): string {
    if pieces == [] then "" else JoinedStripped(depth, pieces[..|pieces| - 1]) + Strip(depth, pieces[|pieces| - 1])
  }

  /** The shown text is the raw one, cut somewhere, with the markers of each piece taken out. */
  ghost predicate Piecewise(depth: nat, raw: string, shown: string) {
    exists pieces :: Joined(pieces) == raw && JoinedStripped(depth, pieces) == shown
  }

  lemma {:induction false} PiecewiseGrows(depth: nat, raw: string, shown: string, piece: string)
    requires Piecewise(depth, raw, shown)
    ensures Piecewise(depth, raw + piece, shown + Strip(depth, piece))
  {
    hide Strip;
    var pieces :| Joined(pieces) == raw && JoinedStripped(depth, pieces) == shown;
    var more := pieces + [piece];
    assert more[..|pieces|] == pieces;
    assert Joined(more) == raw + piece && JoinedStripped(depth, more) == shown + Strip(depth, piece);
  }

  /** Without a marker in the raw text, or at the root, nothing is taken out. */
  lemma {:induction false} PiecewiseWhole(depth: nat, raw: string, shown: string)
    requires Piecewise(depth, raw, shown) && (!IsSubagent(depth) || !Text.Contains(raw, CONTINUE_MARKER))
    ensures shown == raw
  {
    var pieces :| Joined(pieces) == raw && JoinedStripped(depth, pieces) == shown;
    PiecesWhole(depth, pieces);
  }

  lemma {:induction false} PiecesWhole(depth: nat, pieces: seq<string>)
    requires !IsSubagent(depth) || !Text.Contains(Joined(pieces), CONTINUE_MARKER)
    ensures JoinedStripped(depth, pieces) == Joined(pieces)
  {
    if pieces != [] {
      var front, last := pieces[..|pieces| - 1], pieces[|pieces| - 1];
      if IsSubagent(depth) {
        PartsHaveNone(Joined(front), last);
        Text.ReplaceAbsent(last, CONTINUE_MARKER, "");
      }
      PiecesWhole(depth, front);
    }
  }

  lemma {:induction false} PartsHaveNone(a: string, b: string)
    requires !Text.Contains(a + b, CONTINUE_MARKER)
    ensures !Text.Contains(a, CONTINUE_MARKER) && !Text.Contains(b, CONTINUE_MARKER)
  {
    if Text.Contains(a, CONTINUE_MARKER) {
      var i :| 0 <= i <= |a| - |CONTINUE_MARKER| && Text.OccursAt(CONTINUE_MARKER, a, i);
      assert (a + b)[i..i + |CONTINUE_MARKER|] == a[i..i + |CONTINUE_MARKER|];
      assert Text.OccursAt(CONTINUE_MARKER, a + b, i);
    }
    if Text.Contains(b, CONTINUE_MARKER) {
      var i :| 0 <= i <= |b| - |CONTINUE_MARKER| && Text.OccursAt(CONTINUE_MARKER, b, i);
      assert (a + b)[|a| + i..|a| + i + |CONTINUE_MARKER|] == b[i..i + |CONTINUE_MARKER|];
      assert Text.OccursAt(CONTINUE_MARKER, a + b, |a| + i);
    }
  }

  // ---- one context ---------------------------------------------------------------------------

  /** What a release does to the reasoning: the display side loses its markers, the context
      side nothing, and a replay leaves both. */
  lemma {:induction false} ReasoningReleased(depth: nat, ctx: InterceptionContext, isEnd: bool, e: bool)
    requires ctx.heldDisplay == ctx.heldContext
    ensures var saved, held := Handle(DEFAULT_CHAIN, depth, ctx, EMPTY_DELTA, isEnd, e).saved, Read(ctx.heldDisplay.reasoning);
            && saved.heldDisplay == saved.heldContext
            && (saved == ctx ||
                (saved.heldDisplay == EMPTY_CONTENT
                 && Read(saved.receivedContext.reasoning) == Read(ctx.receivedContext.reasoning) + held
                 && Read(saved.receivedDisplay.reasoning) == Read(ctx.receivedDisplay.reasoning) + Strip(depth, held)))
            && (e ==> saved.heldDisplay == EMPTY_CONTENT)
  {
    hide FlushChain, ReplayChain, HoldChain, Text.Contains, Text.Replace;
    FlushedReasoning(depth, ctx, e);
    var m := FlushChain(DEFAULT_CHAIN, 1, depth, ctx, e);
    var released := Released(ctx, m);
    AppendReads(ctx.receivedContext.reasoning, m.context.value.reasoning);
    AppendReads(ctx.receivedDisplay.reasoning, m.display.value.reasoning);
    ReplayedReasoning(depth, released.receivedDisplay, released.receivedContext, e);
  }

  lemma {:induction false} FlushedReasoning(depth: nat, ctx: InterceptionContext, e: bool)
    ensures var m := FlushChain(DEFAULT_CHAIN, 1, depth, ctx, e);
            Read(m.display.value.reasoning) == Strip(depth, Read(ctx.heldDisplay.reasoning)) && m.context.value == ctx.heldContext
  {
    assert FlushChain(DEFAULT_CHAIN, 0, depth, ctx, e) == MessageModified(Some(ctx.heldDisplay), Some(ctx.heldContext), map[]);
    assert ctx.(heldDisplay := ctx.heldDisplay, heldContext := ctx.heldContext) == ctx;
    var m := DefaultFlush(depth, ctx, e);
    assert FlushChain(DEFAULT_CHAIN, 1, depth, ctx, e)
        == MessageModified(Some(OrElse(m.display, ctx.heldDisplay)), Some(ctx.heldContext), m.params);
    if IsSubagent(depth) && m.display.None? {
      Text.ReplaceAbsent(Read(ctx.heldDisplay.reasoning), CONTINUE_MARKER, "");
    }
  }

  lemma {:induction false} ReplayedReasoning(depth: nat, display: MessageContent, context: MessageContent, e: bool)
    ensures var r := ReplayChain(DEFAULT_CHAIN, 1, depth, display, context, e);
            r.Some? ==> r.value.display.value.reasoning == display.reasoning && r.value.context.value == context
  {
    assert ReplayChain(DEFAULT_CHAIN, 0, depth, display, context, e) == None;
  }

  // ---- a run ------------------------------------------------------------------------------------

  function HeldReasoning(v: View): string {
    if v.ctx.Some? then Read(v.ctx.value.heldDisplay.reasoning) else ""
  }

  /** The received side of the reasoning: the context has all but what is held, the display
      the same piece by piece without markers. */
  ghost predicate ReasoningOk(depth: nat, v: View) {
    && HeldAlike(v) && Read(ReceivedContext(v).reasoning) + HeldReasoning(v) == Read(v.message.reasoning)
    && Piecewise(depth, Read(ReceivedContext(v).reasoning), Read(ReceivedDisplay(v).reasoning))
  }

  lemma {:induction false} ReasoningChoice(depth: nat, v: View, chunk: Chunk, c: ChunkChoice)
    requires ReasoningOk(depth, v) && IsRaw(c.delta) && Owns(v, c.index)
    ensures ReasoningOk(depth, StepChoice(DEFAULT_CHAIN, depth, v, chunk, c))
  {
    hide BuildContext, Handle, ApplyChoice, Patched, Strip, Piecewise, HasHeld;
    var ctx := BuildContext(OwnContext(v.ctx), chunk, c);
    BuiltHeld(v, chunk, c);
    ChoiceReasoning(depth, v, chunk, c);
    if HasHeld(ctx) {
      ReasoningReleased(depth, ctx, false, chunk.hasUsage);
      HandleApart(DEFAULT_CHAIN, depth, ctx, c.delta, chunk.hasUsage);
      PiecewiseGrows(depth, Read(ReceivedContext(v).reasoning), Read(ReceivedDisplay(v).reasoning), Read(ctx.heldDisplay.reasoning));
    } else {
      NothingThere(ctx);
    }
  }

  /** The raw reasoning of the message grows by the chunk's, whatever is released. */
  lemma {:induction false} ChoiceReasoning(depth: nat, v: View, chunk: Chunk, c: ChunkChoice)
    ensures Read(StepChoice(DEFAULT_CHAIN, depth, v, chunk, c).message.reasoning) == Read(v.message.reasoning) + Read(c.delta.reasoning)
  {
    hide BuildContext, Handle, ApplyChoice, Patched, HasHeld;
    var ctx := BuildContext(OwnContext(v.ctx), chunk, c);
    HandleKeepsRaw(DEFAULT_CHAIN, depth, ctx, c.delta, false, chunk.hasUsage);
    var h := Handle(DEFAULT_CHAIN, depth, ctx, c.delta, false, chunk.hasUsage);
    ReasoningGrows(v.message, c);
    ReasoningGrows(v.message, c.(delta := h.delta));
    PatchedReasoning(ApplyChoice(v.message, InProgress, c.(delta := h.delta)), InProgressPartial, c.index, h.replay);
  }

  lemma {:induction false} NothingThere(ctx: InterceptionContext)
    requires !HasHeld(ctx)
    ensures Read(ctx.heldDisplay.reasoning) == ""
  {
  }

  lemma {:induction false} ReasoningGrows(m: Message, c: ChunkChoice)
    ensures Read(ApplyChoice(m, InProgress, c).reasoning) == Read(m.reasoning) + Read(c.delta.reasoning)
  {
  }

  lemma {:induction false} PatchedReasoning(m: Message, phase: Phase, i: int, modified: Option<MessageModified>)
    requires phase.InProgress? || phase.InProgressPartial?
    ensures Patched(m, phase, i, modified).reasoning == m.reasoning
  {
  }

  lemma {:induction false} ReasoningRun(depth: nat, s: seq<MessageEvent>, eventId: string, i: int)
    requires FromProvider(s) && Open(s) && Once(s, i)
    ensures var v := RunView(DEFAULT_CHAIN, depth, s, eventId, i); ReasoningOk(depth, v) && Owns(v, i)
  {
    hide StepView, StepChoice, Own, ReasoningOk;
    DefaultObeys();
    SyncedRun(DEFAULT_CHAIN, depth, s, eventId, i);
    if s == [] {
      ReasoningStart(depth);
    } else {
      var front, last := s[..|s| - 1], s[|s| - 1];
      assert last in s && NamedOnce(last, i) && forall e :: e in front ==> e in s;
      ReasoningRun(depth, front, eventId, i);
      if last.eventId == eventId {
        StepOpen(DEFAULT_CHAIN, depth, RunView(DEFAULT_CHAIN, depth, front, eventId, i), last, i);
        var own := Own(ChoicesOf(last), i);
        if own != [] {
          assert own[0] in own;
          ReasoningChoice(depth, RunView(DEFAULT_CHAIN, depth, front, eventId, i), last.chunk.value, own[0]);
        }
      }
    }
  }

  lemma {:induction false} ReasoningStart(depth: nat)
    ensures ReasoningOk(depth, View(None, FRESH_MESSAGE))
  {
    var none: seq<string> := [];
    assert Joined(none) == "" && JoinedStripped(depth, none) == "";
  }

  /** At END all of it is released and shown. */
  lemma {:induction false} ReasoningEnd(depth: nat, v: View, i: int)
    requires ReasoningOk(depth, v) && Synced(v)
    ensures var m := StepEnd(DEFAULT_CHAIN, depth, v, i).message;
            && m.reasoning == v.message.reasoning && Read(m.contextReasoning) == Read(m.reasoning)
            && Piecewise(depth, Read(m.reasoning), Read(m.displayReasoning))
  {
    hide Handle, Patched, Strip, Piecewise, HasHeld;
    if v.ctx.Some? && HasHeld(v.ctx.value) {
      var ctx := v.ctx.value;
      var h := Handle(DEFAULT_CHAIN, depth, ctx, EMPTY_DELTA, true, true);
      DefaultObeys();
      SyncedEnd(DEFAULT_CHAIN, depth, v, i);
      ReasoningReleased(depth, ctx, true, true);
      PiecewiseGrows(depth, Read(ReceivedContext(v).reasoning), Read(ReceivedDisplay(v).reasoning), Read(ctx.heldDisplay.reasoning));
      PatchedReasoning(v.message, InProgress, i, h.flush);
      PatchedReasoning(Patched(v.message, InProgress, i, h.flush), InProgressPartial, i, h.replay);
    } else if v.ctx.Some? {
      NothingThere(v.ctx.value);
    }
  }

  /** For every cut into chunks that name the choice once and every interleaving: the context
      reasoning is all the reasoning the provider sent, and the displayed reasoning is the
      same with markers taken out at most: all of it at the root, and wherever no marker
      stands in it. */
  lemma {:induction false} ReasoningIsKept(depths: string -> nat, events: seq<MessageEvent>, eventId: string, i: int)
    requires FromProvider(events) && ValidStream(OfStream(events, eventId)) && Once(OfStream(events, eventId), i)
    ensures var raw := Said(EntriesOf(OfStream(events, eventId), i), RawReasoning);
            var m := Stored(PublishAll(DEFAULT_CHAIN, depths, events).channel, eventId, i);
            var shown := Read(Fallback(m.displayReasoning, m.reasoning));
            && Read(m.reasoning) == raw && Read(Fallback(m.contextReasoning, m.reasoning)) == raw
            && Piecewise(depths(eventId), raw, shown)
            && (!IsSubagent(depths(eventId)) || !Text.Contains(raw, CONTINUE_MARKER) ==> shown == raw)
  {
    hide PublishAll, RunView, ProviderEvent, Fold, EntriesOf, Said, Piecewise, Text.Contains, StepEnd, ReasoningOk;
    var s, depth := OfStream(events, eventId), depths(eventId);
    RawReachesReader(DEFAULT_CHAIN, depths, events, eventId, i);
    OfStreamAll(events, eventId);
    ViewsAreIndependent(DEFAULT_CHAIN, depths, events, eventId, i);
    FoldOfStream(PublishAll(DEFAULT_CHAIN, depths, events).channel, eventId, i);
    FoldFilled(PublishAll(DEFAULT_CHAIN, depths, events).channel, eventId, i);
    LastStep(depth, s, eventId, i);
    var m := RunView(DEFAULT_CHAIN, depth, s, eventId, i).message;
    StrippedReasoning(m);
    if !IsSubagent(depth) || !Text.Contains(Read(m.reasoning), CONTINUE_MARKER) {
      PiecewiseWhole(depth, Read(m.reasoning), Read(m.displayReasoning));
    }
  }

  lemma {:induction false} LastStep(depth: nat, s: seq<MessageEvent>, eventId: string, i: int)
    requires FromProvider(s) && ValidStream(s) && Once(s, i) && forall e :: e in s ==> e.eventId == eventId
    ensures var m := RunView(DEFAULT_CHAIN, depth, s, eventId, i).message;
            Read(m.contextReasoning) == Read(m.reasoning) && Piecewise(depth, Read(m.reasoning), Read(m.displayReasoning))
  {
    hide StepEnd, ReasoningOk, Piecewise, ProviderEvent, NamedOnce, StepView, Synced;
    var front := s[..|s| - 1];
    FrontOfValid(depth, s, i);
    EndIsLast(depth, s, eventId, i);
    assert forall e :: e in front ==> e in s;
    DefaultObeys();
    SyncedRun(DEFAULT_CHAIN, depth, front, eventId, i);
    ReasoningRun(depth, front, eventId, i);
    ReasoningEnd(depth, RunView(DEFAULT_CHAIN, depth, front, eventId, i), i);
  }

  lemma {:induction false} StrippedReasoning(m: Message)
    ensures Read(Fallback(StripSame(m).displayReasoning, StripSame(m).reasoning)) == Read(Fallback(m.displayReasoning, m.reasoning))
    ensures Read(Fallback(StripSame(m).contextReasoning, StripSame(m).reasoning)) == Read(Fallback(m.contextReasoning, m.reasoning))
  {
  }
}
