/** Which parameters the default interceptor leaves on a message, and what they mean. */
module StreamMarks {
  import opened Common
  import opened Messages
  import opened Interceptors
  import opened MessageFold
  import opened MessagePublishing
  import opened StreamViews
  import opened StreamTheorems
  import opened StreamResults
  import opened StreamReasoning
  import opened StreamRepeats
  import Text

  /** The only marks: a continue tag that is set, and the one replay. */
  predicate KnownMarks(params: Params) {
    forall k | k in params :: (k == "has_continue_tag" && params[k] == Flag(true)) || (k == ['\U{60A8}'] && params[k] == Number(1))
  }

  /** The replay is marked exactly if the text holds the character it rewrites. */
  predicate MarksOk(m: Message) {
    KnownMarks(m.params) && (['\U{60A8}'] in m.params <==> '\U{60A8}' in Read(m.contextContent))
  }

  lemma {:induction false} CountsAre(s: string, c: char)
    ensures Text.Count(s, c) > 0 <==> c in s
  {
  }

  lemma {:induction false} StripKeepsNin(depth: nat, s: string)
    ensures NIN in Strip(depth, s) <==> NIN in s
  {
    CountsAre(s, NIN);
    CountsAre(Remove(s), NIN);
    RemoveKeepsNin(s);
  }

  lemma {:induction false} ContainsNin(s: string)
    ensures Text.Contains(s, [NIN]) <==> NIN in s
  {
    if NIN in s {
      var k :| 0 <= k < |s| && s[k] == NIN;
      assert Text.OccursAt([NIN], s, k);
    }
    if Text.Contains(s, [NIN]) {
      var k :| 0 <= k <= |s| - 1 && Text.OccursAt([NIN], s, k);
      assert s[k..k + 1][0] == s[k];
    }
  }

  /** The rewrite leaves none behind. */
  lemma {:induction false} NoNinLeft(s: string)
    ensures NIN !in Text.Replace(s, [NIN], NING)
  {
    if s != "" {
      NoNinLeft(s[1..]);
      assert s[..1] == [NIN] <==> s[0] == NIN;
    }
  }

  lemma {:induction false} FlushMarks(depth: nat, ctx: InterceptionContext, e: bool)
    ensures KnownMarks(FlushChain(DEFAULT_CHAIN, 1, depth, ctx, e).params) && [NIN] !in FlushChain(DEFAULT_CHAIN, 1, depth, ctx, e).params
  {
    assert FlushChain(DEFAULT_CHAIN, 0, depth, ctx, e) == MessageModified(Some(ctx.heldDisplay), Some(ctx.heldContext), map[]);
    assert |HAS_CONTINUE_TAG| != |[NIN]|;
  }

  lemma {:induction false} ReplayMarks(depth: nat, display: MessageContent, context: MessageContent, e: bool)
    ensures var r := ReplayChain(DEFAULT_CHAIN, 1, depth, display, context, e);
            && (r.Some? <==> NIN in Read(display.content))
            && (r.Some? ==> KnownMarks(r.value.params) && [NIN] in r.value.params)
  {
    assert ReplayChain(DEFAULT_CHAIN, 0, depth, display, context, e) == None;
    ContainsNin(Read(display.content));
  }

  lemma {:induction false} MarkRelease(depth: nat, before: View, g: Segments, ctx: InterceptionContext, applied: Message, e: bool, i: int)
    requires Good(depth, before, g, false) && MarksOk(before.message)
    requires ctx.receivedDisplay == ReceivedDisplay(before) && ctx.receivedContext == ReceivedContext(before)
    requires ctx.heldDisplay == ctx.heldContext
    requires var m := FlushChain(DEFAULT_CHAIN, 1, depth, ctx, e);
             && SameText(FoldedDisplay(applied), MergeContent(FoldedDisplay(before.message), m.display.value))
             && SameText(FoldedContext(applied), MergeContent(FoldedContext(before.message), m.context.value))
             && applied.params == before.message.params + m.params
    ensures var released := Released(ctx, FlushChain(DEFAULT_CHAIN, 1, depth, ctx, e));
            MarksOk(Patched(applied, InProgressPartial, i, ReplayChain(DEFAULT_CHAIN, 1, depth, released.receivedDisplay, released.receivedContext, e)))
  {
    hide FlushChain, ReplayChain, Strip, Text.Contains, CutSafe, StreamTheorems.Sent, Held, Text.Replace;
    DefaultRelease(depth, before, g, ctx, applied, e, i, false);
    var m, block := FlushChain(DEFAULT_CHAIN, 1, depth, ctx, e), Read(ctx.heldDisplay.content);
    var released := Released(ctx, m);
    DefaultFlushed(depth, ctx, e);
    FlushMarks(depth, ctx, e);
    AppendReads(ReceivedDisplay(before).content, m.display.value.content);
    ReplayMarks(depth, released.receivedDisplay, released.receivedContext, e);
    StripKeepsNin(depth, block);
    NoNinLeft(g.closed + Strip(depth, StreamTheorems.Sent(before, g)));
    var replay := ReplayChain(DEFAULT_CHAIN, 1, depth, released.receivedDisplay, released.receivedContext, e);
    PatchedParams(applied, i, replay);
  }

  lemma {:induction false} PatchedParams(m: Message, i: int, modified: Option<MessageModified>)
    ensures Patched(m, InProgressPartial, i, modified).params == if modified.None? then m.params else m.params + modified.value.params
  {
  }

  lemma {:induction false} SameMarks(m: Message, m': Message)
    requires MarksOk(m) && m'.params == m.params && SameText(FoldedContext(m'), FoldedContext(m))
    ensures MarksOk(m')
  {
  }

  lemma {:induction false} MarkChoice(depth: nat, v: View, g: Segments, chunk: Chunk, c: ChunkChoice)
    requires Good(depth, v, g, false) && MarksOk(v.message) && IsRaw(c.delta) && Owns(v, c.index)
    ensures MarksOk(StepChoice(DEFAULT_CHAIN, depth, v, chunk, c).message)
  {
    hide FlushChain, ReplayChain, CleanSegments, Strip, Text.Contains, CutSafe, ApplyChoice, ReleaseDelta, ClearChannels,
         BuildContext, DefaultHold, StepChoice, MarksOk;
    DefaultObeys();
    var ctx := BuildContext(OwnContext(v.ctx), chunk, c);
    var r := StepChoice(DEFAULT_CHAIN, depth, v, chunk, c);
    BuiltHeld(v, chunk, c);
    QuietDelta(v.message, c);
    DefaultCases(depth, v, chunk, c);
    if !HasHeld(ctx) || (!chunk.hasUsage && DefaultHold(depth, ctx)) {
      SameMarks(v.message, r.message);
    } else {
      var m := FlushChain(DEFAULT_CHAIN, 1, depth, ctx, chunk.hasUsage);
      FlushChainKeeps(DEFAULT_CHAIN, 1, depth, ctx, chunk.hasUsage);
      ReleasedDelta(v.message, c, m.display.value, m.context.value, m.params);
      var applied := ApplyChoice(v.message, InProgress, c.(delta := ReleaseDelta(c.delta, m.display.value, m.context.value, m.params)));
      MarkRelease(depth, v, g, ctx, applied, chunk.hasUsage, c.index);
    }
  }

  lemma {:induction false} MarkEnd(depth: nat, v: View, g: Segments, i: int)
    requires Good(depth, v, g, false) && MarksOk(v.message)
    ensures MarksOk(StepEnd(DEFAULT_CHAIN, depth, v, i).message)
  {
    hide FlushChain, ReplayChain, CleanSegments, Strip, Text.Contains, CutSafe, MarksOk;
    if v.ctx.Some? && HasHeld(v.ctx.value) {
      var ctx := v.ctx.value;
      var m := FlushChain(DEFAULT_CHAIN, 1, depth, ctx, true);
      var applied := Patched(v.message, InProgress, i, Some(m));
      AppendReads(v.message.displayContent, m.display.value.content);
      AppendReads(v.message.displayReasoning, m.display.value.reasoning);
      AppendReads(v.message.contextContent, m.context.value.content);
      AppendReads(v.message.contextReasoning, m.context.value.reasoning);
      MarkRelease(depth, v, g, ctx, applied, true, i);
    }
  }

  lemma {:induction false} MarkRun(depth: nat, s: seq<MessageEvent>, eventId: string, i: int)
    requires FromProvider(s) && Open(s) && Once(s, i) && forall e :: e in s ==> e.eventId == eventId
    ensures MarksOk(RunView(DEFAULT_CHAIN, depth, s, eventId, i).message)
  {
    hide Good, StepView, StepChoice, Own, ProviderEvent, ExtendSegment, MarksOk;
    if s == [] {
      FreshMarks();
    } else {
      var front, last := s[..|s| - 1], s[|s| - 1];
      assert last in s && NamedOnce(last, i) && forall e :: e in front ==> e in s;
      MarkRun(depth, front, eventId, i);
      GoodRun(depth, front, eventId, i, false);
      var v := RunView(DEFAULT_CHAIN, depth, front, eventId, i);
      StepOpen(DEFAULT_CHAIN, depth, v, last, i);
      var own := Own(ChoicesOf(last), i);
      if own != [] {
        assert own[0] in own;
        assert ProviderEvent(last);
        RawOwn(last, own[0]);
        MarkChoice(depth, v, SegmentsOf(depth, front, i), last.chunk.value, own[0]);
      }
    }
  }

  lemma {:induction false} RawOwn(e: MessageEvent, c: ChunkChoice)
    requires ProviderEvent(e) && c in ChoicesOf(e)
    ensures IsRaw(c.delta) && e.chunk.Some?
  {
  }

  lemma {:induction false} FreshMarks()
    ensures MarksOk(FRESH_MESSAGE)
  {
  }

  /** For every cut into chunks that name the choice once: the message bears no marks but a
      continue tag that is set and the one of the replay, and the replay's exactly if the raw
      text holds the character it rewrites. */
  lemma {:induction false} MarksAre(depths: string -> nat, events: seq<MessageEvent>, eventId: string, i: int)
    requires FromProvider(events) && ValidStream(OfStream(events, eventId)) && Once(OfStream(events, eventId), i)
    ensures var m := Stored(PublishAll(DEFAULT_CHAIN, depths, events).channel, eventId, i);
            KnownMarks(m.params) && (['\U{60A8}'] in m.params <==> '\U{60A8}' in RawText(OfStream(events, eventId), i))
  {
    hide PublishAll, RunView, ProviderEvent, Fold, RawText, StepEnd, Good, CleanSegments, SegmentsOf, Tagging, KnownMarks;
    var s, depth := OfStream(events, eventId), depths(eventId);
    OfStreamAll(events, eventId);
    ViewsAreIndependent(DEFAULT_CHAIN, depths, events, eventId, i);
    FoldOfStream(PublishAll(DEFAULT_CHAIN, depths, events).channel, eventId, i);
    RewriteOfView(depth, s, eventId, i);
    MarkLast(depth, s, eventId, i);
  }

  lemma {:induction false} MarkLast(depth: nat, s: seq<MessageEvent>, eventId: string, i: int)
    requires FromProvider(s) && ValidStream(s) && Once(s, i) && forall e :: e in s ==> e.eventId == eventId
    ensures MarksOk(RunView(DEFAULT_CHAIN, depth, s, eventId, i).message)
  {
    hide StepEnd, Good, ProviderEvent, NamedOnce, StepView, MarksOk, RawText, SegmentsOf;
    var front := s[..|s| - 1];
    FrontOfValid(depth, s, i);
    EndIsLast(depth, s, eventId, i);
    assert forall e :: e in front ==> e in s;
    GoodRun(depth, front, eventId, i, false);
    MarkRun(depth, front, eventId, i);
    MarkEnd(depth, RunView(DEFAULT_CHAIN, depth, front, eventId, i), SegmentsOf(depth, front, i), i);
  }

  // ---- the continue tag ---------------------------------------------------------------------

  /** The displayed reasoning is the context's, or a marker was taken out of it. */
  predicate Shortened(display: string, context: string) {
    |display| < |context|
  }

  /** So far: the tag is set exactly if a marker was taken out of either text. */
  ghost predicate TagOk(depth: nat, v: View, g: Segments) {
    && (Shortened(Read(ReceivedDisplay(v).reasoning), Read(ReceivedContext(v).reasoning))
        || Read(ReceivedDisplay(v).reasoning) == Read(ReceivedContext(v).reasoning))
    && (Tagged(v) <==> || g.tagged || Tagging(depth, StreamTheorems.Sent(v, g))
                       || Shortened(Read(ReceivedDisplay(v).reasoning), Read(ReceivedContext(v).reasoning)))
  }

  lemma {:induction false} RemoveShrinks(s: string)
    ensures |Text.Replace(s, CONTINUE_MARKER, "")| <= |s|
    ensures Text.Replace(s, CONTINUE_MARKER, "") != s ==> |Text.Replace(s, CONTINUE_MARKER, "")| < |s|
  {
    if s != "" {
      if CONTINUE_MARKER <= s {
        RemoveShrinks(s[|CONTINUE_MARKER|..]);
      } else {
        RemoveShrinks(s[1..]);
        assert s == [s[0]] + s[1..];
      }
    }
  }

  lemma {:induction false} MarkerShrinks(s: string)
    requires Text.Contains(s, CONTINUE_MARKER)
    ensures |Text.Replace(s, CONTINUE_MARKER, "")| < |s|
  {
    var k :| 0 <= k <= |s| - |CONTINUE_MARKER| && Text.OccursAt(CONTINUE_MARKER, s, k);
    if CONTINUE_MARKER <= s {
      RemoveShrinks(s[|CONTINUE_MARKER|..]);
    } else {
      assert k > 0;
      assert s[1..][k - 1..k - 1 + |CONTINUE_MARKER|] == s[k..k + |CONTINUE_MARKER|];
      assert Text.OccursAt(CONTINUE_MARKER, s[1..], k - 1);
      MarkerShrinks(s[1..]);
    }
  }

  /** Taking out markers is seen in the length. */
  lemma {:induction false} StripShortens(depth: nat, display: string, context: string, piece: string)
    requires Shortened(display, context) || display == context
    ensures var shown, all := display + Strip(depth, piece), context + piece;
            && (Shortened(shown, all) || shown == all)
            && (Shortened(shown, all) <==> Shortened(display, context) || (IsSubagent(depth) && Text.Contains(piece, CONTINUE_MARKER)))
  {
    RemoveShrinks(piece);
    if Text.Contains(piece, CONTINUE_MARKER) {
      MarkerShrinks(piece);
    } else {
      Text.ReplaceAbsent(piece, CONTINUE_MARKER, "");
    }
  }

  /** A release: the tag is set now if it was, or a marker stands in what is released. */
  lemma {:induction false} TagRelease(depth: nat, before: View, g: Segments, ctx: InterceptionContext, applied: Message, e: bool, i: int)
    requires Good(depth, before, g, false) && TagOk(depth, before, g)
    requires ctx.receivedDisplay == ReceivedDisplay(before) && ctx.receivedContext == ReceivedContext(before)
    requires ctx.heldDisplay == ctx.heldContext
    requires applied.params == before.message.params + FlushChain(DEFAULT_CHAIN, 1, depth, ctx, e).params
    ensures var released := Released(ctx, FlushChain(DEFAULT_CHAIN, 1, depth, ctx, e));
            var m' := Patched(applied, InProgressPartial, i, ReplayChain(DEFAULT_CHAIN, 1, depth, released.receivedDisplay, released.receivedContext, e));
            var display := Read(ReceivedDisplay(before).reasoning) + Strip(depth, Read(ctx.heldDisplay.reasoning));
            var context := Read(ReceivedContext(before).reasoning) + Read(ctx.heldDisplay.reasoning);
            && (Shortened(display, context) || display == context)
            && (HAS_CONTINUE_TAG in m'.params <==>
                  g.tagged || Tagging(depth, StreamTheorems.Sent(before, g) + Read(ctx.heldDisplay.content)) || Shortened(display, context))
  {
    hide FlushChain, ReplayChain, Strip, Text.Contains, CutSafe, StreamTheorems.Sent, Held, Text.Replace;
    var released := Released(ctx, FlushChain(DEFAULT_CHAIN, 1, depth, ctx, e));
    DefaultFlushed(depth, ctx, e);
    DefaultReplayed(depth, released.receivedDisplay, released.receivedContext, e);
    PatchedParams(applied, i, ReplayChain(DEFAULT_CHAIN, 1, depth, released.receivedDisplay, released.receivedContext, e));
    CleanIncremental(depth, g.closed, StreamTheorems.Sent(before, g), Read(ctx.heldDisplay.content));
    StripShortens(depth, Read(ReceivedDisplay(before).reasoning), Read(ReceivedContext(before).reasoning), Read(ctx.heldDisplay.reasoning));
  }

  /** Nothing is released: what was sent is the same, and so is the tag. */
  lemma {:induction false} TagStays(depth: nat, v: View, g: Segments, r: View, g': Segments)
    requires TagOk(depth, v, g) && r.message.params == v.message.params && g'.tagged == g.tagged
    requires ReceivedDisplay(r) == ReceivedDisplay(v) && ReceivedContext(r) == ReceivedContext(v)
    requires StreamTheorems.Sent(r, g') == StreamTheorems.Sent(v, g)
    ensures TagOk(depth, r, g')
  {
  }

  /** Closing a segment with nothing held. */
  lemma {:induction false} TagCloses(depth: nat, v: View, g: Segments)
    requires Good(depth, v, g, false) && Held(v) == "" && TagOk(depth, v, g)
    ensures TagOk(depth, v, CloseSegment(depth, g))
  {
    hide Strip, Text.Contains, CutSafe;
    NothingOpen(depth, g);
    assert StreamTheorems.Sent(v, g) == g.open && StreamTheorems.Sent(v, CloseSegment(depth, g)) == "";
  }

  /** The reasoning a released context has received. */
  lemma {:induction false} StepReasoning(depth: nat, v: View, chunk: Chunk, c: ChunkChoice)
    requires HeldAlike(v) && Owns(v, c.index)
    requires var ctx := BuildContext(OwnContext(v.ctx), chunk, c); HasHeld(ctx) && (chunk.hasUsage || !DefaultHold(depth, ctx))
    ensures var r, held := StepChoice(DEFAULT_CHAIN, depth, v, chunk, c), Read(BuildContext(OwnContext(v.ctx), chunk, c).heldDisplay.reasoning);
            && Read(ReceivedDisplay(r).reasoning) == Read(ReceivedDisplay(v).reasoning) + Strip(depth, held)
            && Read(ReceivedContext(r).reasoning) == Read(ReceivedContext(v).reasoning) + held
  {
    hide BuildContext, Handle, ApplyChoice, Patched, Strip, FlushChain, ReplayChain, ReleaseDelta, ClearChannels, DefaultHold;
    var ctx := BuildContext(OwnContext(v.ctx), chunk, c);
    BuiltHeld(v, chunk, c);
    DefaultCases(depth, v, chunk, c);
    ReasoningReleased(depth, ctx, false, chunk.hasUsage);
    HandleApart(DEFAULT_CHAIN, depth, ctx, c.delta, chunk.hasUsage);
  }

  lemma {:induction false} TagReleased(depth: nat, v: View, g: Segments, chunk: Chunk, c: ChunkChoice)
    requires Good(depth, v, g, false) && TagOk(depth, v, g) && IsRaw(c.delta) && Owns(v, c.index)
    requires var ctx := BuildContext(OwnContext(v.ctx), chunk, c); HasHeld(ctx) && (chunk.hasUsage || !DefaultHold(depth, ctx))
    ensures TagOk(depth, StepChoice(DEFAULT_CHAIN, depth, v, chunk, c), ExtendSegment(depth, g, Read(c.delta.content), chunk.hasUsage))
  {
    hide FlushChain, ReplayChain, CleanSegments, CloseSegment, Strip, Text.Contains, CutSafe, ApplyChoice, ReleaseDelta,
         ClearChannels, BuildContext, DefaultHold, StepChoice, TagOk, Tagging;
    var ctx := BuildContext(OwnContext(v.ctx), chunk, c);
    var r := StepChoice(DEFAULT_CHAIN, depth, v, chunk, c);
    DefaultObeys();
    BuiltHeld(v, chunk, c);
    DefaultCases(depth, v, chunk, c);
    StepReasoning(depth, v, chunk, c);
    var m := FlushChain(DEFAULT_CHAIN, 1, depth, ctx, chunk.hasUsage);
    FlushChainKeeps(DEFAULT_CHAIN, 1, depth, ctx, chunk.hasUsage);
    ReleasedDelta(v.message, c, m.display.value, m.context.value, m.params);
    var applied := ApplyChoice(v.message, InProgress, c.(delta := ReleaseDelta(c.delta, m.display.value, m.context.value, m.params)));
    TagRelease(depth, v, g, ctx, applied, chunk.hasUsage, c.index);
    var longer := g.(open := g.open + Read(c.delta.content));
    assert longer.open == StreamTheorems.Sent(v, g) + Read(ctx.heldDisplay.content) && Held(r) == "";
    TagAfter(depth, r, longer, chunk.hasUsage);
  }

  lemma {:induction false} TagAfter(depth: nat, r: View, g: Segments, usage: bool)
    requires Held(r) == ""
    requires var display, context := Read(ReceivedDisplay(r).reasoning), Read(ReceivedContext(r).reasoning);
             (Shortened(display, context) || display == context)
             && (Tagged(r) <==> g.tagged || Tagging(depth, g.open) || Shortened(display, context))
    ensures TagOk(depth, r, if usage then CloseSegment(depth, g) else g)
  {
    hide Strip, Text.Contains;
    NothingOpen(depth, g);
    assert StreamTheorems.Sent(r, g) == g.open;
    assert StreamTheorems.Sent(r, CloseSegment(depth, g)) == "";
  }

  lemma {:induction false} TagChoice(depth: nat, v: View, g: Segments, chunk: Chunk, c: ChunkChoice)
    requires Good(depth, v, g, false) && TagOk(depth, v, g) && IsRaw(c.delta) && Owns(v, c.index)
    ensures TagOk(depth, StepChoice(DEFAULT_CHAIN, depth, v, chunk, c), ExtendSegment(depth, g, Read(c.delta.content), chunk.hasUsage))
  {
    hide FlushChain, ReplayChain, CleanSegments, CloseSegment, Strip, Text.Contains, CutSafe, ApplyChoice, ReleaseDelta,
         ClearChannels, BuildContext, DefaultHold, StepChoice, TagOk, StreamTheorems.Sent;
    DefaultObeys();
    var ctx := BuildContext(OwnContext(v.ctx), chunk, c);
    var r := StepChoice(DEFAULT_CHAIN, depth, v, chunk, c);
    SyncedChoice(DEFAULT_CHAIN, depth, v, chunk, c);
    BuiltHeld(v, chunk, c);
    QuietDelta(v.message, c);
    DefaultCases(depth, v, chunk, c);
    if !HasHeld(ctx) || (!chunk.hasUsage && DefaultHold(depth, ctx)) {
      var longer := g.(open := g.open + Read(c.delta.content));
      SentAndHeld(depth, v, g);
      assert longer.open == StreamTheorems.Sent(v, g) + Read(ctx.heldDisplay.content);
      assert Raw(v) + Read(c.delta.content) == Read(v.message.contextContent) + Read(ctx.heldDisplay.content);
      assert Held(r) == Read(ctx.heldDisplay.content);
      SentStays(v, g, r, longer);
      TagStays(depth, v, g, r, longer);
      if chunk.hasUsage {
        GoodKept(depth, v, g, r, longer, false);
        TagCloses(depth, r, longer);
      }
    } else {
      TagReleased(depth, v, g, chunk, c);
    }
  }

  /** At END the whole is released. */
  lemma {:induction false} TagEnd(depth: nat, v: View, g: Segments, i: int)
    requires Good(depth, v, g, false) && TagOk(depth, v, g)
    ensures var m := StepEnd(DEFAULT_CHAIN, depth, v, i).message;
            HAS_CONTINUE_TAG in m.params <==>
              g.tagged || Tagging(depth, g.open) || Shortened(Read(m.displayReasoning), Read(m.contextReasoning))
  {
    hide FlushChain, ReplayChain, CleanSegments, Strip, Text.Contains, CutSafe, Handle;
    if v.ctx.Some? && HasHeld(v.ctx.value) {
      EndReleases(depth, v, g, i);
    } else {
      assert Held(v) == "" && StreamTheorems.Sent(v, g) == g.open;
    }
  }

  lemma {:induction false} EndReleases(depth: nat, v: View, g: Segments, i: int)
    requires Good(depth, v, g, false) && TagOk(depth, v, g) && v.ctx.Some? && HasHeld(v.ctx.value)
    ensures var m := StepEnd(DEFAULT_CHAIN, depth, v, i).message;
            HAS_CONTINUE_TAG in m.params <==>
              g.tagged || Tagging(depth, g.open) || Shortened(Read(m.displayReasoning), Read(m.contextReasoning))
  {
    hide FlushChain, ReplayChain, CleanSegments, Strip, Text.Contains, CutSafe;
    var ctx := v.ctx.value;
    var m := FlushChain(DEFAULT_CHAIN, 1, depth, ctx, true);
    var applied := Patched(v.message, InProgress, i, Some(m));
    TagRelease(depth, v, g, ctx, applied, true, i);
    ReasoningReleased(depth, ctx, true, true);
    DefaultObeys();
    SyncedEnd(DEFAULT_CHAIN, depth, v, i);
    assert g.open == StreamTheorems.Sent(v, g) + Read(ctx.heldDisplay.content);
  }

  lemma {:induction false} TagRun(depth: nat, s: seq<MessageEvent>, eventId: string, i: int)
    requires FromProvider(s) && Open(s) && Once(s, i) && forall e :: e in s ==> e.eventId == eventId
    ensures TagOk(depth, RunView(DEFAULT_CHAIN, depth, s, eventId, i), SegmentsOf(depth, s, i))
  {
    hide Good, StepView, StepChoice, Own, ProviderEvent, ExtendSegment, TagOk, TextIn;
    if s == [] {
      TagStart(depth);
    } else {
      var front, last := s[..|s| - 1], s[|s| - 1];
      assert last in s && NamedOnce(last, i) && forall e :: e in front ==> e in s;
      TagRun(depth, front, eventId, i);
      GoodRun(depth, front, eventId, i, false);
      var v, g := RunView(DEFAULT_CHAIN, depth, front, eventId, i), SegmentsOf(depth, front, i);
      StepOpen(DEFAULT_CHAIN, depth, v, last, i);
      var own := Own(ChoicesOf(last), i);
      if own != [] {
        assert own[0] in own && ProviderEvent(last);
        RawOwn(last, own[0]);
        TagChoice(depth, v, g, last.chunk.value, own[0]);
      } else {
        NothingAdded(depth, g, last, i);
      }
    }
  }

  lemma {:induction false} NothingAdded(depth: nat, g: Segments, e: MessageEvent, i: int)
    requires Own(ChoicesOf(e), i) == []
    ensures ExtendSegment(depth, g, TextIn(e, i), Forces(e, i)) == g
  {
    assert g.(open := g.open + "") == g;
  }

  lemma {:induction false} TagStart(depth: nat)
    ensures TagOk(depth, View(None, FRESH_MESSAGE), Segments("", "", false))
  {
    NoMarkerInNothing();
  }

  /** For every cut into chunks that name the choice once, reasoning or not: a subagent's
      message has the continue tag exactly if its raw text holds a marker that no chunk with
      usage cuts, or a marker was taken out of its reasoning; and at the root none has. */
  lemma {:induction false} TagIsSet(depths: string -> nat, events: seq<MessageEvent>, eventId: string, i: int)
    requires FromProvider(events) && ValidStream(OfStream(events, eventId)) && Once(OfStream(events, eventId), i)
    ensures var s := OfStream(events, eventId);
            var m := Stored(PublishAll(DEFAULT_CHAIN, depths, events).channel, eventId, i);
            var shown, all := Read(Fallback(m.displayReasoning, m.reasoning)), Read(Fallback(m.contextReasoning, m.reasoning));
            HAS_CONTINUE_TAG in m.params <==>
              IsSubagent(depths(eventId)) && (WholeMarker(RawText(s, i), Boundaries(s, i)) || |shown| < |all|)
  {
    hide PublishAll, RunView, ProviderEvent, Fold, RawText, StepEnd, Good, CleanSegments, SegmentsOf, Tagging, KnownMarks,
         WholeMarker, Text.Contains, Piecewise, EntriesOf, Said;
    var s, depth := OfStream(events, eventId), depths(eventId);
    OfStreamAll(events, eventId);
    ViewsAreIndependent(DEFAULT_CHAIN, depths, events, eventId, i);
    FoldOfStream(PublishAll(DEFAULT_CHAIN, depths, events).channel, eventId, i);
    FoldFilled(PublishAll(DEFAULT_CHAIN, depths, events).channel, eventId, i);
    ReasoningIsKept(depths, events, eventId, i);
    TagLast(depth, s, eventId, i);
    StrippedReasoning(RunView(DEFAULT_CHAIN, depth, s, eventId, i).message);
    if IsSubagent(depth) {
      SegmentsWhole(depth, s, i);
    } else {
      NoTags(depth, s, i);
    }
  }

  lemma {:induction false} NoTags(depth: nat, s: seq<MessageEvent>, i: int)
    requires !IsSubagent(depth)
    ensures !SegmentsOf(depth, s, i).tagged && !Tagging(depth, SegmentsOf(depth, s, i).open)
  {
    if s != [] {
      NoTags(depth, s[..|s| - 1], i);
    }
  }

  lemma {:induction false} TagLast(depth: nat, s: seq<MessageEvent>, eventId: string, i: int)
    requires FromProvider(s) && ValidStream(s) && Once(s, i) && forall e :: e in s ==> e.eventId == eventId
    ensures var m, g := RunView(DEFAULT_CHAIN, depth, s, eventId, i).message, SegmentsOf(depth, s, i);
            HAS_CONTINUE_TAG in m.params <==>
              g.tagged || Tagging(depth, g.open) || Shortened(Read(m.displayReasoning), Read(m.contextReasoning))
  {
    hide StepEnd, Good, ProviderEvent, NamedOnce, StepView, TagOk, RawText, SegmentsOf, Tagging;
    var front := s[..|s| - 1];
    FrontOfValid(depth, s, i);
    EndIsLast(depth, s, eventId, i);
    assert forall e :: e in front ==> e in s;
    GoodRun(depth, front, eventId, i, false);
    TagRun(depth, front, eventId, i);
    TagEnd(depth, RunView(DEFAULT_CHAIN, depth, front, eventId, i), SegmentsOf(depth, front, i), i);
  }

  lemma {:induction false} SentAndHeld(depth: nat, v: View, g: Segments)
    requires Good(depth, v, g, false)
    ensures g.open == StreamTheorems.Sent(v, g) + Held(v)
  {
  }

  lemma {:induction false} SentStays(v: View, g: Segments, r: View, longer: Segments)
    requires g.open == StreamTheorems.Sent(v, g) + Held(v) && longer.open == StreamTheorems.Sent(v, g) + Held(r)
    ensures StreamTheorems.Sent(r, longer) == StreamTheorems.Sent(v, g)
  {
  }
}
