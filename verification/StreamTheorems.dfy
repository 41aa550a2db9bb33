/** What streaming interception promises: the message rebuilt from the published
    events is the whole text rewritten at once, however it was cut into chunks. */
module StreamTheorems {
  import opened Common
  import opened Messages
  import opened Interceptors
  import opened MessageFold
  import opened MessagePublishing
  import opened StreamViews
  import Text

  // ---- streams inside a run ---------------------------------------------------------

  function OfStream(events: seq<MessageEvent>, eventId: string): seq<MessageEvent> {
    if events == [] then []
    else
      var front := OfStream(events[..|events| - 1], eventId);
      var last := events[|events| - 1];
      if last.eventId == eventId then front + [last] else front
  }

  ghost predicate FromProvider(events: seq<MessageEvent>) {
    forall e :: e in events ==> ProviderEvent(e)
  }

  /** The view of every choice is a run of its own stream: other choices, other
      streams and the order in which they interleave do not show. */
  lemma {:induction false} ViewsAreIndependent(chain: seq<Interceptor>, depths: string -> nat, events: seq<MessageEvent>, eventId: string, i: int)
    requires FromProvider(events)
    ensures var bus := PublishAll(chain, depths, events);
            DistinctStore(bus.store) && ViewOf(bus, eventId, i) == RunView(chain, depths(eventId), OfStream(events, eventId), eventId, i)
  {
    hide PublishOne, StepView;
    if events != [] {
      var front, last := events[..|events| - 1], events[|events| - 1];
      ViewsAreIndependent(chain, depths, front, eventId, i);
      var bus := PublishAll(chain, depths, front);
      PublishOneView(chain, depths(last.eventId), bus, last, eventId, i);
      PublishKeepsDistinct(chain, depths(last.eventId), bus, last);
      var s := OfStream(front, eventId);
      assert (s + [last])[..|s|] == s;
    } else {
      assert PublishAll(chain, depths, events) == Bus(map[], []);
    }
  }

  // ---- what the provider sends -------------------------------------------------------

  function TextOf(own: seq<ChunkChoice>): string {
    if own == [] then "" else TextOf(own[..|own| - 1]) + Read(own[|own| - 1].delta.content)
  }

  function ReasoningOf(own: seq<ChunkChoice>): string {
    if own == [] then "" else ReasoningOf(own[..|own| - 1]) + Read(own[|own| - 1].delta.reasoning)
  }

  /** The content the provider sends for choice `i` in one event. */
  function TextIn(e: MessageEvent, i: int): string {
    TextOf(Own(ChoicesOf(e), i))
  }

  function ReasoningIn(e: MessageEvent, i: int): string {
    ReasoningOf(Own(ChoicesOf(e), i))
  }

  lemma {:induction false} OneText(c: ChunkChoice)
    ensures TextOf([c]) == Read(c.delta.content) && ReasoningOf([c]) == Read(c.delta.reasoning)
  {
    assert [c][..0] == [];
  }

  /** A chunk that carries both choice `i` and usage: it forces the release. */
  predicate Forces(e: MessageEvent, i: int) {
    e.chunk.Some? && e.chunk.value.hasUsage && Own(ChoicesOf(e), i) != []
  }

  // ---- published snapshots match the fold --------------------------------------------

  function ReceivedDisplay(v: View): MessageContent {
    if v.ctx.Some? then v.ctx.value.receivedDisplay else EMPTY_CONTENT
  }

  function ReceivedContext(v: View): MessageContent {
    if v.ctx.Some? then v.ctx.value.receivedContext else EMPTY_CONTENT
  }

  function FoldedDisplay(m: Message): MessageContent {
    MessageContent(m.displayReasoning, m.displayContent)
  }

  function FoldedContext(m: Message): MessageContent {
    MessageContent(m.contextReasoning, m.contextContent)
  }

  /** The snapshots the publisher keeps are what a reader of the events has rebuilt. */
  ghost predicate Synced(v: View) {
    SameText(ReceivedDisplay(v), FoldedDisplay(v.message)) && SameText(ReceivedContext(v), FoldedContext(v.message))
  }

  lemma {:induction false} AppendReads(a: Option<string>, b: Option<string>)
    ensures Read(AppendText(a, b)) == Read(a) + Read(b) && Read(MergeText(a, b)) == Read(a) + Read(b)
  {
  }

  /** A released delta carries exactly the released text in both derived channels. */
  lemma {:induction false} ReleasedReads(d: Delta, display: MessageContent, context: MessageContent, params: Params)
    requires IsRaw(d) && Keeps(ContentOf(d), display) && Keeps(ContentOf(d), context)
    ensures var r := ReleaseDelta(d, display, context, params);
            && r.content == d.content && r.reasoning == d.reasoning && r.params == params
            && Fallback(r.displayContent, r.content) == display.content
            && Fallback(r.displayReasoning, r.reasoning) == display.reasoning
            && Fallback(r.contextContent, r.content) == context.content
            && Fallback(r.contextReasoning, r.reasoning) == context.reasoning
  {
  }

  lemma {:induction false} ReplaySynced(m: Message, i: int, replay: MessageModified, display: MessageContent, context: MessageContent)
    requires replay.display.Some? && replay.context.Some?
    requires SameText(display, FoldedDisplay(m)) && SameText(context, FoldedContext(m))
    requires Keeps(display, replay.display.value) && Keeps(context, replay.context.value)
    ensures var m' := Patched(m, InProgressPartial, i, Some(replay));
            && SameText(replay.display.value, FoldedDisplay(m')) && SameText(replay.context.value, FoldedContext(m'))
            && m'.content == m.content && m'.reasoning == m.reasoning && m'.params == m.params + replay.params
  {
  }

  /** The snapshot state reached when context `ctx` is released, before any replay. */
  function Released(ctx: InterceptionContext, m: MessageModified): InterceptionContext
    requires m.display.Some? && m.context.Some?
  {
    ctx.(heldDisplay := EMPTY_CONTENT, heldContext := EMPTY_CONTENT,
         receivedDisplay := MergeContent(ctx.receivedDisplay, m.display.value),
         receivedContext := MergeContent(ctx.receivedContext, m.context.value))
  }

  lemma {:induction false} ReplayedSynced(chain: seq<Interceptor>, depth: nat, released: InterceptionContext, m: Message, i: int, e: bool)
    requires ChainObeys(chain)
    requires SameText(released.receivedDisplay, FoldedDisplay(m)) && SameText(released.receivedContext, FoldedContext(m))
    ensures var replay := ReplayChain(chain, |chain|, depth, released.receivedDisplay, released.receivedContext, e);
            var saved := if replay.None? then released
                         else released.(receivedDisplay := replay.value.display.value,
                                        receivedContext := replay.value.context.value);
            var m' := Patched(m, InProgressPartial, i, replay);
            Synced(View(Some(saved), m')) && m'.content == m.content && m'.reasoning == m.reasoning
  {
    hide ReplayChain;
    ReplayChainKeeps(chain, |chain|, depth, released.receivedDisplay, released.receivedContext, e);
    var replay := ReplayChain(chain, |chain|, depth, released.receivedDisplay, released.receivedContext, e);
    if replay.Some? {
      ReplaySynced(m, i, replay.value, released.receivedDisplay, released.receivedContext);
    }
  }

  /** The context of `v` is the context of choice `i`. */
  predicate Owns(v: View, i: int) {
    v.ctx.Some? ==> v.ctx.value.choiceIndex == i
  }

  /** A new delta joins the held text; what has been received does not change. */
  lemma {:induction false} BuiltContext(v: View, chunk: Chunk, c: ChunkChoice)
    requires Owns(v, c.index)
    ensures var ctx := BuildContext(OwnContext(v.ctx), chunk, c);
            && ctx.choiceIndex == c.index
            && Keeps(ContentOf(c.delta), ctx.heldDisplay) && Keeps(ContentOf(c.delta), ctx.heldContext)
            && ctx.receivedDisplay == ReceivedDisplay(v) && ctx.receivedContext == ReceivedContext(v)
  {
    assert v.ctx.Some? ==> OwnContext(v.ctx)[0] == v.ctx.value;
  }

  /** A delta without text, or with its derived channels cleared, changes no rebuilt text. */
  lemma {:induction false} QuietDelta(m: Message, c: ChunkChoice)
    requires IsRaw(c.delta)
    ensures var m' := ApplyChoice(m, InProgress, c.(delta := ClearChannels(c.delta)));
            && SameText(FoldedDisplay(m'), FoldedDisplay(m)) && SameText(FoldedContext(m'), FoldedContext(m))
            && m'.params == m.params && Read(m'.content) == Read(m.content) + Read(c.delta.content)
            && Read(m'.reasoning) == Read(m.reasoning) + Read(c.delta.reasoning)
    ensures !HasContent(ContentOf(c.delta)) ==> ClearChannels(c.delta) == c.delta
  {
  }

  /** A released delta appends the released text to the derived channels, and the
      raw delta to the raw ones. */
  lemma {:induction false} ReleasedDelta(m: Message, c: ChunkChoice, display: MessageContent, context: MessageContent, params: Params)
    requires IsRaw(c.delta) && Keeps(ContentOf(c.delta), display) && Keeps(ContentOf(c.delta), context)
    ensures var m' := ApplyChoice(m, InProgress, c.(delta := ReleaseDelta(c.delta, display, context, params)));
            && SameText(FoldedDisplay(m'), MergeContent(FoldedDisplay(m), display))
            && SameText(FoldedContext(m'), MergeContent(FoldedContext(m), context))
            && m'.params == m.params + params && Read(m'.content) == Read(m.content) + Read(c.delta.content)
            && Read(m'.reasoning) == Read(m.reasoning) + Read(c.delta.reasoning)
  {
    ReleasedReads(c.delta, display, context, params);
  }

  lemma {:induction false} MergeSame(a: MessageContent, b: MessageContent, c: MessageContent)
    requires SameText(a, b)
    ensures SameText(MergeContent(a, c), MergeContent(b, c))
  {
    AppendReads(a.content, c.content);
    AppendReads(a.reasoning, c.reasoning);
  }

  /** Every provider chunk keeps the snapshots equal to the rebuilt texts, for
      every chain of interceptors that obeys the contract. */
  lemma {:induction false} SyncedChoice(chain: seq<Interceptor>, depth: nat, v: View, chunk: Chunk, c: ChunkChoice)
    requires ChainObeys(chain) && IsRaw(c.delta) && Synced(v) && Owns(v, c.index)
    ensures Synced(StepChoice(chain, depth, v, chunk, c)) && Owns(StepChoice(chain, depth, v, chunk, c), c.index)
  {
    hide FlushChain, ReplayChain, HoldChain, ApplyChoice, ReleaseDelta, ClearChannels, BuildContext;
    var ctx := BuildContext(OwnContext(v.ctx), chunk, c);
    BuiltContext(v, chunk, c);
    QuietDelta(v.message, c);
    if HasHeld(ctx) && (chunk.hasUsage || !HoldChain(chain, depth, ctx)) {
      var m := FlushChain(chain, |chain|, depth, ctx, chunk.hasUsage);
      FlushChainKeeps(chain, |chain|, depth, ctx, chunk.hasUsage);
      ReleasedDelta(v.message, c, m.display.value, m.context.value, m.params);
      MergeSame(ReceivedDisplay(v), FoldedDisplay(v.message), m.display.value);
      MergeSame(ReceivedContext(v), FoldedContext(v.message), m.context.value);
      var applied := ApplyChoice(v.message, InProgress, c.(delta := ReleaseDelta(c.delta, m.display.value, m.context.value, m.params)));
      assert c.delta.params + m.params == m.params;
      ReplayedSynced(chain, depth, Released(ctx, m), applied, c.index, chunk.hasUsage);
    }
  }

  /** At END the held text is flushed, and the snapshots the publisher is about to
      drop are again what the events rebuild. */
  lemma {:induction false} SyncedEnd(chain: seq<Interceptor>, depth: nat, v: View, i: int)
    requires ChainObeys(chain) && Synced(v) && v.ctx.Some? && HasHeld(v.ctx.value)
    ensures var saved := Handle(chain, depth, v.ctx.value, EMPTY_DELTA, true, true).saved;
            Synced(View(Some(saved), StepEnd(chain, depth, v, i).message))
  {
    hide FlushChain, ReplayChain, HoldChain;
    var ctx := v.ctx.value;
    var m := FlushChain(chain, |chain|, depth, ctx, true);
    MergeSame(ReceivedDisplay(v), FoldedDisplay(v.message), m.display.value);
    MergeSame(ReceivedContext(v), FoldedContext(v.message), m.context.value);
    ReplayedSynced(chain, depth, Released(ctx, m), Patched(v.message, InProgress, i, Some(m)), i, true);
  }

  /** No chunk of the stream names the choice twice. */
  predicate Once(s: seq<MessageEvent>, i: int) {
    forall k | 0 <= k < |s| :: NamedOnce(s[k], i)
  }

  /** No event of the stream has ended it. */
  predicate Open(events: seq<MessageEvent>) {
    forall k | 0 <= k < |events| :: !events[k].phase.End?
  }

  lemma {:induction false} SyncedRun(chain: seq<Interceptor>, depth: nat, s: seq<MessageEvent>, eventId: string, i: int)
    requires ChainObeys(chain) && FromProvider(s) && Open(s) && Once(s, i)
    ensures var v := RunView(chain, depth, s, eventId, i); Synced(v) && Owns(v, i)
  {
    hide StepView, Own;
    if s != [] {
      var front, last := s[..|s| - 1], s[|s| - 1];
      SyncedRun(chain, depth, front, eventId, i);
      var before := RunView(chain, depth, front, eventId, i);
      if last.eventId == eventId {
        assert last in s && NamedOnce(last, i);
        StepOpen(chain, depth, before, last, i);
        var own := Own(ChoicesOf(last), i);
        if own != [] {
          SyncedChoice(chain, depth, before, last.chunk.value, own[0]);
        }
      }
    }
  }

  /** A chunk that names the choice at most once moves its view by one entry or not at all. */
  lemma {:induction false} StepOpen(chain: seq<Interceptor>, depth: nat, v: View, e: MessageEvent, i: int)
    requires ProviderEvent(e) && !e.phase.End? && NamedOnce(e, i) && Owns(v, i)
    ensures var own := Own(ChoicesOf(e), i);
            && StepView(chain, depth, v, e, i) == (if own == [] then v else StepChoice(chain, depth, v, e.chunk.value, own[0]))
            && TextIn(e, i) == (if own == [] then "" else Read(own[0].delta.content))
            && ReasoningIn(e, i) == (if own == [] then "" else Read(own[0].delta.reasoning))
  {
    hide StepEntries, StepChoice;
    var own := Own(ChoicesOf(e), i);
    if own != [] {
      assert own == [own[0]];
      OneEntry(chain, depth, v, e.chunk.value, own[0]);
      OneText(own[0]);
    }
  }

  // ---- the default interceptor: markers ---------------------------------------------

  const DEFAULT_CHAIN := [DEFAULT_INTERCEPTOR]

  function Strip(depth: nat, s: string): string {
    if IsSubagent(depth) then Text.Replace(s, CONTINUE_MARKER, "") else s
  }

  /** No end of `s` is the beginning of a marker that more text could complete. */
  ghost predicate CutSafe(s: string) {
    forall k :: 0 <= k < |s| ==> !(s[k..] < CONTINUE_MARKER)
  }

  lemma {:induction false} MarkerHead()
    ensures |CONTINUE_MARKER| == 12 && CONTINUE_MARKER[0] == '<'
    ensures forall k :: 0 < k < 12 ==> CONTINUE_MARKER[k] != '<'
  {
  }

  /** The hold rule lets go only of text that cannot be the start of a marker:
      `<` stands only at the head of the marker, so a dangling start begins at the
      last `<`. */
  lemma {:induction false} ReleasedIsCutSafe(depth: nat, ctx: InterceptionContext)
    requires IsSubagent(depth)
    ensures CutSafe(Read(ctx.heldDisplay.content)) || DefaultHold(depth, ctx)
  {
    var s := Read(ctx.heldDisplay.content);
    MarkerHead();
    if !CutSafe(s) {
      var k :| 0 <= k < |s| && s[k..] < CONTINUE_MARKER;
      Text.DanglingStart(s, k, CONTINUE_MARKER, '<');
    }
  }

  lemma {:induction false} CutSafeConcat(a: string, b: string)
    requires CutSafe(a) && CutSafe(b)
    ensures CutSafe(a + b)
  {
    forall k | 0 <= k < |a + b| ensures !((a + b)[k..] < CONTINUE_MARKER) {
      if k < |a| {
        assert (a + b)[k..] == a[k..] + b;
        assert !(a[k..] < CONTINUE_MARKER);
      } else {
        assert (a + b)[k..] == b[k - |a|..];
      }
    }
  }

  lemma {:induction false} CutSafeNoStraddle(a: string, b: string)
    ensures CutSafe(a) ==> Text.NoStraddle(a, b, CONTINUE_MARKER)
  {
    if !Text.NoStraddle(a, b, CONTINUE_MARKER) {
      var i :| 0 <= i < |a| < i + |CONTINUE_MARKER| && Text.OccursAt(CONTINUE_MARKER, a + b, i);
      assert (a + b)[i..i + |CONTINUE_MARKER|] == a[i..] + b[..i + |CONTINUE_MARKER| - |a|];
      assert a[i..] < CONTINUE_MARKER;
    }
  }

  /** Releasing a block behind text that is safe to cut, and then replaying, is
      rewriting the longer text at once. `done` is what earlier forced releases sent. */
  lemma {:induction false} CleanIncremental(depth: nat, done: string, a: string, b: string)
    requires IsSubagent(depth) ==> CutSafe(a)
    ensures Text.Replace(Text.Replace(done + Strip(depth, a), [NIN], NING) + Strip(depth, b), [NIN], NING)
         == Text.Replace(done + Strip(depth, a + b), [NIN], NING)
    ensures IsSubagent(depth) ==>
              (Text.Contains(a + b, CONTINUE_MARKER) <==> Text.Contains(a, CONTINUE_MARKER) || Text.Contains(b, CONTINUE_MARKER))
  {
    if IsSubagent(depth) {
      CutSafeNoStraddle(a, b);
      Text.ReplaceConcat(a, b, CONTINUE_MARKER, "");
      Text.ContainsConcat(a, b, CONTINUE_MARKER);
    }
    assert done + Strip(depth, a + b) == (done + Strip(depth, a)) + Strip(depth, b);
    Text.ReplaceCharIncremental(done + Strip(depth, a), Strip(depth, b), NIN, NING);
  }

  // ---- the default interceptor: one step ----------------------------------------------

  function Held(v: View): string {
    if v.ctx.Some? then Read(v.ctx.value.heldDisplay.content) else ""
  }

  function Raw(v: View): string {
    Read(v.message.content)
  }

  predicate Tagged(v: View) {
    HAS_CONTINUE_TAG in v.message.params
  }

  /** Both held channels carry the same text. */
  predicate HeldAlike(v: View) {
    v.ctx.Some? ==> v.ctx.value.heldDisplay == v.ctx.value.heldContext
  }

  predicate MarkerIn(c: MessageContent) {
    Text.Contains(Read(c.reasoning), CONTINUE_MARKER) || Text.Contains(Read(c.content), CONTINUE_MARKER)
  }

  lemma {:induction false} DefaultHolds(depth: nat, ctx: InterceptionContext)
    ensures HoldChain(DEFAULT_CHAIN, depth, ctx) <==> DefaultHold(depth, ctx)
  {
    assert DEFAULT_CHAIN[0].hold(depth, ctx) == DefaultHold(depth, ctx);
  }

  lemma {:induction false} DefaultFlushed(depth: nat, ctx: InterceptionContext, e: bool)
    ensures var m := FlushChain(DEFAULT_CHAIN, 1, depth, ctx, e);
            && Read(m.display.value.content) == Strip(depth, Read(ctx.heldDisplay.content))
            && m.context.value == ctx.heldContext
            && (HAS_CONTINUE_TAG in m.params <==> IsSubagent(depth) && MarkerIn(ctx.heldDisplay))
  {
    assert FlushChain(DEFAULT_CHAIN, 0, depth, ctx, e) == MessageModified(Some(ctx.heldDisplay), Some(ctx.heldContext), map[]);
    assert ctx.(heldDisplay := ctx.heldDisplay, heldContext := ctx.heldContext) == ctx;
    var m := DefaultFlush(depth, ctx, e);
    assert FlushChain(DEFAULT_CHAIN, 1, depth, ctx, e)
        == MessageModified(Some(OrElse(m.display, ctx.heldDisplay)), Some(ctx.heldContext), m.params);
    if IsSubagent(depth) && m.display.None? {
      Text.ReplaceAbsent(Read(ctx.heldDisplay.content), CONTINUE_MARKER, "");
    }
  }

  lemma {:induction false} DefaultReplayed(depth: nat, display: MessageContent, context: MessageContent, e: bool)
    ensures var r := ReplayChain(DEFAULT_CHAIN, 1, depth, display, context, e);
            && (if r.None? then Text.Replace(Read(display.content), [NIN], NING) == Read(display.content)
                else Read(r.value.display.value.content) == Text.Replace(Read(display.content), [NIN], NING)
                     && r.value.context.value == context && HAS_CONTINUE_TAG !in r.value.params)
  {
    assert ReplayChain(DEFAULT_CHAIN, 0, depth, display, context, e) == None;
    if !Text.Contains(Read(display.content), [NIN]) {
      Text.ReplaceAbsent(Read(display.content), [NIN], NING);
    }
    assert [NIN] != HAS_CONTINUE_TAG;
  }

  // ---- the default interceptor: invariant of a run --------------------------------------

  /** Raw text of a stream, cut where a chunk with usage forced a release: `closed`
      holds the earlier segments already stripped, `open` the last one as it came. */
  datatype Segments = Segments(closed: string, open: string, tagged: bool)

  function Tagging(depth: nat, s: string): bool {
    IsSubagent(depth) && Text.Contains(s, CONTINUE_MARKER)
  }

  function CloseSegment(depth: nat, g: Segments): Segments {
    Segments(g.closed + Strip(depth, g.open), "", g.tagged || Tagging(depth, g.open))
  }

  function ExtendSegment(depth: nat, g: Segments, text: string, usage: bool): Segments {
    var longer := g.(open := g.open + text);
    if usage then CloseSegment(depth, longer) else longer
  }

  /** The display rewrite, segment by segment. */
  function CleanSegments(depth: nat, g: Segments): string {
    Text.Replace(g.closed + Strip(depth, g.open), [NIN], NING)
  }

  /** The part of the open segment already released. */
  function Sent(v: View, g: Segments): string {
    if |Held(v)| <= |g.open| then g.open[..|g.open| - |Held(v)|] else ""
  }

  /** `quiet`: no reasoning text comes. */
  ghost predicate Good(depth: nat, v: View, g: Segments, quiet: bool) {
    && Synced(v) && HeldAlike(v)
    && g.open == Sent(v, g) + Held(v)
    && Read(v.message.displayContent) == CleanSegments(depth, g.(open := Sent(v, g)))
    && Read(v.message.contextContent) + Held(v) == Raw(v)
    && (IsSubagent(depth) ==> CutSafe(Sent(v, g)))
    && (quiet ==> (v.ctx.Some? ==> Read(v.ctx.value.heldDisplay.reasoning) == "")
                  && (Tagged(v) <==> g.tagged || Tagging(depth, Sent(v, g))))
  }

  /** The default chain's release of a context: what it leaves to the reader. */
  lemma {:induction false} DefaultRelease(depth: nat, before: View, g: Segments, ctx: InterceptionContext, applied: Message, e: bool, i: int, quiet: bool)
    requires Good(depth, before, g, quiet)
    requires ctx.receivedDisplay == ReceivedDisplay(before) && ctx.receivedContext == ReceivedContext(before)
    requires ctx.heldDisplay == ctx.heldContext
    requires var m := FlushChain(DEFAULT_CHAIN, 1, depth, ctx, e);
             && SameText(FoldedDisplay(applied), MergeContent(FoldedDisplay(before.message), m.display.value))
             && SameText(FoldedContext(applied), MergeContent(FoldedContext(before.message), m.context.value))
             && applied.params == before.message.params + m.params
    requires quiet ==> Read(ctx.heldDisplay.reasoning) == ""
    ensures var m := FlushChain(DEFAULT_CHAIN, 1, depth, ctx, e);
            var released := Released(ctx, m);
            var replay := ReplayChain(DEFAULT_CHAIN, 1, depth, released.receivedDisplay, released.receivedContext, e);
            var m' := Patched(applied, InProgressPartial, i, replay);
            var block := Read(ctx.heldDisplay.content);
            && m'.content == applied.content
            && Read(m'.displayContent) == CleanSegments(depth, g.(open := Sent(before, g) + block))
            && Read(m'.contextContent) == Read(before.message.contextContent) + block
            && (quiet ==> (HAS_CONTINUE_TAG in m'.params <==> g.tagged || Tagging(depth, Sent(before, g) + block)))
  {
    hide FlushChain, ReplayChain, Strip, Text.Contains, CutSafe, Sent, Held;
    var m := FlushChain(DEFAULT_CHAIN, 1, depth, ctx, e);
    var block := Read(ctx.heldDisplay.content);
    DefaultFlushed(depth, ctx, e);
    var released := Released(ctx, m);
    AppendReads(ReceivedDisplay(before).content, m.display.value.content);
    AppendReads(before.message.displayContent, m.display.value.content);
    AppendReads(before.message.contextContent, m.context.value.content);
    DefaultReplayed(depth, released.receivedDisplay, released.receivedContext, e);
    CleanIncremental(depth, g.closed, Sent(before, g), block);
    if quiet {
      NoMarkerInNothing();
    }
  }

  lemma {:induction false} NoMarkerInNothing()
    ensures !Text.Contains("", CONTINUE_MARKER)
  {
  }

  /** Text that is kept back, or no text at all, leaves what was sent as it is. */
  lemma {:induction false} GoodKept(depth: nat, v: View, g: Segments, r: View, g': Segments, quiet: bool)
    requires Good(depth, v, g, quiet) && Synced(r) && HeldAlike(r)
    requires g' == g.(open := Sent(v, g) + Held(r))
    requires Raw(r) == Read(v.message.contextContent) + Held(r)
    requires SameText(FoldedDisplay(r.message), FoldedDisplay(v.message)) && SameText(FoldedContext(r.message), FoldedContext(v.message))
    requires r.message.params == v.message.params
    requires quiet && r.ctx.Some? ==> Read(r.ctx.value.heldDisplay.reasoning) == ""
    ensures Good(depth, r, g', quiet)
  {
    hide CleanSegments, CutSafe, Text.Contains;
    assert Sent(r, g') == Sent(v, g);
  }

  /** Text that is released joins what was sent, rewritten. */
  lemma {:induction false} GoodReleased(depth: nat, v: View, g: Segments, ctx: InterceptionContext, applied: Message, r: View, e: bool, i: int, quiet: bool)
    requires Good(depth, v, g, quiet) && Synced(r)
    requires ctx.receivedDisplay == ReceivedDisplay(v) && ctx.receivedContext == ReceivedContext(v)
    requires ctx.heldDisplay == ctx.heldContext
    requires var m := FlushChain(DEFAULT_CHAIN, 1, depth, ctx, e);
             && SameText(FoldedDisplay(applied), MergeContent(FoldedDisplay(v.message), m.display.value))
             && SameText(FoldedContext(applied), MergeContent(FoldedContext(v.message), m.context.value))
             && applied.params == v.message.params + m.params
             && Read(applied.content) == Read(v.message.contextContent) + Read(ctx.heldDisplay.content)
             && var released := Released(ctx, m);
                r.message == Patched(applied, InProgressPartial, i,
                  ReplayChain(DEFAULT_CHAIN, 1, depth, released.receivedDisplay, released.receivedContext, e))
    requires r.ctx.Some? && r.ctx.value.heldDisplay == EMPTY_CONTENT && r.ctx.value.heldContext == EMPTY_CONTENT
    requires quiet ==> Read(ctx.heldDisplay.reasoning) == ""
    requires e || !DefaultHold(depth, ctx)
    ensures var longer := g.(open := Sent(v, g) + Read(ctx.heldDisplay.content));
            && Good(depth, r, if e then CloseSegment(depth, longer) else longer, quiet)
            && Raw(r) == Read(v.message.contextContent) + Read(ctx.heldDisplay.content)
  {
    hide FlushChain, ReplayChain, Strip, Text.Contains, CutSafe, DefaultHold;
    DefaultRelease(depth, v, g, ctx, applied, e, i, quiet);
    var longer := g.(open := Sent(v, g) + Read(ctx.heldDisplay.content));
    assert Held(r) == "";
    if e {
      NothingOpen(depth, longer);
      assert Sent(r, CloseSegment(depth, longer)) == "";
    } else {
      assert Sent(r, longer) == longer.open;
      if IsSubagent(depth) {
        ReleasedIsCutSafe(depth, ctx);
        CutSafeConcat(Sent(v, g), Read(ctx.heldDisplay.content));
      }
    }
  }

  /** Closing a segment changes no rewrite. */
  lemma {:induction false} NothingOpen(depth: nat, g: Segments)
    ensures var c := CloseSegment(depth, g);
            CleanSegments(depth, c) == CleanSegments(depth, g) && !Tagging(depth, "") && CutSafe("") && Strip(depth, "") == ""
  {
    assert CloseSegment(depth, g).closed + Strip(depth, "") == g.closed + Strip(depth, g.open);
  }

  /** The three ways of a delta: no text, held, released. */
  lemma {:induction false} DefaultCases(depth: nat, v: View, chunk: Chunk, c: ChunkChoice)
    ensures var ctx := BuildContext(OwnContext(v.ctx), chunk, c);
            var m := FlushChain(DEFAULT_CHAIN, 1, depth, ctx, chunk.hasUsage);
            var released := Released(ctx, m);
            var applied := ApplyChoice(v.message, InProgress, c.(delta := ReleaseDelta(c.delta, m.display.value, m.context.value, m.params)));
            var r := StepChoice(DEFAULT_CHAIN, depth, v, chunk, c);
            if !HasHeld(ctx) then r == View(v.ctx, ApplyChoice(v.message, InProgress, c))
            else if !chunk.hasUsage && DefaultHold(depth, ctx)
            then r == View(Some(ctx), ApplyChoice(v.message, InProgress, c.(delta := ClearChannels(c.delta))))
            else
              && r.ctx.Some? && r.ctx.value.heldDisplay == EMPTY_CONTENT && r.ctx.value.heldContext == EMPTY_CONTENT
              && r.message == Patched(applied, InProgressPartial, c.index,
                   ReplayChain(DEFAULT_CHAIN, 1, depth, released.receivedDisplay, released.receivedContext, chunk.hasUsage))
  {
    hide FlushChain, ReplayChain, HoldChain, ApplyChoice, ReleaseDelta, ClearChannels, BuildContext, DefaultHold;
    DefaultHolds(depth, BuildContext(OwnContext(v.ctx), chunk, c));
  }

  /** A provider delta for choice `i` keeps the invariant; a chunk with usage closes
      the segment. */
  lemma {:induction false} GoodChoice(depth: nat, v: View, g: Segments, chunk: Chunk, c: ChunkChoice, quiet: bool)
    requires Good(depth, v, g, quiet) && IsRaw(c.delta) && Owns(v, c.index)
    requires quiet ==> Read(c.delta.reasoning) == ""
    ensures var r := StepChoice(DEFAULT_CHAIN, depth, v, chunk, c);
            && Raw(r) == Raw(v) + Read(c.delta.content)
            && Good(depth, r, ExtendSegment(depth, g, Read(c.delta.content), chunk.hasUsage), quiet)
  {
    hide FlushChain, ReplayChain, CleanSegments, CloseSegment, Strip, Text.Contains, CutSafe, ApplyChoice, ReleaseDelta, ClearChannels, BuildContext, DefaultHold, StepChoice;
    DefaultObeys();
    var ctx := BuildContext(OwnContext(v.ctx), chunk, c);
    var r := StepChoice(DEFAULT_CHAIN, depth, v, chunk, c);
    SyncedChoice(DEFAULT_CHAIN, depth, v, chunk, c);
    BuiltHeld(v, chunk, c);
    QuietDelta(v.message, c);
    DefaultCases(depth, v, chunk, c);
    var longer := g.(open := g.open + Read(c.delta.content));
    assert longer.open == Sent(v, g) + Read(ctx.heldDisplay.content);
    assert Raw(v) + Read(c.delta.content) == Read(v.message.contextContent) + Read(ctx.heldDisplay.content);
    if !HasHeld(ctx) || (!chunk.hasUsage && DefaultHold(depth, ctx)) {
      assert Held(r) == Read(ctx.heldDisplay.content);
      GoodKept(depth, v, g, r, longer, quiet);
      if chunk.hasUsage {
        GoodClosed(depth, r, longer, quiet);
      }
    } else {
      var m := FlushChain(DEFAULT_CHAIN, 1, depth, ctx, chunk.hasUsage);
      FlushChainKeeps(DEFAULT_CHAIN, 1, depth, ctx, chunk.hasUsage);
      ReleasedDelta(v.message, c, m.display.value, m.context.value, m.params);
      var applied := ApplyChoice(v.message, InProgress, c.(delta := ReleaseDelta(c.delta, m.display.value, m.context.value, m.params)));
      GoodReleased(depth, v, g, ctx, applied, r, chunk.hasUsage, c.index, quiet);
    }
  }

  /** With nothing held a segment can be closed at any point. */
  lemma {:induction false} GoodClosed(depth: nat, v: View, g: Segments, quiet: bool)
    requires Good(depth, v, g, quiet) && Held(v) == ""
    ensures Good(depth, v, CloseSegment(depth, g), quiet)
  {
    hide Strip, Text.Contains, CutSafe;
    NothingOpen(depth, g);
    assert Sent(v, g) == g.open;
    assert Sent(v, CloseSegment(depth, g)) == "";
  }

  lemma {:induction false} BuiltHeld(v: View, chunk: Chunk, c: ChunkChoice)
    requires Owns(v, c.index) && HeldAlike(v)
    ensures var ctx := BuildContext(OwnContext(v.ctx), chunk, c);
            && ctx.choiceIndex == c.index && ctx.heldDisplay == ctx.heldContext
            && Keeps(ContentOf(c.delta), ctx.heldDisplay) && Keeps(ContentOf(c.delta), ctx.heldContext)
            && ctx.receivedDisplay == ReceivedDisplay(v) && ctx.receivedContext == ReceivedContext(v)
            && Read(ctx.heldDisplay.content) == Held(v) + Read(c.delta.content)
            && Read(ctx.heldDisplay.reasoning)
               == (if v.ctx.Some? then Read(v.ctx.value.heldDisplay.reasoning) else "") + Read(c.delta.reasoning)
  {
    BuiltContext(v, chunk, c);
    assert v.ctx.Some? ==> OwnContext(v.ctx)[0] == v.ctx.value;
    var held := if v.ctx.Some? then v.ctx.value.heldDisplay else EMPTY_CONTENT;
    AppendReads(held.content, c.delta.content);
    AppendReads(held.reasoning, c.delta.reasoning);
  }

  /** At END everything held is released: nothing of the raw text is lost, and the
      display text is the rewrite of the whole. */
  lemma {:induction false} GoodEnd(depth: nat, v: View, g: Segments, i: int, quiet: bool)
    requires Good(depth, v, g, quiet)
    ensures var m := StepEnd(DEFAULT_CHAIN, depth, v, i).message;
            && Read(m.content) == Raw(v)
            && Read(m.displayContent) == CleanSegments(depth, g)
            && Read(m.contextContent) == Raw(v)
            && (quiet ==> (HAS_CONTINUE_TAG in m.params <==> g.tagged || Tagging(depth, g.open)))
  {
    hide FlushChain, ReplayChain, CleanSegments, Strip, Text.Contains, CutSafe;
    if v.ctx.Some? && HasHeld(v.ctx.value) {
      var ctx := v.ctx.value;
      var m := FlushChain(DEFAULT_CHAIN, 1, depth, ctx, true);
      var applied := Patched(v.message, InProgress, i, Some(m));
      AppendReads(v.message.displayContent, m.display.value.content);
      AppendReads(v.message.displayReasoning, m.display.value.reasoning);
      AppendReads(v.message.contextContent, m.context.value.content);
      AppendReads(v.message.contextReasoning, m.context.value.reasoning);
      DefaultRelease(depth, v, g, ctx, applied, true, i, quiet);
      assert g.(open := Sent(v, g) + Held(v)) == g;
    } else {
      assert Held(v) == "" && Sent(v, g) == g.open;
      assert g.(open := Sent(v, g)) == g;
    }
  }

  // ---- the default interceptor: whole streams --------------------------------------------

  function RawText(s: seq<MessageEvent>, i: int): string {
    if s == [] then "" else RawText(s[..|s| - 1], i) + TextIn(s[|s| - 1], i)
  }

  function SegmentsOf(depth: nat, s: seq<MessageEvent>, i: int): Segments {
    if s == [] then Segments("", "", false)
    else ExtendSegment(depth, SegmentsOf(depth, s[..|s| - 1], i), TextIn(s[|s| - 1], i), Forces(s[|s| - 1], i))
  }

  predicate NoReasoning(s: seq<MessageEvent>, i: int) {
    forall k | 0 <= k < |s| :: ReasoningIn(s[k], i) == ""
  }

  /** One event of an open stream. */
  lemma {:induction false} GoodStep(depth: nat, v: View, g: Segments, e: MessageEvent, i: int, quiet: bool)
    requires Good(depth, v, g, quiet) && Owns(v, i) && ProviderEvent(e) && !e.phase.End? && NamedOnce(e, i)
    requires quiet ==> ReasoningIn(e, i) == ""
    ensures var r := StepView(DEFAULT_CHAIN, depth, v, e, i);
            && Good(depth, r, ExtendSegment(depth, g, TextIn(e, i), Forces(e, i)), quiet) && Owns(r, i)
            && Raw(r) == Raw(v) + TextIn(e, i)
  {
    hide Good, StepChoice, StepView, Raw, TextIn, ReasoningIn, Own;
    StepOpen(DEFAULT_CHAIN, depth, v, e, i);
    var own := Own(ChoicesOf(e), i);
    if own != [] {
      GoodIsSynced(depth, v, g, quiet);
      DefaultObeys();
      SyncedChoice(DEFAULT_CHAIN, depth, v, e.chunk.value, own[0]);
      GoodChoice(depth, v, g, e.chunk.value, own[0], quiet);
    } else {
      assert g.(open := g.open + "") == g;
    }
  }

  lemma {:induction false} GoodIsSynced(depth: nat, v: View, g: Segments, quiet: bool)
    requires Good(depth, v, g, quiet)
    ensures Synced(v)
  {
  }

  lemma {:induction false} GoodRun(depth: nat, s: seq<MessageEvent>, eventId: string, i: int, quiet: bool)
    requires FromProvider(s) && Open(s) && Once(s, i) && (quiet ==> NoReasoning(s, i))
    requires forall e :: e in s ==> e.eventId == eventId
    ensures var v := RunView(DEFAULT_CHAIN, depth, s, eventId, i);
            Good(depth, v, SegmentsOf(depth, s, i), quiet) && Owns(v, i) && Raw(v) == RawText(s, i)
  {
    hide Good, StepView, Raw, ProviderEvent, TextIn, Forces, ReasoningIn, ExtendSegment, NamedOnce;
    if s == [] {
      GoodStart(depth, quiet, i);
    } else {
      var front, last := s[..|s| - 1], s[|s| - 1];
      assert last in s && forall e :: e in front ==> e in s;
      GoodRun(depth, front, eventId, i, quiet);
      GoodStep(depth, RunView(DEFAULT_CHAIN, depth, front, eventId, i), SegmentsOf(depth, front, i), last, i, quiet);
    }
  }

  lemma {:induction false} GoodStart(depth: nat, quiet: bool, i: int)
    ensures var v := View(None, FRESH_MESSAGE);
            Good(depth, v, Segments("", "", false), quiet) && Raw(v) == "" && Owns(v, i)
  {
    NoMarkerInNothing();
  }

  // ---- the published stream is a valid stream ----------------------------------------------

  lemma {:induction false} OfStreamAppend(a: seq<MessageEvent>, b: seq<MessageEvent>, eventId: string)
    ensures OfStream(a + b, eventId) == OfStream(a, eventId) + OfStream(b, eventId)
  {
    if b == [] {
      assert a + b == a;
    } else {
      var front := b[..|b| - 1];
      assert (a + b)[..|a + b| - 1] == a + front;
      OfStreamAppend(a, front, eventId);
    }
  }

  lemma {:induction false} OfStreamAll(a: seq<MessageEvent>, eventId: string)
    ensures forall e :: e in OfStream(a, eventId) ==> e in a && e.eventId == eventId
    ensures (forall e :: e in a ==> e.eventId == eventId) ==> OfStream(a, eventId) == a
    ensures (forall e :: e in a ==> e.eventId != eventId) ==> OfStream(a, eventId) == []
  {
    if a != [] {
      var front := a[..|a| - 1];
      assert forall e :: e in front ==> e in a;
      OfStreamAll(front, eventId);
      assert a == front + [a[|a| - 1]];
    }
  }

  lemma {:induction false} FoldOfStream(a: seq<MessageEvent>, eventId: string, i: int)
    ensures Fold(OfStream(a, eventId), eventId, i) == Fold(a, eventId, i)
  {
    if a != [] {
      var front := a[..|a| - 1];
      FoldOfStream(front, eventId, i);
      FoldOne(OfStream(front, eventId), a[|a| - 1], eventId, i);
      FoldOne(front, a[|a| - 1], eventId, i);
      assert a == front + [a[|a| - 1]];
    }
  }

  /** What one publish sends belongs to the event's own stream: process events
      around it, the event itself where its phase puts it. */
  lemma {:induction false} PublishedShape(chain: seq<Interceptor>, depth: nat, contexts: Contexts, e: MessageEvent)
    requires ProviderEvent(e)
    ensures var out := Published(e, ProgressOf(chain, depth, contexts, e));
            && (forall x :: x in out ==> x.eventId == e.eventId)
            && (e.phase.Started? ==> out == [e])
            && (e.phase.InProgress? ==> forall x :: x in out ==> CarriesText(x))
            && (e.phase.End? ==> out != [] && out[|out| - 1] == e && forall x :: x in out[..|out| - 1] ==> CarriesText(x))
  {
    hide HandleOne, ContentEvent;
    var p := ProgressOf(chain, depth, contexts, e);
    if e.phase.Started? {
      assert p == Progress(contexts, [], [], []);
    }
    ExtraEventsShape(e, InProgress, p.flushes);
    ExtraEventsShape(e, InProgressPartial, p.replays);
  }

  lemma {:induction false} ExtraEventsShape(e: MessageEvent, phase: Phase, patches: seq<Patch>)
    requires phase.InProgress? || phase.InProgressPartial?
    ensures forall x :: x in EventFor(e, phase, patches) ==> x.eventId == e.eventId && CarriesText(x)
  {
  }

  /** STARTED, then process events; END only at the very end. */
  predicate OpenStream(s: seq<MessageEvent>) {
    s != [] && s[0].phase.Started? && forall k | 1 <= k < |s| :: CarriesText(s[k])
  }

  lemma {:induction false} PublishedStream(chain: seq<Interceptor>, depths: string -> nat, events: seq<MessageEvent>, eventId: string)
    requires FromProvider(events)
    ensures var s := OfStream(events, eventId);
            var out := OfStream(PublishAll(chain, depths, events).channel, eventId);
            && (s == [] ==> out == [])
            && (OpenStream(s) ==> OpenStream(out))
            && (ValidStream(s) ==> ValidStream(out))
  {
    hide ProgressOf, Published, StoreAfter, CarriesText, ProviderEvent, OpenStream, ValidStream;
    if events == [] {
      NothingStarted();
    } else {
      var front, last := events[..|events| - 1], events[|events| - 1];
      assert last in events;
      PublishedStream(chain, depths, front, eventId);
      var bus := PublishAll(chain, depths, front);
      var sent := Published(last, ProgressOf(chain, depths(last.eventId), ContextsOf(bus.store, last.eventId), last));
      PublishedShape(chain, depths(last.eventId), ContextsOf(bus.store, last.eventId), last);
      OfStreamAppend(bus.channel, sent, eventId);
      OfStreamAll(sent, eventId);
      var s, out := OfStream(front, eventId), OfStream(bus.channel, eventId);
      if last.eventId == eventId {
        assert OfStream(PublishAll(chain, depths, events).channel, eventId) == out + sent;
        StreamGrows(s, out, last, sent);
      } else {
        assert OfStream(PublishAll(chain, depths, events).channel, eventId) == out;
      }
    }
  }

  lemma {:induction false} NothingStarted()
    ensures !OpenStream([]) && !ValidStream([])
  {
  }

  lemma {:induction false} StreamGrows(s: seq<MessageEvent>, out: seq<MessageEvent>, e: MessageEvent, sent: seq<MessageEvent>)
    requires (s == [] ==> out == []) && (OpenStream(s) ==> OpenStream(out)) && ProviderEvent(e)
    requires e.phase.Started? ==> sent == [e]
    requires e.phase.InProgress? ==> forall x :: x in sent ==> CarriesText(x)
    requires e.phase.End? ==> sent != [] && sent[|sent| - 1] == e && forall x :: x in sent[..|sent| - 1] ==> CarriesText(x)
    ensures OpenStream(s + [e]) ==> OpenStream(out + sent)
    ensures ValidStream(s + [e]) ==> ValidStream(out + sent)
  {
    if OpenStream(s + [e]) && s != [] {
      assert forall k :: 0 <= k < |s| ==> (s + [e])[k] == s[k];
      assert (s + [e])[|s|] == e;
    }
    if ValidStream(s + [e]) {
      assert (s + [e])[|s|] == e;
      assert forall k :: 0 <= k < |s| ==> (s + [e])[k] == s[k];
      assert OpenStream(s);
      assert forall k :: 0 <= k < |sent| - 1 ==> sent[k] == sent[..|sent| - 1][k];
    }
  }

  // ---- the main results ---------------------------------------------------------------------

  /** The message stored for choice `i` once the collector has rebuilt the stream. */
  function Stored(channel: seq<MessageEvent>, eventId: string, i: int): Message {
    StripSame(Fold(OfStream(channel, eventId), eventId, i))
  }

  /** Wherever a raw text exists, both derived channels exist. */
  lemma {:induction false} ChoicesFilled(m: Message, phase: Phase, choices: seq<ChunkChoice>, i: int)
    requires Derived(m)
    ensures Derived(ApplyChoices(m, phase, choices, i))
  {
    hide ApplyChoice, Derived;
    if choices != [] {
      ChoicesFilled(m, phase, choices[..|choices| - 1], i);
      ChoiceFilled(ApplyChoices(m, phase, choices[..|choices| - 1], i), phase, choices[|choices| - 1]);
    }
  }

  lemma {:induction false} ChoiceFilled(m: Message, phase: Phase, c: ChunkChoice)
    requires Derived(m)
    ensures Derived(ApplyChoice(m, phase, c))
  {
  }

  lemma {:induction false} FoldFilled(events: seq<MessageEvent>, eventId: string, i: int)
    ensures Derived(Fold(events, eventId, i))
  {
    hide ApplyChoices;
    if events != [] {
      var front, last := events[..|events| - 1], events[|events| - 1];
      FoldFilled(front, eventId, i);
      if last.eventId == eventId && CarriesText(last) {
        ChoicesFilled(Fold(front, eventId, i), last.phase, last.chunk.value.choices, i);
      }
    }
  }

  /** The main result for one stream on its own. */
  lemma {:induction false} RewriteOfView(depth: nat, s: seq<MessageEvent>, eventId: string, i: int)
    requires FromProvider(s) && ValidStream(s) && Once(s, i)
    requires forall e :: e in s ==> e.eventId == eventId
    ensures var m := RunView(DEFAULT_CHAIN, depth, s, eventId, i).message;
            var g := SegmentsOf(depth, s, i);
            && Read(m.content) == RawText(s, i)
            && Read(m.displayContent) == CleanSegments(depth, g)
            && Read(m.contextContent) == RawText(s, i)
            && (NoReasoning(s, i) ==> (HAS_CONTINUE_TAG in m.params <==> g.tagged || Tagging(depth, g.open)))
  {
    hide CleanSegments, StepEnd, Good, ProviderEvent, Text.Contains, RawText, SegmentsOf, NoReasoning;
    var front, last := s[..|s| - 1], s[|s| - 1];
    FrontOfValid(depth, s, i);
    assert last in s && forall e :: e in front ==> e in s;
    var quiet := NoReasoning(s, i);
    GoodRun(depth, front, eventId, i, quiet);
    var v := RunView(DEFAULT_CHAIN, depth, front, eventId, i);
    GoodEnd(depth, v, SegmentsOf(depth, front, i), i, quiet);
    assert RunView(DEFAULT_CHAIN, depth, s, eventId, i) == StepEnd(DEFAULT_CHAIN, depth, v, i);
  }

  /** For every way of cutting the text into chunks that name the choice once, and every
      interleaving with other choices and streams: the stream is published whole and the display text
      a reader rebuilds is the raw text rewritten at once, except that no marker is
      found across a chunk with usage; the context text is the raw text; the
      continue tag is set exactly if a marker was found. */
  lemma {:induction false} DisplayIsRewrite(depths: string -> nat, events: seq<MessageEvent>, eventId: string, i: int)
    requires FromProvider(events) && ValidStream(OfStream(events, eventId)) && Once(OfStream(events, eventId), i)
    ensures var s := OfStream(events, eventId);
            var channel := PublishAll(DEFAULT_CHAIN, depths, events).channel;
            var m := Stored(channel, eventId, i);
            var g := SegmentsOf(depths(eventId), s, i);
            && ValidStream(OfStream(channel, eventId))
            && DisplayText(m) == CleanSegments(depths(eventId), g)
            && ContextText(m) == RawText(s, i)
            && (NoReasoning(s, i) ==> (HAS_CONTINUE_TAG in m.params <==> g.tagged || Tagging(depths(eventId), g.open)))
  {
    hide CleanSegments, PublishAll, RunView, NoReasoning, ProviderEvent, Text.Contains, RawText, ValidStream, Fold, SegmentsOf;
    var s := OfStream(events, eventId);
    var bus := PublishAll(DEFAULT_CHAIN, depths, events);
    OfStreamAll(events, eventId);
    ViewsAreIndependent(DEFAULT_CHAIN, depths, events, eventId, i);
    PublishedStream(DEFAULT_CHAIN, depths, events, eventId);
    FoldOfStream(bus.channel, eventId, i);
    RewriteOfView(depths(eventId), s, eventId, i);
    FoldFilled(bus.channel, eventId, i);
    var m := Fold(bus.channel, eventId, i);
    StripSameKeepsText(m);
    assert DisplayText(m) == Read(m.displayContent) && ContextText(m) == Read(m.contextContent);
  }

  lemma {:induction false} FrontOfValid(depth: nat, s: seq<MessageEvent>, i: int)
    requires FromProvider(s) && ValidStream(s)
    ensures var front := s[..|s| - 1];
            && FromProvider(front) && Open(front)
            && (NoReasoning(s, i) ==> NoReasoning(front, i)) && (Once(s, i) ==> Once(front, i))
            && RawText(s, i) == RawText(front, i) && SegmentsOf(depth, s, i) == SegmentsOf(depth, front, i)
  {
    var front, last := s[..|s| - 1], s[|s| - 1];
    assert forall k :: 0 <= k < |front| ==> front[k] == s[k];
    assert last in s;
    var g := SegmentsOf(depth, front, i);
    assert g.(open := g.open + "") == g;
  }

  lemma {:induction false} EndIsLast(depth: nat, s: seq<MessageEvent>, eventId: string, i: int)
    requires ValidStream(s) && s[|s| - 1].eventId == eventId
    ensures RunView(DEFAULT_CHAIN, depth, s, eventId, i)
         == StepEnd(DEFAULT_CHAIN, depth, RunView(DEFAULT_CHAIN, depth, s[..|s| - 1], eventId, i), i)
  {
    hide StepEnd;
  }
}
