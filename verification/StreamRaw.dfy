/** What interception must not touch: raw texts, roles and finish reasons reach the FINAL
    message as the provider sent them, and extra events carry none of them. */
module StreamRaw {
  import opened Common
  import opened Messages
  import opened Interceptors
  import opened MessageFold
  import opened MessagePublishing
  import opened StreamViews
  import opened StreamTheorems
  import opened StreamRepeats

  // ---- one message ------------------------------------------------------------------------

  /** The message has the raw texts, the finish reason and the role of the entries. */
  predicate RawSame(m: Message, entries: seq<Entry>) {
    && Read(m.content) == Said(entries, RawContent) && Read(m.reasoning) == Said(entries, RawReasoning)
    && m.finishReason == LastFinish(entries) && m.role == LastRole(entries)
  }

  /** The two choices differ at most in what is derived. */
  predicate SameRaw(c: ChunkChoice, d: ChunkChoice) {
    && c.index == d.index && c.finishReason == d.finishReason
    && c.delta.role == d.delta.role && c.delta.content == d.delta.content && c.delta.reasoning == d.delta.reasoning
  }

  lemma {:induction false} RawStep(m: Message, entries: seq<Entry>, c: ChunkChoice, d: ChunkChoice)
    requires RawSame(m, entries) && SameRaw(c, d)
    ensures RawSame(ApplyChoice(m, InProgress, c), entries + [Entry(false, d)])
  {
    hide Said, LastFinish, LastRole, AllParams;
    RawAdded(entries, Entry(false, d), RawContent);
    RawAdded(entries, Entry(false, d), RawReasoning);
    RestAdded(entries, Entry(false, d));
  }

  lemma {:induction false} RawSteps(m: Message, entries: seq<Entry>, cs: seq<ChunkChoice>, ds: seq<ChunkChoice>, i: int)
    requires RawSame(m, entries) && |cs| == |ds| && forall k :: 0 <= k < |cs| ==> SameRaw(cs[k], ds[k])
    ensures RawSame(ApplyChoices(m, InProgress, cs, i), entries + ChunkEntries(ds, false, i))
  {
    hide RawSame, ApplyChoice;
    if cs == [] {
      assert entries + [] == entries;
    } else {
      var front, last := cs[..|cs| - 1], ds[..|ds| - 1];
      RawSteps(m, entries, front, last, i);
      var before := entries + ChunkEntries(last, false, i);
      if ds[|ds| - 1].index == i {
        RawStep(ApplyChoices(m, InProgress, front, i), before, cs[|cs| - 1], ds[|ds| - 1]);
        assert entries + (ChunkEntries(last, false, i) + [Entry(false, ds[|ds| - 1])]) == before + [Entry(false, ds[|ds| - 1])];
      }
    }
  }

  /** A patch leaves the raw side of a message alone. */
  lemma {:induction false} PatchKeepsRaw(m: Message, phase: Phase, i: int, modified: Option<MessageModified>, entries: seq<Entry>)
    requires RawSame(m, entries)
    ensures RawSame(Patched(m, phase, i, modified), entries)
  {
  }

  lemma {:induction false} PatchesKeepRaw(m: Message, phase: Phase, patches: seq<Patch>, i: int, entries: seq<Entry>)
    requires RawSame(m, entries)
    ensures RawSame(ApplyPatches(m, phase, patches, i), entries)
  {
    hide RawSame, Patched, ApplyPatches;
    if patches == [] {
      NoPatches(m, i);
    } else {
      var front, last := patches[..|patches| - 1], patches[|patches| - 1];
      PatchesKeepRaw(m, phase, front, i, entries);
      PatchesAppend(m, phase, front, last, i);
      assert front + [last] == patches;
      PatchKeepsRaw(ApplyPatches(m, phase, front, i), phase, i, Some(last.modified), entries);
    }
  }

  // ---- the choices of a chunk ---------------------------------------------------------------

  lemma {:induction false} HandleKeepsRaw(chain: seq<Interceptor>, depth: nat, ctx: InterceptionContext, d: Delta, isEnd: bool, isMessageEnd: bool)
    ensures var r := Handle(chain, depth, ctx, d, isEnd, isMessageEnd).delta;
            r.role == d.role && r.content == d.content && r.reasoning == d.reasoning
  {
    hide HoldChain, FlushChain, ReplayChain;
  }

  /** The provider's chunk is published choice by choice, only its derived side rewritten. */
  lemma {:induction false} ChoicesKeepRaw(chain: seq<Interceptor>, depth: nat, pending: Contexts, start: Progress, isEnd: bool, isMessageEnd: bool)
    ensures var r := HandleAll(chain, depth, pending, start, isEnd, isMessageEnd);
            forall k :: 0 <= k < |start.choices| ==> SameRaw(r.choices[k], start.choices[k])
  {
    hide Handle;
    if pending != [] {
      var front, ctx := pending[..|pending| - 1], pending[|pending| - 1];
      ChoicesKeepRaw(chain, depth, front, start, isEnd, isMessageEnd);
      var before := HandleAll(chain, depth, front, start, isEnd, isMessageEnd);
      HandleKeepsRaw(chain, depth, ctx, DeltaAt(before.choices, ctx.choiceIndex), isEnd, isMessageEnd);
    }
  }

  /** An event added around the provider's: a delta or a partial without raw text, role or
      finish reason. */
  predicate IsExtra(x: MessageEvent) {
    && (x.phase.InProgress? || x.phase.InProgressPartial?)
    && x.chunk.Some? && !x.chunk.value.hasUsage
    && forall c | c in x.chunk.value.choices ::
         c.finishReason.None? && c.delta.role.None? && c.delta.content.None? && c.delta.reasoning.None?
  }

  /** Every event of the provider is published once, with its phase, its chunk's id, model,
      time and usage and its choices as they were but for the derived texts; all else that is
      published with it is extra. */
  lemma {:induction false} PublishedOnce(chain: seq<Interceptor>, depth: nat, contexts: Contexts, e: MessageEvent) returns (j: nat)
    requires ProviderEvent(e)
    ensures var out := Published(e, ProgressOf(chain, depth, contexts, e));
            && j < |out| && (forall k :: 0 <= k < |out| && k != j ==> IsExtra(out[k]) && out[k].eventId == e.eventId)
            && out[j] == e.(chunk := out[j].chunk) && out[j].chunk.Some? == e.chunk.Some?
            && (e.chunk.Some? ==>
                  var chunk, sent := e.chunk.value, out[j].chunk.value;
                  && sent == chunk.(choices := sent.choices) && |sent.choices| == |chunk.choices|
                  && forall k :: 0 <= k < |chunk.choices| ==> SameRaw(sent.choices[k], chunk.choices[k]))
  {
    hide HandleAll, Pending;
    var p := ProgressOf(chain, depth, contexts, e);
    ChoicesKeepRaw(chain, depth, Pending(contexts, e), Progress(contexts, ChoicesOf(e), [], []), e.phase.End?, IsMessageEnd(e));
    j := |EventsBefore(e, p)|;
    ExtrasAre(e, InProgress, p.flushes);
    ExtrasAre(e, InProgressPartial, p.replays);
  }

  lemma {:induction false} ExtrasAre(e: MessageEvent, phase: Phase, patches: seq<Patch>)
    requires phase.InProgress? || phase.InProgressPartial?
    ensures forall x :: x in EventFor(e, phase, patches) ==> IsExtra(x) && x.eventId == e.eventId
  {
  }

  predicate NamesChunk(patch: Patch, chunk: Chunk) {
    patch.chunkId == chunk.id && patch.created == chunk.created && patch.model == chunk.model
  }

  lemma {:induction false} ReplaysNameChunk(chain: seq<Interceptor>, depth: nat, pending: Contexts, start: Progress, usage: bool, chunk: Chunk)
    requires forall c :: c in pending ==> c.chunkId == chunk.id && c.created == chunk.created && c.model == chunk.model
    requires forall x :: x in start.replays ==> NamesChunk(x, chunk)
    ensures forall x :: x in HandleAll(chain, depth, pending, start, false, usage).replays ==> NamesChunk(x, chunk)
  {
    hide Handle;
    if pending != [] {
      var front, ctx := pending[..|pending| - 1], pending[|pending| - 1];
      assert ctx in pending && forall c :: c in front ==> c in pending;
      ReplaysNameChunk(chain, depth, front, start, usage, chunk);
    }
  }

  /** A replay behind a chunk bears that chunk's id, model and time. */
  lemma {:induction false} ReplayNamesChunk(chain: seq<Interceptor>, depth: nat, contexts: Contexts, e: MessageEvent, x: MessageEvent)
    requires ProviderEvent(e) && e.phase.InProgress? && x in Published(e, ProgressOf(chain, depth, contexts, e)) && x.phase.InProgressPartial?
    ensures x.chunk.Some? && x.chunk.value.id == e.chunk.value.id
    ensures x.chunk.value.created == e.chunk.value.created && x.chunk.value.model == e.chunk.value.model
  {
    hide HandleAll, KeepHeld;
    var chunk, p := e.chunk.value, ProgressOf(chain, depth, contexts, e);
    var built := BuildContexts(contexts, chunk, ChoicesOf(e));
    HeldAreBuilt(built);
    forall c | c in built ensures c.chunkId == chunk.id && c.created == chunk.created && c.model == chunk.model {
      var k :| 0 <= k < |built| && built[k] == c;
    }
    ReplaysNameChunk(chain, depth, Pending(contexts, e), Progress(contexts, ChoicesOf(e), [], []), chunk.hasUsage, chunk);
    NoFlushes(chain, depth, Pending(contexts, e), Progress(contexts, ChoicesOf(e), [], []), chunk.hasUsage);
    assert p.replays != [] && p.replays[0] in p.replays;
  }

  /** The held texts of a stream, in the order their choices were first kept. */
  function HeldOf(contexts: Contexts): Contexts {
    Filter(HasHeld, contexts)
  }

  lemma {:induction false} KeptAreHeld(contexts: Contexts)
    ensures KeepHeld(contexts) == HeldOf(contexts)
  {
    if contexts != [] {
      KeptAreHeld(contexts[..|contexts| - 1]);
    }
  }

  predicate FlushOf(x: Patch, ctx: InterceptionContext) {
    x.choiceIndex == ctx.choiceIndex && x.chunkId == ctx.chunkId && x.created == ctx.created && x.model == ctx.model
  }

  lemma {:induction false} AllFlushed(chain: seq<Interceptor>, depth: nat, pending: Contexts, start: Progress)
    requires start.flushes == []
    ensures var r := HandleAll(chain, depth, pending, start, true, true);
            |r.flushes| == |pending| && forall k :: 0 <= k < |pending| ==> FlushOf(r.flushes[k], pending[k])
  {
    hide FlushChain, ReplayChain, HoldChain, Save, ReplaceDelta;
    if pending != [] {
      AllFlushed(chain, depth, pending[..|pending| - 1], start);
    }
  }

  /** The order of what is sent with an event: an event of the middle comes first and its
      replays behind it; before END comes one event that releases every held text, choice by
      choice in the order the publisher met them, then the replays, and END is the last. */
  lemma {:induction false} PublishedOrder(chain: seq<Interceptor>, depth: nat, contexts: Contexts, e: MessageEvent)
    requires ProviderEvent(e)
    ensures var out, held := Published(e, ProgressOf(chain, depth, contexts, e)), HeldOf(contexts);
            && 1 <= |out| <= 3 && (!e.phase.End? ==> out[0].phase == e.phase && forall k :: 1 <= k < |out| ==> out[k].phase.InProgressPartial?)
            && (e.phase.End? ==> out[|out| - 1].phase.End?)
            && (e.phase.End? && held == [] ==> |out| == 1)
            && (e.phase.End? && held != [] ==>
                  && |out| > 1 && out[0].phase.InProgress? && (|out| > 2 ==> out[1].phase.InProgressPartial?)
                  && out[0].chunk.Some? && out[0].chunk.value.id == held[0].chunkId && |out[0].chunk.value.choices| == |held|
                  && forall k :: 0 <= k < |held| ==> out[0].chunk.value.choices[k].index == held[k].choiceIndex)
  {
    hide HandleAll, KeepHeld, Filter, HasHeld;
    KeptAreHeld(contexts);
    if e.phase.End? {
      AllFlushed(chain, depth, HeldOf(contexts), Progress(contexts, [], [], []));
      if HeldOf(contexts) == [] {
        NothingHandled(chain, depth, Progress(contexts, [], [], []));
      }
    } else if e.phase.InProgress? {
      NoFlushes(chain, depth, Pending(contexts, e), Progress(contexts, ChoicesOf(e), [], []), e.chunk.value.hasUsage);
    } else {
      NothingHandled(chain, depth, Progress(contexts, ChoicesOf(e), [], []));
      NothingAtStart(chain, depth, contexts, e);
    }
  }

  lemma {:induction false} NothingHandled(chain: seq<Interceptor>, depth: nat, start: Progress)
    ensures HandleAll(chain, depth, [], start, true, true) == start
  {
  }

  lemma {:induction false} NothingAtStart(chain: seq<Interceptor>, depth: nat, contexts: Contexts, e: MessageEvent)
    requires e.phase.Started?
    ensures ProgressOf(chain, depth, contexts, e) == Progress(contexts, ChoicesOf(e), [], [])
  {
  }

  /** A choice keeps its place among the contexts, and a new one comes last. */
  lemma {:induction false} SaveKeepsOrder(contexts: Contexts, ctx: InterceptionContext)
    ensures var r, known := Save(contexts, ctx), exists c :: c in contexts && c.choiceIndex == ctx.choiceIndex;
            && |r| == |contexts| + (if known then 0 else 1)
            && (forall k :: 0 <= k < |contexts| ==> r[k].choiceIndex == contexts[k].choiceIndex)
            && (!known ==> r[|contexts|] == ctx)
  {
    if contexts != [] && contexts[0].choiceIndex != ctx.choiceIndex {
      SaveKeepsOrder(contexts[1..], ctx);
      assert contexts == [contexts[0]] + contexts[1..];
    }
  }

  // ---- whole streams ----------------------------------------------------------------------------

  lemma {:induction false} OwnEntries(choices: seq<ChunkChoice>, i: int)
    ensures ChunkEntries(Own(choices, i), false, i) == ChunkEntries(choices, false, i)
  {
    if choices != [] {
      OwnEntries(choices[..|choices| - 1], i);
      OwnAdded(choices[..|choices| - 1], choices[|choices| - 1], i);
      assert choices == choices[..|choices| - 1] + [choices[|choices| - 1]];
      var own := Own(choices, i);
      if choices[|choices| - 1].index == i {
        assert own[..|own| - 1] == Own(choices[..|choices| - 1], i);
      }
    }
  }

  lemma {:induction false} StepKeepsRaw(chain: seq<Interceptor>, depth: nat, v: View, e: MessageEvent, i: int, entries: seq<Entry>)
    requires ProviderEvent(e) && RawSame(v.message, entries)
    ensures RawSame(StepView(chain, depth, v, e, i).message, entries + if e.phase.InProgress? then ChunkEntries(ChoicesOf(e), false, i) else [])
  {
    hide RawSame, HandleAll, Own, ApplyPatches, ApplyChoices, KeepHeld, BuildContexts, Handle, HasHeld, ChunkEntries, Patched;
    var own := Own(ChoicesOf(e), i);
    assert entries + [] == entries;
    if e.phase.InProgress? {
      OwnEntries(ChoicesOf(e), i);
      if own != [] {
        var p := HandleOwn(chain, depth, v.ctx, e.chunk.value, own);
        ChoicesKeepRaw(chain, depth, PendingOf(v.ctx, e.chunk.value, own), Progress(OwnContext(v.ctx), own, [], []), false, e.chunk.value.hasUsage);
        RawSteps(v.message, entries, p.choices, own, i);
        PatchesKeepRaw(ApplyChoices(v.message, InProgress, p.choices, i), InProgressPartial, p.replays, i, entries + ChunkEntries(own, false, i));
      } else {
        NoEntries(own, i);
      }
    } else if e.phase.End? && v.ctx.Some? && HasHeld(v.ctx.value) {
      var h := Handle(chain, depth, v.ctx.value, EMPTY_DELTA, true, true);
      PatchKeepsRaw(v.message, InProgress, i, h.flush, entries);
      PatchKeepsRaw(Patched(v.message, InProgress, i, h.flush), InProgressPartial, i, h.replay, entries);
    }
  }

  lemma {:induction false} NoEntries(choices: seq<ChunkChoice>, i: int)
    requires choices == []
    ensures ChunkEntries(choices, false, i) == []
  {
  }

  lemma {:induction false} RunKeepsRaw(chain: seq<Interceptor>, depth: nat, s: seq<MessageEvent>, eventId: string, i: int)
    requires FromProvider(s) && forall e :: e in s ==> e.eventId == eventId
    ensures RawSame(RunView(chain, depth, s, eventId, i).message, EntriesOf(s, i))
  {
    hide RawSame, StepView, ChunkEntries;
    if s == [] {
      FreshIsRaw();
    } else {
      var front, last := s[..|s| - 1], s[|s| - 1];
      assert last in s && forall e :: e in front ==> e in s;
      RunKeepsRaw(chain, depth, front, eventId, i);
      StepKeepsRaw(chain, depth, RunView(chain, depth, front, eventId, i), last, i, EntriesOf(front, i));
      assert EntriesOf(front, i) + [] == EntriesOf(front, i);
    }
  }

  lemma {:induction false} FreshIsRaw()
    ensures RawSame(FRESH_MESSAGE, [])
  {
  }

  /** For every chain, every run and every shape of chunks: the message rebuilt from what was
      published has the raw text, the raw reasoning, the finish reason and the role that the
      provider's own entries of the choice give it. */
  lemma {:induction false} RawReachesReader(chain: seq<Interceptor>, depths: string -> nat, events: seq<MessageEvent>, eventId: string, i: int)
    requires FromProvider(events)
    ensures var entries, m := EntriesOf(OfStream(events, eventId), i), Stored(PublishAll(chain, depths, events).channel, eventId, i);
            && Read(m.content) == Said(entries, RawContent) && Read(m.reasoning) == Said(entries, RawReasoning)
            && m.finishReason == LastFinish(entries) && m.role == LastRole(entries)
  {
    hide PublishAll, RunView, ProviderEvent, Fold, EntriesOf, Said;
    OfStreamAll(events, eventId);
    ViewsAreIndependent(chain, depths, events, eventId, i);
    FoldOfStream(PublishAll(chain, depths, events).channel, eventId, i);
    RunKeepsRaw(chain, depths(eventId), OfStream(events, eventId), eventId, i);
  }
}
