/** Every choice of every stream seen on its own: what the publisher keeps for it
    and what the published events rebuild for it depend on its own entries only. */
module StreamViews {
  import opened Common
  import opened Messages
  import opened Interceptors
  import opened MessageFold
  import opened MessagePublishing

  // ---- what the callers publish -------------------------------------------------

  predicate IsRaw(d: Delta) {
    d == EMPTY_DELTA.(role := d.role, content := d.content, reasoning := d.reasoning)
  }

  /** STARTED, then provider chunks, then END: the only events a message stream
      hands to the publisher. Nothing keeps a chunk from naming a choice twice. */
  predicate ProviderEvent(e: MessageEvent) {
    && (e.phase.Started? || e.phase.InProgress? || e.phase.End?)
    && (e.phase.InProgress? <==> e.chunk.Some?)
    && forall c | c in ChoicesOf(e) :: IsRaw(c.delta)
  }

  predicate DistinctContexts(contexts: Contexts) {
    forall j, k | 0 <= j < k < |contexts| :: contexts[j].choiceIndex != contexts[k].choiceIndex
  }

  // ---- runs of the publisher ------------------------------------------------------

  datatype Bus = Bus(store: Store, channel: seq<MessageEvent>)

  function PublishOne(chain: seq<Interceptor>, depth: nat, bus: Bus, event: MessageEvent): Bus {
    Bus(StoreAfter(chain, depth, bus.store, event),
        bus.channel + Published(event, ProgressOf(chain, depth, ContextsOf(bus.store, event.eventId), event)))
  }

  /** Each stream has the frame depth of the agent that writes it. */
  function PublishAll(chain: seq<Interceptor>, depths: string -> nat, events: seq<MessageEvent>): Bus {
    if events == [] then Bus(map[], [])
    else
      var last := events[|events| - 1];
      PublishOne(chain, depths(last.eventId), PublishAll(chain, depths, events[..|events| - 1]), last)
  }

  // ---- the entries of one choice ----------------------------------------------------

  /** The entries of choice `i`, in chunk order. */
  function Own(choices: seq<ChunkChoice>, i: int): (r: seq<ChunkChoice>)
    ensures |r| <= |choices|
    ensures forall c :: c in r ==> c in choices && c.index == i
  {
    if choices == [] then []
    else
      var front, last := Own(choices[..|choices| - 1], i), choices[|choices| - 1];
      if last.index == i then front + [last] else front
  }

  function OwnContexts(contexts: Contexts, i: int): Contexts {
    if contexts == [] then []
    else
      var front, last := OwnContexts(contexts[..|contexts| - 1], i), contexts[|contexts| - 1];
      if last.choiceIndex == i then front + [last] else front
  }

  function OwnPatches(patches: seq<Patch>, i: int): seq<Patch> {
    if patches == [] then []
    else
      var front, last := OwnPatches(patches[..|patches| - 1], i), patches[|patches| - 1];
      if last.choiceIndex == i then front + [last] else front
  }

  /** A chunk that names the choice at most once. */
  predicate NamedOnce(e: MessageEvent, i: int) {
    |Own(ChoicesOf(e), i)| <= 1
  }

  // ---- the view of one choice -------------------------------------------------------

  datatype View = View(ctx: Option<InterceptionContext>, message: Message)

  function ViewOf(bus: Bus, eventId: string, i: int): View {
    View(Find(ContextsOf(bus.store, eventId), i), Fold(bus.channel, eventId, i))
  }

  function Patched(m: Message, phase: Phase, i: int, modified: Option<MessageModified>): Message {
    if modified.None? then m else ApplyChoice(m, phase, ChunkChoice(i, PatchDelta(modified.value), None))
  }

  function OwnContext(ctx: Option<InterceptionContext>): Contexts {
    if ctx.Some? then [ctx.value] else []
  }

  function ApplyPatches(m: Message, phase: Phase, patches: seq<Patch>, i: int): Message {
    ApplyChoices(m, phase, PatchChoices(patches), i)
  }

  /** The loop over the contexts of one choice alone. */
  function HandleOwn(chain: seq<Interceptor>, depth: nat, ctx: Option<InterceptionContext>, chunk: Chunk, own: seq<ChunkChoice>): (r: Progress)
    ensures |r.choices| == |own|
  {
    HandleAll(chain, depth, KeepHeld(BuildContexts(OwnContext(ctx), chunk, own)), Progress(OwnContext(ctx), own, [], []), false, chunk.hasUsage)
  }

  /** The step of a choice with the entries `own` in a chunk. */
  function StepEntries(chain: seq<Interceptor>, depth: nat, v: View, chunk: Chunk, own: seq<ChunkChoice>, i: int): View {
    var p := HandleOwn(chain, depth, v.ctx, chunk, own);
    View(Find(p.contexts, i), ApplyPatches(ApplyChoices(v.message, InProgress, p.choices, i), InProgressPartial, p.replays, i))
  }

  /** The step of a choice named once in a chunk. */
  function StepChoice(chain: seq<Interceptor>, depth: nat, v: View, chunk: Chunk, c: ChunkChoice): View {
    var ctx := BuildContext(OwnContext(v.ctx), chunk, c);
    if !HasHeld(ctx) then View(v.ctx, ApplyChoice(v.message, InProgress, c))
    else
      var h := Handle(chain, depth, ctx, c.delta, false, chunk.hasUsage);
      View(Some(h.saved),
           Patched(ApplyChoice(v.message, InProgress, c.(delta := h.delta)), InProgressPartial, c.index, h.replay))
  }

  /** The step of any choice at END: what is held is flushed, the context dropped. */
  function StepEnd(chain: seq<Interceptor>, depth: nat, v: View, i: int): View {
    if v.ctx.None? || !HasHeld(v.ctx.value) then View(None, v.message)
    else
      var h := Handle(chain, depth, v.ctx.value, EMPTY_DELTA, true, true);
      View(None, Patched(Patched(v.message, InProgress, i, h.flush), InProgressPartial, i, h.replay))
  }

  function StepView(chain: seq<Interceptor>, depth: nat, v: View, event: MessageEvent, i: int): View {
    var own := Own(ChoicesOf(event), i);
    if event.phase.InProgress? && own != [] then StepEntries(chain, depth, v, event.chunk.value, own, i)
    else if event.phase.End? then StepEnd(chain, depth, v, i)
    else v
  }

  function RunView(chain: seq<Interceptor>, depth: nat, events: seq<MessageEvent>, eventId: string, i: int): View {
    if events == [] then View(None, FRESH_MESSAGE)
    else
      var before := RunView(chain, depth, events[..|events| - 1], eventId, i);
      var last := events[|events| - 1];
      if last.eventId == eventId then StepView(chain, depth, before, last, i) else before
  }

  // ---- dictionary and list facts ------------------------------------------------------

  lemma {:induction false} SaveThenFind(contexts: Contexts, ctx: InterceptionContext, i: int)
    ensures Find(Save(contexts, ctx), i) == if ctx.choiceIndex == i then Some(ctx) else Find(contexts, i)
  {
    if contexts != [] && contexts[0].choiceIndex != ctx.choiceIndex {
      SaveThenFind(contexts[1..], ctx, i);
    }
  }

  lemma {:induction false} SaveIndices(contexts: Contexts, ctx: InterceptionContext)
    ensures forall c :: c in Save(contexts, ctx) ==> c.choiceIndex == ctx.choiceIndex || c in contexts
  {
    if contexts != [] && contexts[0].choiceIndex != ctx.choiceIndex {
      SaveIndices(contexts[1..], ctx);
    }
  }

  lemma {:induction false} SaveDistinct(contexts: Contexts, ctx: InterceptionContext)
    requires DistinctContexts(contexts)
    ensures DistinctContexts(Save(contexts, ctx))
  {
    if contexts != [] {
      var tail := contexts[1..];
      if contexts[0].choiceIndex == ctx.choiceIndex {
        forall k | 0 < k < |contexts| ensures contexts[k].choiceIndex != ctx.choiceIndex {
        }
      } else {
        SaveDistinct(tail, ctx);
        SaveIndices(tail, ctx);
        var r := Save(contexts, ctx);
        forall k | 0 < k < |r| ensures r[k].choiceIndex != r[0].choiceIndex {
          assert r[k] in Save(tail, ctx);
        }
      }
    }
  }

  lemma {:induction false} FindAbsent(contexts: Contexts, i: int)
    ensures Find(contexts, i).None? <==> forall c :: c in contexts ==> c.choiceIndex != i
  {
    if contexts != [] {
      FindAbsent(contexts[1..], i);
    }
  }

  /** Of distinct contexts at most one belongs to the choice. */
  lemma {:induction false} OwnIsFound(contexts: Contexts, i: int)
    requires DistinctContexts(contexts)
    ensures OwnContexts(contexts, i) == OwnContext(Find(contexts, i))
  {
    if contexts != [] {
      var front, last := contexts[..|contexts| - 1], contexts[|contexts| - 1];
      OwnIsFound(front, i);
      FindAbsent(front, i);
      FindFront(front, last, i);
      assert contexts == front + [last];
    }
  }

  lemma {:induction false} FindFront(front: Contexts, last: InterceptionContext, i: int)
    ensures Find(front + [last], i) ==
            if Find(front, i).Some? then Find(front, i) else if last.choiceIndex == i then Some(last) else None
  {
    if front != [] {
      assert (front + [last])[1..] == front[1..] + [last];
      FindFront(front[1..], last, i);
    }
  }

  lemma {:induction false} OwnHeld(contexts: Contexts, i: int)
    ensures OwnContexts(KeepHeld(contexts), i) == KeepHeld(OwnContexts(contexts, i))
  {
    hide HasHeld;
    if contexts != [] {
      OwnHeld(contexts[..|contexts| - 1], i);
    }
  }

  /** Building a context reads the entry of its own choice only. */
  lemma {:induction false} BuildOwn(contexts: Contexts, chunk: Chunk, choice: ChunkChoice)
    ensures BuildContext(contexts, chunk, choice)
         == BuildContext(OwnContext(Find(contexts, choice.index)), chunk, choice)
  {
    var own := OwnContext(Find(contexts, choice.index));
    if own != [] {
      assert Find(own, choice.index) == Some(own[0]);
    }
  }

  lemma {:induction false} BuiltFront(contexts: Contexts, chunk: Chunk, choices: seq<ChunkChoice>)
    requires choices != []
    ensures BuildContexts(contexts, chunk, choices)
         == BuildContexts(contexts, chunk, choices[..|choices| - 1]) + [BuildContext(contexts, chunk, choices[|choices| - 1])]
  {
  }

  lemma {:induction false} OwnBuilt(contexts: Contexts, chunk: Chunk, choices: seq<ChunkChoice>, i: int)
    ensures OwnContexts(BuildContexts(contexts, chunk, choices), i)
         == BuildContexts(OwnContext(Find(contexts, i)), chunk, Own(choices, i))
  {
    hide BuildContext;
    if choices != [] {
      var front, last := choices[..|choices| - 1], choices[|choices| - 1];
      OwnBuilt(contexts, chunk, front, i);
      BuiltFront(contexts, chunk, choices);
      if last.index == i {
        BuildOwn(contexts, chunk, last);
        BuiltFront(OwnContext(Find(contexts, i)), chunk, Own(choices, i));
        assert Own(choices, i)[..|Own(choices, i)| - 1] == Own(front, i);
      }
    }
  }

  /** The last entry of the choice is the one the publisher writes to. */
  lemma {:induction false} OwnLast(choices: seq<ChunkChoice>, i: int)
    ensures var p, own := Position(choices, i), Own(choices, i);
            (p >= 0 <==> own != []) && (p >= 0 ==> own[|own| - 1] == choices[p])
  {
    if choices != [] {
      OwnLast(choices[..|choices| - 1], i);
    }
  }

  lemma {:induction false} OwnOwn(choices: seq<ChunkChoice>, i: int)
    requires forall c :: c in choices ==> c.index == i
    ensures Own(choices, i) == choices && Position(choices, i) == |choices| - 1
  {
    hide Own;
    if choices == [] {
      NothingReplaced(choices, i, EMPTY_DELTA, i);
    } else {
      var front, last := choices[..|choices| - 1], choices[|choices| - 1];
      assert last in choices && choices == front + [last];
      assert forall c :: c in front ==> c in choices;
      OwnOwn(front, i);
      OwnAdded(front, last, i);
    }
  }

  lemma {:induction false} OwnAdded(front: seq<ChunkChoice>, last: ChunkChoice, i: int)
    ensures Own(front + [last], i) == if last.index == i then Own(front, i) + [last] else Own(front, i)
  {
    assert (front + [last])[..|front|] == front;
  }

  lemma {:induction false} ReplacedAdded(front: seq<ChunkChoice>, last: ChunkChoice, j: int, d: Delta)
    ensures ReplaceDelta(front + [last], j, d)
         == if last.index == j then front + [last.(delta := d)] else ReplaceDelta(front, j, d) + [last]
  {
    assert (front + [last])[..|front|] == front;
  }

  lemma {:induction false} OwnReplaced(choices: seq<ChunkChoice>, j: int, d: Delta, i: int)
    ensures Own(ReplaceDelta(choices, j, d), i) == if j == i then ReplaceDelta(Own(choices, i), i, d) else Own(choices, i)
  {
    hide Own, ReplaceDelta;
    if choices == [] {
      NothingReplaced(choices, j, d, i);
      NothingReplaced(Own(choices, i), i, d, i);
    } else {
      var front, last := choices[..|choices| - 1], choices[|choices| - 1];
      assert choices == front + [last];
      OwnReplaced(front, j, d, i);
      ReplacedAdded(front, last, j, d);
      OwnAdded(front, last, i);
      ReplacedAdded(Own(front, i), last, i, d);
      OwnAdded(front, last.(delta := d), i);
      OwnAdded(ReplaceDelta(front, j, d), last, i);
    }
  }

  lemma {:induction false} NothingReplaced(choices: seq<ChunkChoice>, j: int, d: Delta, i: int)
    requires choices == []
    ensures ReplaceDelta(choices, j, d) == choices && Own(choices, i) == [] && Position(choices, i) == -1
  {
  }

  lemma {:induction false} ChoicesOwn(m: Message, phase: Phase, choices: seq<ChunkChoice>, i: int)
    ensures ApplyChoices(m, phase, choices, i) == ApplyChoices(m, phase, Own(choices, i), i)
  {
    hide ApplyChoice;
    if choices != [] {
      var front, last := choices[..|choices| - 1], choices[|choices| - 1];
      ChoicesOwn(m, phase, front, i);
      if last.index == i {
        assert Own(choices, i)[..|Own(choices, i)| - 1] == Own(front, i);
      }
    }
  }

  lemma {:induction false} PatchesAppend(m: Message, phase: Phase, patches: seq<Patch>, patch: Patch, i: int)
    ensures ApplyPatches(m, phase, patches + [patch], i)
         == if patch.choiceIndex == i then Patched(ApplyPatches(m, phase, patches, i), phase, i, Some(patch.modified))
            else ApplyPatches(m, phase, patches, i)
  {
    var choices := PatchChoices(patches + [patch]);
    assert choices[..|choices| - 1] == PatchChoices(patches);
  }

  lemma {:induction false} PatchesOwn(m: Message, phase: Phase, patches: seq<Patch>, i: int)
    ensures ApplyPatches(m, phase, patches, i) == ApplyPatches(m, phase, OwnPatches(patches, i), i)
  {
    hide ApplyPatches;
    if patches != [] {
      var front, last := patches[..|patches| - 1], patches[|patches| - 1];
      PatchesOwn(m, phase, front, i);
      assert patches == front + [last];
      PatchesAppend(m, phase, front, last, i);
      PatchesAppend(m, phase, OwnPatches(front, i), last, i);
    }
  }

  // ---- the loop over the pending contexts, seen from one choice -------------------------

  /** `q` is what `p` holds of choice `i`. */
  ghost predicate Restricts(p: Progress, q: Progress, i: int) {
    && q.choices == Own(p.choices, i) && q.contexts == OwnContext(Find(p.contexts, i))
    && q.flushes == OwnPatches(p.flushes, i) && q.replays == OwnPatches(p.replays, i)
  }

  lemma {:induction false} OwnPatchAdded(patches: seq<Patch>, ctx: InterceptionContext, m: Option<MessageModified>, i: int)
    ensures OwnPatches(patches + OnePatch(ctx, m), i)
         == if ctx.choiceIndex == i then OwnPatches(patches, i) + OnePatch(ctx, m) else OwnPatches(patches, i)
  {
    if m.Some? {
      var more := patches + OnePatch(ctx, m);
      assert more[..|more| - 1] == patches;
    } else {
      assert patches + OnePatch(ctx, m) == patches;
    }
  }

  lemma {:induction false} HandleSavesOwn(chain: seq<Interceptor>, depth: nat, ctx: InterceptionContext, d: Delta, isEnd: bool, isMessageEnd: bool)
    ensures Handle(chain, depth, ctx, d, isEnd, isMessageEnd).saved.choiceIndex == ctx.choiceIndex
    ensures !isEnd ==> Handle(chain, depth, ctx, d, isEnd, isMessageEnd).flush.None?
  {
  }

  /** A turn of the loop for choice `i` reads and writes what belongs to it; a turn for
      another choice does not touch it. */
  lemma {:induction false} HandleOneRestricts(chain: seq<Interceptor>, depth: nat, p: Progress, q: Progress, ctx: InterceptionContext,
                                              isEnd: bool, isMessageEnd: bool, i: int)
    requires Restricts(p, q, i)
    ensures Restricts(HandleOne(chain, depth, p, ctx, isEnd, isMessageEnd),
                      if ctx.choiceIndex == i then HandleOne(chain, depth, q, ctx, isEnd, isMessageEnd) else q, i)
  {
    hide Handle, Own, OwnPatches, OnePatch, ReplaceDelta;
    var d := DeltaAt(p.choices, ctx.choiceIndex);
    var h := Handle(chain, depth, ctx, d, isEnd, isMessageEnd);
    HandleSavesOwn(chain, depth, ctx, d, isEnd, isMessageEnd);
    SaveThenFind(p.contexts, h.saved, i);
    OwnReplaced(p.choices, ctx.choiceIndex, h.delta, i);
    OwnPatchAdded(p.flushes, ctx, h.flush, i);
    OwnPatchAdded(p.replays, ctx, h.replay, i);
    if ctx.choiceIndex == i {
      OwnLast(p.choices, i);
      OwnOwn(q.choices, i);
      assert DeltaAt(q.choices, i) == d;
    }
  }

  lemma {:induction false} HandleAllRestricts(chain: seq<Interceptor>, depth: nat, pending: Contexts, p: Progress, q: Progress,
                                              isEnd: bool, isMessageEnd: bool, i: int)
    requires Restricts(p, q, i)
    ensures Restricts(HandleAll(chain, depth, pending, p, isEnd, isMessageEnd),
                      HandleAll(chain, depth, OwnContexts(pending, i), q, isEnd, isMessageEnd), i)
  {
    hide HandleOne, Restricts;
    if pending != [] {
      var front, last := pending[..|pending| - 1], pending[|pending| - 1];
      HandleAllRestricts(chain, depth, front, p, q, isEnd, isMessageEnd, i);
      HandleOneRestricts(chain, depth, HandleAll(chain, depth, front, p, isEnd, isMessageEnd),
                         HandleAll(chain, depth, OwnContexts(front, i), q, isEnd, isMessageEnd), last, isEnd, isMessageEnd, i);
    }
  }

  // ---- one published event, seen from one choice ------------------------------------

  lemma {:induction false} FoldOne(channel: seq<MessageEvent>, e: MessageEvent, eventId: string, i: int)
    ensures Fold(channel + [e], eventId, i)
         == if e.eventId == eventId && CarriesText(e)
            then ApplyChoices(Fold(channel, eventId, i), e.phase, e.chunk.value.choices, i)
            else Fold(channel, eventId, i)
  {
    assert (channel + [e])[..|channel|] == channel;
  }

  lemma {:induction false} FoldPatchEvent(channel: seq<MessageEvent>, source: MessageEvent, phase: Phase, patches: seq<Patch>, eventId: string, i: int)
    requires phase.InProgress? || phase.InProgressPartial?
    ensures Fold(channel + EventFor(source, phase, patches), eventId, i)
         == if source.eventId == eventId then ApplyPatches(Fold(channel, eventId, i), phase, patches, i)
            else Fold(channel, eventId, i)
  {
    if patches == [] {
      assert channel + [] == channel;
    } else {
      FoldOne(channel, ContentEvent(source, phase, patches), eventId, i);
    }
  }

  lemma {:induction false} HandleAllDistinct(chain: seq<Interceptor>, depth: nat, pending: Contexts, start: Progress, isEnd: bool, isMessageEnd: bool)
    requires DistinctContexts(start.contexts)
    ensures DistinctContexts(HandleAll(chain, depth, pending, start, isEnd, isMessageEnd).contexts)
  {
    hide Handle;
    if pending != [] {
      var front, ctx := pending[..|pending| - 1], pending[|pending| - 1];
      HandleAllDistinct(chain, depth, front, start, isEnd, isMessageEnd);
      var before := HandleAll(chain, depth, front, start, isEnd, isMessageEnd);
      SaveDistinct(before.contexts, Handle(chain, depth, ctx, DeltaAt(before.choices, ctx.choiceIndex), isEnd, isMessageEnd).saved);
    }
  }

  ghost predicate DistinctStore(store: Store) {
    forall id :: DistinctContexts(ContextsOf(store, id))
  }

  lemma {:induction false} PublishKeepsDistinct(chain: seq<Interceptor>, depth: nat, bus: Bus, e: MessageEvent)
    requires DistinctStore(bus.store)
    ensures DistinctStore(PublishOne(chain, depth, bus, e).store)
  {
    hide HandleAll;
    var contexts := ContextsOf(bus.store, e.eventId);
    HandleAllDistinct(chain, depth, Pending(contexts, e), Progress(contexts, ChoicesOf(e), [], []), e.phase.End?, IsMessageEnd(e));
    var after := PublishOne(chain, depth, bus, e).store;
    forall id ensures DistinctContexts(ContextsOf(after, id)) {
      assert DistinctContexts(ContextsOf(bus.store, id));
    }
  }

  /** The flush, the event itself and the replay, one after the other. */
  function AfterPublish(m: Message, e: MessageEvent, p: Progress, i: int): Message {
    var flushed := ApplyPatches(m, InProgress, p.flushes, i);
    ApplyPatches(if e.phase.InProgress? then ApplyChoices(flushed, InProgress, p.choices, i) else flushed, InProgressPartial, p.replays, i)
  }

  /** The message a publish leaves behind for choice `i`. */
  lemma {:induction false} FoldPublished(channel: seq<MessageEvent>, e: MessageEvent, p: Progress, eventId: string, i: int)
    requires ProviderEvent(e) && |p.choices| == |ChoicesOf(e)|
    ensures Fold(channel + Published(e, p), eventId, i) ==
              if e.eventId == eventId then AfterPublish(Fold(channel, eventId, i), e, p, i) else Fold(channel, eventId, i)
  {
    hide ApplyChoice, ApplyPatches, EventFor, Fold;
    var flush, replay := EventFor(e, InProgress, p.flushes), EventFor(e, InProgressPartial, p.replays);
    var current := WithChoices(e, p.choices);
    FoldPatchEvent(channel, e, InProgress, p.flushes, eventId, i);
    if e.phase.End? {
      assert channel + Published(e, p) == channel + flush + replay + [current];
      FoldPatchEvent(channel + flush, e, InProgressPartial, p.replays, eventId, i);
      FoldOne(channel + flush + replay, current, eventId, i);
    } else {
      assert channel + Published(e, p) == channel + flush + [current] + replay;
      FoldOne(channel + flush, current, eventId, i);
      FoldPatchEvent(channel + flush + [current], e, InProgressPartial, p.replays, eventId, i);
    }
  }

  /** Which contexts of choice `i` an event visits. */
  lemma {:induction false} PendingOwn(contexts: Contexts, e: MessageEvent, i: int)
    requires ProviderEvent(e) && DistinctContexts(contexts)
    ensures OwnContexts(Pending(contexts, e), i) ==
              if e.phase.InProgress? then KeepHeld(BuildContexts(OwnContext(Find(contexts, i)), e.chunk.value, Own(ChoicesOf(e), i)))
              else if e.phase.End? then KeepHeld(OwnContext(Find(contexts, i)))
              else []
  {
    if e.phase.InProgress? {
      OwnHeld(BuildContexts(contexts, e.chunk.value, ChoicesOf(e)), i);
      OwnBuilt(contexts, e.chunk.value, ChoicesOf(e), i);
    } else if e.phase.End? {
      OwnHeld(contexts, i);
      OwnIsFound(contexts, i);
    }
  }

  /** The progress of one publish from the context and the entries of choice `i` alone. */
  function OwnProgress(chain: seq<Interceptor>, depth: nat, ctx: Option<InterceptionContext>, e: MessageEvent, i: int): Progress
    requires ProviderEvent(e)
  {
    var start := Progress(OwnContext(ctx), [], [], []);
    if e.phase.InProgress? then HandleOwn(chain, depth, ctx, e.chunk.value, Own(ChoicesOf(e), i))
    else if e.phase.End? then HandleAll(chain, depth, KeepHeld(OwnContext(ctx)), start, true, true)
    else start
  }

  lemma {:induction false} ProgressOwn(chain: seq<Interceptor>, depth: nat, contexts: Contexts, e: MessageEvent, i: int)
    requires ProviderEvent(e) && DistinctContexts(contexts)
    ensures Restricts(ProgressOf(chain, depth, contexts, e), OwnProgress(chain, depth, Find(contexts, i), e, i), i)
  {
    hide KeepHeld, BuildContexts, HandleOne, Own;
    var start := Progress(contexts, ChoicesOf(e), [], []);
    var own := Progress(OwnContext(Find(contexts, i)), Own(ChoicesOf(e), i), [], []);
    NothingOwn(i);
    assert Restricts(start, own, i);
    PendingOwn(contexts, e, i);
    HandleAllRestricts(chain, depth, Pending(contexts, e), start, own, e.phase.End?, IsMessageEnd(e), i);
  }

  lemma {:induction false} NothingOwn(i: int)
    ensures Own([], i) == [] && OwnPatches([], i) == [] && OwnContexts([], i) == []
  {
  }

  lemma {:induction false} NoPatches(m: Message, i: int)
    ensures forall phase :: ApplyPatches(m, phase, [], i) == m
  {
  }

  /** At END the loop visits the stored context of the choice, if it holds text. */
  lemma {:induction false} EndIsStep(chain: seq<Interceptor>, depth: nat, v: View, i: int)
    requires v.ctx.Some? ==> v.ctx.value.choiceIndex == i
    ensures var p := HandleAll(chain, depth, KeepHeld(OwnContext(v.ctx)), Progress(OwnContext(v.ctx), [], [], []), true, true);
            && StepEnd(chain, depth, v, i).ctx.None?
            && StepEnd(chain, depth, v, i).message
               == ApplyPatches(ApplyPatches(v.message, InProgress, p.flushes, i), InProgressPartial, p.replays, i)
  {
    hide Handle, HasHeld, ApplyPatches, Patched, HandleAll, KeepHeld;
    var own := OwnContext(v.ctx);
    NoPatches(v.message, i);
    EndLoop(chain, depth, own);
    if own != [] && HasHeld(own[0]) {
      var h := Handle(chain, depth, own[0], EMPTY_DELTA, true, true);
      PatchAlone(v.message, InProgress, own[0], h.flush, i);
      PatchAlone(Patched(v.message, InProgress, i, h.flush), InProgressPartial, own[0], h.replay, i);
    }
  }

  lemma {:induction false} EndLoop(chain: seq<Interceptor>, depth: nat, own: Contexts)
    requires |own| <= 1
    ensures var p := HandleAll(chain, depth, KeepHeld(own), Progress(own, [], [], []), true, true);
            if own == [] || !HasHeld(own[0]) then p.flushes == [] && p.replays == []
            else var h := Handle(chain, depth, own[0], EMPTY_DELTA, true, true);
                 p.flushes == OnePatch(own[0], h.flush) && p.replays == OnePatch(own[0], h.replay)
  {
    hide Handle, HasHeld, OnePatch, Save, ReplaceDelta;
    var start := Progress(own, [], [], []);
    if own == [] {
      assert KeepHeld(own) == [];
    } else {
      var ctx := own[0];
      assert own[..0] == [] && KeepHeld(own[..0]) == [];
      if HasHeld(ctx) {
        assert KeepHeld(own) == [ctx] && [ctx][..0] == [];
        assert HandleAll(chain, depth, [ctx][..0], start, true, true) == start;
        var h := Handle(chain, depth, ctx, EMPTY_DELTA, true, true);
        assert [] + OnePatch(ctx, h.flush) == OnePatch(ctx, h.flush) && [] + OnePatch(ctx, h.replay) == OnePatch(ctx, h.replay);
      }
    }
  }

  lemma {:induction false} PatchAlone(m: Message, phase: Phase, ctx: InterceptionContext, modified: Option<MessageModified>, i: int)
    requires ctx.choiceIndex == i
    ensures ApplyPatches(m, phase, OnePatch(ctx, modified), i) == Patched(m, phase, i, modified)
  {
    NoPatches(m, i);
    if modified.Some? {
      PatchesAppend(m, phase, [], PatchOf(ctx, modified.value), i);
      assert [] + [PatchOf(ctx, modified.value)] == OnePatch(ctx, modified);
    }
  }

  lemma {:induction false} NoFlushes(chain: seq<Interceptor>, depth: nat, pending: Contexts, start: Progress, isMessageEnd: bool)
    ensures HandleAll(chain, depth, pending, start, false, isMessageEnd).flushes == start.flushes
  {
    hide Handle;
    if pending != [] {
      var front, last := pending[..|pending| - 1], pending[|pending| - 1];
      NoFlushes(chain, depth, front, start, isMessageEnd);
      var before := HandleAll(chain, depth, front, start, false, isMessageEnd);
      HandleSavesOwn(chain, depth, last, DeltaAt(before.choices, last.choiceIndex), false, isMessageEnd);
    }
  }

  lemma {:induction false} StoreOf(chain: seq<Interceptor>, depth: nat, bus: Bus, e: MessageEvent)
    ensures ContextsOf(PublishOne(chain, depth, bus, e).store, e.eventId)
         == if e.phase.End? then [] else ProgressOf(chain, depth, ContextsOf(bus.store, e.eventId), e).contexts
  {
  }

  /** A choice the chunk does not name stays as it is. */
  lemma {:induction false} NotNamed(chain: seq<Interceptor>, depth: nat, v: View, chunk: Chunk, i: int)
    requires v.ctx.Some? ==> v.ctx.value.choiceIndex == i
    ensures StepEntries(chain, depth, v, chunk, [], i) == v
  {
    NoPatches(v.message, i);
  }

  /** Publishing one event moves the view of every choice of every stream by that
      choice's own step, whatever the chunk looks like: choices and streams never mix. */
  lemma {:induction false} PublishOneView(chain: seq<Interceptor>, depth: nat, bus: Bus, e: MessageEvent, eventId: string, i: int)
    requires ProviderEvent(e) && DistinctStore(bus.store)
    ensures ViewOf(PublishOne(chain, depth, bus, e), eventId, i)
         == if e.eventId == eventId then StepView(chain, depth, ViewOf(bus, eventId, i), e, i) else ViewOf(bus, eventId, i)
  {
    hide HandleAll, Published, Fold, ApplyChoices, ApplyPatches, StepEnd, KeepHeld, Own, Pending, OwnPatches, BuildContexts;
    var contexts := ContextsOf(bus.store, e.eventId);
    var p := ProgressOf(chain, depth, contexts, e);
    var m := Fold(bus.channel, eventId, i);
    FoldPublished(bus.channel, e, p, eventId, i);
    if e.eventId == eventId {
      ProgressOwn(chain, depth, contexts, e, i);
      StoreOf(chain, depth, bus, e);
      NoPatches(m, i);
      var flushed := ApplyPatches(m, InProgress, p.flushes, i);
      PatchesOwn(m, InProgress, p.flushes, i);
      if e.phase.InProgress? {
        var own := Own(ChoicesOf(e), i);
        var pending := KeepHeld(BuildContexts(OwnContext(Find(contexts, i)), e.chunk.value, own));
        NoFlushes(chain, depth, pending, Progress(OwnContext(Find(contexts, i)), own, [], []), e.chunk.value.hasUsage);
        ChoicesOwn(m, InProgress, p.choices, i);
        PatchesOwn(ApplyChoices(m, InProgress, p.choices, i), InProgressPartial, p.replays, i);
        NotNamed(chain, depth, ViewOf(bus, eventId, i), e.chunk.value, i);
        FoundOwn(p.contexts, HandleOwn(chain, depth, Find(contexts, i), e.chunk.value, own).contexts, i);
      } else {
        PatchesOwn(flushed, InProgressPartial, p.replays, i);
        EndIsStep(chain, depth, ViewOf(bus, eventId, i), i);
        if e.phase.Started? {
          FoundOwn(p.contexts, OwnContext(Find(contexts, i)), i);
        }
      }
    }
  }

  lemma {:induction false} FoundOwn(contexts: Contexts, own: Contexts, i: int)
    requires own == OwnContext(Find(contexts, i))
    ensures Find(own, i) == Find(contexts, i)
  {
    if own != [] {
      assert Find(own, i) == Some(own[0]);
    }
  }

  /** A choice named once: the step without a loop. */
  lemma {:induction false} OneEntry(chain: seq<Interceptor>, depth: nat, v: View, chunk: Chunk, c: ChunkChoice)
    requires v.ctx.Some? ==> v.ctx.value.choiceIndex == c.index
    ensures StepEntries(chain, depth, v, chunk, [c], c.index) == StepChoice(chain, depth, v, chunk, c)
  {
    hide Handle, HasHeld, ApplyPatches, ApplyChoice, BuildContext;
    var own, i := OwnContext(v.ctx), c.index;
    var ctx := BuildContext(own, chunk, c);
    var start := Progress(own, [c], [], []);
    var built := BuildContexts(own, chunk, [c]);
    assert built == [ctx] && built[..0] == [] && [c][..0] == [];
    FoundOwn(own, own, i);
    ApplyOnly(v.message, c);
    if HasHeld(ctx) {
      assert KeepHeld(built) == [ctx];
      assert HandleAll(chain, depth, [], start, false, chunk.hasUsage) == start;
      var h := Handle(chain, depth, ctx, c.delta, false, chunk.hasUsage);
      BuiltIndex(own, chunk, c);
      assert Position([c], i) == 0;
      assert HandleOwn(chain, depth, v.ctx, chunk, [c]) == HandleOne(chain, depth, start, ctx, false, chunk.hasUsage);
      HandleSavesOwn(chain, depth, ctx, c.delta, false, chunk.hasUsage);
      SaveThenFind(own, h.saved, i);
      ApplyOnly(v.message, c.(delta := h.delta));
      PatchAlone(ApplyChoice(v.message, InProgress, c.(delta := h.delta)), InProgressPartial, ctx, h.replay, i);
      assert [] + OnePatch(ctx, h.replay) == OnePatch(ctx, h.replay);
      assert [c][0 := c.(delta := h.delta)] == [c.(delta := h.delta)];
    } else {
      assert KeepHeld(built) == [];
      NoPatches(ApplyChoice(v.message, InProgress, c), i);
    }
  }

  lemma {:induction false} BuiltIndex(contexts: Contexts, chunk: Chunk, c: ChunkChoice)
    ensures BuildContext(contexts, chunk, c).choiceIndex == c.index
  {
  }

  lemma {:induction false} ApplyOnly(m: Message, c: ChunkChoice)
    ensures ApplyChoices(m, InProgress, [c], c.index) == ApplyChoice(m, InProgress, c)
  {
    assert [c][..0] == [];
  }
}
