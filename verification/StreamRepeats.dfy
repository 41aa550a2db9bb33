/** Chunks that name a choice more than once: what is shown, what is remembered, and
    exactly when neither goes wrong. */
module StreamRepeats {
  import opened Common
  import opened Messages
  import opened Interceptors
  import opened MessageFold
  import opened MessagePublishing
  import opened StreamViews
  import opened StreamTheorems

  /** Entries of one choice, as the provider sends them. */
  predicate Entries(own: seq<ChunkChoice>, i: int) {
    own != [] && forall c | c in own :: c.index == i && IsRaw(c.delta)
  }

  function Front(own: seq<ChunkChoice>): seq<ChunkChoice>
    requires own != []
  {
    own[..|own| - 1]
  }

  function Last(own: seq<ChunkChoice>): ChunkChoice
    requires own != []
  {
    own[|own| - 1]
  }

  /** The contexts the entries give rise to: each is built on what was held before the
      chunk, none on another one. */
  function PendingOf(ctx: Option<InterceptionContext>, chunk: Chunk, own: seq<ChunkChoice>): Contexts {
    KeepHeld(BuildContexts(OwnContext(ctx), chunk, own))
  }

  // ---- what every context comes to --------------------------------------------------------

  predicate Holds(chain: seq<Interceptor>, depth: nat, ctx: InterceptionContext, usage: bool) {
    !usage && HoldChain(chain, depth, ctx)
  }

  /** The display text a context releases. */
  function Out(chain: seq<Interceptor>, depth: nat, ctx: InterceptionContext, usage: bool): Option<string> {
    FlushChain(chain, |chain|, depth, ctx, usage).display.value.content
  }

  function Replayed(chain: seq<Interceptor>, depth: nat, ctx: InterceptionContext, usage: bool): Option<MessageModified> {
    Handle(chain, depth, ctx, EMPTY_DELTA, false, usage).replay
  }

  /** What all contexts write into the display channel of the last entry, whose raw text
      is `raw`: each writes only what differs from the raw text. */
  function LastShown(chain: seq<Interceptor>, depth: nat, pending: Contexts, raw: Option<string>, usage: bool): Option<string> {
    if pending == [] then None
    else
      var before := LastShown(chain, depth, pending[..|pending| - 1], raw, usage);
      var ctx := pending[|pending| - 1];
      if Holds(chain, depth, ctx, usage) then (if raw.Some? then Some("") else before)
      else if raw != Out(chain, depth, ctx, usage) then Out(chain, depth, ctx, usage)
      else before
  }

  /** The last replay of the display text: it overwrites all others. */
  function LastReplay(chain: seq<Interceptor>, depth: nat, pending: Contexts, usage: bool): Option<string> {
    if pending == [] then None
    else
      var r := Replayed(chain, depth, pending[|pending| - 1], usage);
      if r.Some? && r.value.display.Some? && r.value.display.value.content.Some? then r.value.display.value.content
      else LastReplay(chain, depth, pending[..|pending| - 1], usage)
  }

  function LastDelta(chain: seq<Interceptor>, depth: nat, pending: Contexts, d: Delta, usage: bool): Delta {
    if pending == [] then d
    else Handle(chain, depth, pending[|pending| - 1], LastDelta(chain, depth, pending[..|pending| - 1], d, usage), false, usage).delta
  }

  function Replays(chain: seq<Interceptor>, depth: nat, pending: Contexts, usage: bool): seq<Patch> {
    if pending == [] then []
    else
      var ctx := pending[|pending| - 1];
      Replays(chain, depth, pending[..|pending| - 1], usage) + OnePatch(ctx, Replayed(chain, depth, ctx, usage))
  }

  /** Only the delta a context writes to depends on that delta. */
  lemma {:induction false} HandleApart(chain: seq<Interceptor>, depth: nat, ctx: InterceptionContext, d: Delta, usage: bool)
    ensures var h, apart := Handle(chain, depth, ctx, d, false, usage), Handle(chain, depth, ctx, EMPTY_DELTA, false, usage);
            h.saved == apart.saved && h.replay == apart.replay
  {
  }

  // ---- the loop over the contexts of one choice ---------------------------------------------

  ghost predicate AllOf(pending: Contexts, i: int) {
    forall c :: c in pending ==> c.choiceIndex == i
  }

  lemma {:induction false} PendingAreOwn(ctx: Option<InterceptionContext>, chunk: Chunk, own: seq<ChunkChoice>, i: int)
    requires forall c :: c in own ==> c.index == i
    ensures AllOf(PendingOf(ctx, chunk, own), i)
  {
    var built := BuildContexts(OwnContext(ctx), chunk, own);
    HeldAreBuilt(built);
    forall c | c in built ensures c.choiceIndex == i {
      var k :| 0 <= k < |built| && built[k] == c;
      assert own[k] in own;
    }
  }

  lemma {:induction false} HeldAreBuilt(contexts: Contexts)
    ensures forall c :: c in KeepHeld(contexts) ==> c in contexts
  {
    if contexts != [] {
      HeldAreBuilt(contexts[..|contexts| - 1]);
    }
  }

  ghost predicate OneOf(contexts: Contexts, i: int) {
    contexts == [] || (|contexts| == 1 && contexts[0].choiceIndex == i)
  }

  lemma {:induction false} OwnTurn(chain: seq<Interceptor>, depth: nat, p: Progress, ctx: InterceptionContext, usage: bool, i: int)
    requires p.choices != [] && Last(p.choices).index == i == ctx.choiceIndex && OneOf(p.contexts, i)
    ensures var r, d := HandleOne(chain, depth, p, ctx, false, usage), Last(p.choices).delta;
            && r.choices == Front(p.choices) + [Last(p.choices).(delta := Handle(chain, depth, ctx, d, false, usage).delta)]
            && r.replays == p.replays + OnePatch(ctx, Replayed(chain, depth, ctx, usage))
            && r.contexts == [Handle(chain, depth, ctx, EMPTY_DELTA, false, usage).saved] && OneOf(r.contexts, i)
  {
    hide Handle, OnePatch;
    var d := Last(p.choices).delta;
    PositionLast(p.choices, i);
    HandleApart(chain, depth, ctx, d, usage);
    HandleSavesOwn(chain, depth, ctx, d, false, usage);
  }

  /** Every context writes to the last entry; the last context is the one that is kept. */
  lemma {:induction false} OwnLoop(chain: seq<Interceptor>, depth: nat, pending: Contexts, start: Progress, usage: bool, i: int)
    requires start.choices != [] && Last(start.choices).index == i && AllOf(pending, i) && OneOf(start.contexts, i)
    ensures var r := HandleAll(chain, depth, pending, start, false, usage);
            && r.choices == Front(start.choices) + [Last(start.choices).(delta := LastDelta(chain, depth, pending, Last(start.choices).delta, usage))]
            && r.replays == start.replays + Replays(chain, depth, pending, usage)
            && OneOf(r.contexts, i)
            && r.contexts == if pending == [] then start.contexts
                             else [Handle(chain, depth, pending[|pending| - 1], EMPTY_DELTA, false, usage).saved]
  {
    hide Handle, OnePatch, HandleOne;
    if pending == [] {
      assert start.choices == Front(start.choices) + [Last(start.choices)];
      assert start.replays + [] == start.replays;
    } else {
      var front, ctx := pending[..|pending| - 1], pending[|pending| - 1];
      assert ctx in pending && forall c :: c in front ==> c in pending;
      OwnLoop(chain, depth, front, start, usage, i);
      var before := HandleAll(chain, depth, front, start, false, usage);
      OwnTurn(chain, depth, before, ctx, usage, i);
      assert Front(before.choices) == Front(start.choices);
      assert start.replays + (Replays(chain, depth, front, usage) + OnePatch(ctx, Replayed(chain, depth, ctx, usage)))
          == start.replays + Replays(chain, depth, front, usage) + OnePatch(ctx, Replayed(chain, depth, ctx, usage));
    }
  }

  lemma {:induction false} PositionLast(choices: seq<ChunkChoice>, i: int)
    requires choices != [] && Last(choices).index == i
    ensures Position(choices, i) == |choices| - 1
  {
  }

  // ---- what the reader rebuilds -----------------------------------------------------------------

  /** What the entries before the last show: their raw texts. */
  lemma {:induction false} RawShown(m: Message, own: seq<ChunkChoice>, i: int)
    requires forall c :: c in own ==> c.index == i && IsRaw(c.delta)
    ensures var r := ApplyChoices(m, InProgress, own, i);
            Read(r.displayContent) == Read(m.displayContent) + TextOf(own) && Read(r.content) == Read(m.content) + TextOf(own)
  {
    hide ApplyChoice, IsRaw, Fallback, Read;
    if own != [] {
      var front, last := own[..|own| - 1], own[|own| - 1];
      assert last in own && forall c :: c in front ==> c in own;
      RawShown(m, front, i);
      OneShown(ApplyChoices(m, InProgress, front, i), last);
      RawFallback(last.delta);
    }
  }

  lemma {:induction false} RawFallback(d: Delta)
    requires IsRaw(d)
    ensures Fallback(d.displayContent, d.content) == d.content
  {
  }

  lemma {:induction false} OneShown(m: Message, c: ChunkChoice)
    ensures var r := ApplyChoice(m, InProgress, c);
            && Read(r.displayContent) == Read(m.displayContent) + Read(Fallback(c.delta.displayContent, c.delta.content))
            && Read(r.content) == Read(m.content) + Read(c.delta.content)
  {
  }

  lemma {:induction false} LastDeltaShows(chain: seq<Interceptor>, depth: nat, pending: Contexts, d: Delta, usage: bool)
    requires IsRaw(d)
    ensures var r := LastDelta(chain, depth, pending, d, usage);
            r.content == d.content && r.displayContent == LastShown(chain, depth, pending, d.content, usage)
  {
    hide HoldChain, FlushChain, ReplayChain, Handle, Holds, Out;
    if pending != [] {
      LastDeltaShows(chain, depth, pending[..|pending| - 1], d, usage);
      DeltaTurn(chain, depth, pending[|pending| - 1], LastDelta(chain, depth, pending[..|pending| - 1], d, usage), usage);
    }
  }

  /** What one context writes to the display channel of the last entry. */
  lemma {:induction false} DeltaTurn(chain: seq<Interceptor>, depth: nat, ctx: InterceptionContext, d: Delta, usage: bool)
    ensures var r := Handle(chain, depth, ctx, d, false, usage).delta;
            && r.content == d.content
            && r.displayContent == if Holds(chain, depth, ctx, usage) then (if d.content.Some? then Some("") else d.displayContent)
                                   else if d.content != Out(chain, depth, ctx, usage) then Out(chain, depth, ctx, usage)
                                   else d.displayContent
  {
    hide HoldChain, FlushChain, ReplayChain;
  }

  lemma {:induction false} ReplaysShow(chain: seq<Interceptor>, depth: nat, pending: Contexts, usage: bool, m: Message, i: int)
    requires AllOf(pending, i)
    ensures var r, last := ApplyPatches(m, InProgressPartial, Replays(chain, depth, pending, usage), i), LastReplay(chain, depth, pending, usage);
            Read(r.displayContent) == (if last.Some? then last.value else Read(m.displayContent)) && r.content == m.content
  {
    hide Replayed, ApplyPatches;
    if pending == [] {
      NoPatches(m, i);
    } else {
      var front, ctx := pending[..|pending| - 1], pending[|pending| - 1];
      assert ctx in pending && forall c :: c in front ==> c in pending;
      ReplaysShow(chain, depth, front, usage, m, i);
      var replay := Replayed(chain, depth, ctx, usage);
      var before := Replays(chain, depth, front, usage);
      if replay.Some? {
        PatchesAppend(m, InProgressPartial, before, PatchOf(ctx, replay.value), i);
      } else {
        assert before + [] == before;
      }
    }
  }

  /** The entries as they are published: the last one with what the contexts wrote to it. */
  function Written(chain: seq<Interceptor>, depth: nat, pending: Contexts, own: seq<ChunkChoice>, usage: bool): seq<ChunkChoice>
    requires own != []
  {
    Front(own) + [Last(own).(delta := LastDelta(chain, depth, pending, Last(own).delta, usage))]
  }

  /** The display text after a chunk with the entries `own`, for every chain, whatever was
      held or received before. */
  function DisplayAfter(chain: seq<Interceptor>, depth: nat, v: View, chunk: Chunk, own: seq<ChunkChoice>): string
    requires own != []
  {
    var pending, raw := PendingOf(v.ctx, chunk, own), Last(own).delta.content;
    var replay := LastReplay(chain, depth, pending, chunk.hasUsage);
    if replay.Some? then replay.value
    else Read(v.message.displayContent) + TextOf(Front(own)) + Read(Fallback(LastShown(chain, depth, pending, raw, chunk.hasUsage), raw))
  }

  /** For every chain: the last replay overwrites the display; without one the entries show
      their raw texts, the last one what the last context that differs from it releases.
      The raw text grows by all of them. */
  lemma {:induction false} EntriesShow(chain: seq<Interceptor>, depth: nat, v: View, chunk: Chunk, own: seq<ChunkChoice>, i: int)
    requires Entries(own, i) && Owns(v, i)
    ensures var r := StepEntries(chain, depth, v, chunk, own, i);
            && Read(r.message.displayContent) == DisplayAfter(chain, depth, v, chunk, own)
            && Read(r.message.content) == Read(v.message.content) + TextOf(own)
  {
    hide HandleAll, KeepHeld, BuildContexts, ApplyPatches, ApplyChoices, LastDelta, LastShown, LastReplay, Replays, TextOf, IsRaw, PendingOf;
    var pending, usage, last := PendingOf(v.ctx, chunk, own), chunk.hasUsage, Last(own);
    assert last in own;
    PendingAreOwn(v.ctx, chunk, own, i);
    LoopOf(chain, depth, v.ctx, chunk, own, i);
    WrittenShow(chain, depth, v.message, pending, own, usage, i);
    var p := HandleOwn(chain, depth, v.ctx, chunk, own);
    ReplaysShow(chain, depth, pending, usage, ApplyChoices(v.message, InProgress, p.choices, i), i);
  }

  lemma {:induction false} LoopOf(chain: seq<Interceptor>, depth: nat, ctx: Option<InterceptionContext>, chunk: Chunk, own: seq<ChunkChoice>, i: int)
    requires Entries(own, i) && (ctx.Some? ==> ctx.value.choiceIndex == i)
    ensures var p, pending := HandleOwn(chain, depth, ctx, chunk, own), PendingOf(ctx, chunk, own);
            && p.choices == Written(chain, depth, pending, own, chunk.hasUsage)
            && p.replays == Replays(chain, depth, pending, chunk.hasUsage)
            && p.contexts == if pending == [] then OwnContext(ctx)
                             else [Handle(chain, depth, pending[|pending| - 1], EMPTY_DELTA, false, chunk.hasUsage).saved]
  {
    hide HandleAll, KeepHeld, BuildContexts, LastDelta, Replays, Handle;
    var pending := PendingOf(ctx, chunk, own);
    assert Last(own) in own;
    PendingAreOwn(ctx, chunk, own, i);
    OwnLoop(chain, depth, pending, Progress(OwnContext(ctx), own, [], []), chunk.hasUsage, i);
    assert [] + Replays(chain, depth, pending, chunk.hasUsage) == Replays(chain, depth, pending, chunk.hasUsage);
  }

  lemma {:induction false} WrittenShow(chain: seq<Interceptor>, depth: nat, m: Message, pending: Contexts, own: seq<ChunkChoice>, usage: bool, i: int)
    requires Entries(own, i)
    ensures var r, raw := ApplyChoices(m, InProgress, Written(chain, depth, pending, own, usage), i), Last(own).delta.content;
            && Read(r.displayContent)
               == Read(m.displayContent) + TextOf(Front(own)) + Read(Fallback(LastShown(chain, depth, pending, raw, usage), raw))
            && Read(r.content) == Read(m.content) + TextOf(own)
  {
    hide ApplyChoice, ApplyChoices, LastDelta, LastShown, Fallback, IsRaw;
    var last := Last(own);
    assert last in own && forall c :: c in Front(own) ==> c in own;
    LastDeltaShows(chain, depth, pending, last.delta, usage);
    var written := last.(delta := LastDelta(chain, depth, pending, last.delta, usage));
    RawShown(m, Front(own), i);
    ApplyAdded(m, Front(own), written, i);
    OneShown(ApplyChoices(m, InProgress, Front(own), i), written);
  }

  /** For every chain and every state: the entries are shown as if their texts had come in
      one entry, exactly if what the contexts of the chunk leave reads alike. */
  lemma {:induction false} ShownAsOne(chain: seq<Interceptor>, depth: nat, v: View, chunk: Chunk, own: seq<ChunkChoice>, one: ChunkChoice, i: int)
    requires Entries(own, i) && Entries([one], i) && Owns(v, i) && Read(one.delta.content) == TextOf(own)
    ensures var r, r' := StepEntries(chain, depth, v, chunk, own, i), StepChoice(chain, depth, v, chunk, one);
            && Read(r.message.content) == Read(r'.message.content)
            && (Read(r.message.displayContent) == Read(r'.message.displayContent) <==>
                  DisplayAfter(chain, depth, v, chunk, own) == DisplayAfter(chain, depth, v, chunk, [one]))
  {
    hide StepEntries, StepChoice, DisplayAfter, IsRaw;
    assert [one][0] == one;
    EntriesShow(chain, depth, v, chunk, own, i);
    EntriesShow(chain, depth, v, chunk, [one], i);
    OneEntry(chain, depth, v, chunk, one);
    OneText(one);
  }

  lemma {:induction false} ApplyAdded(m: Message, front: seq<ChunkChoice>, last: ChunkChoice, i: int)
    requires last.index == i
    ensures ApplyChoices(m, InProgress, front + [last], i) == ApplyChoice(ApplyChoices(m, InProgress, front, i), InProgress, last)
  {
    assert (front + [last])[..|front|] == front;
  }

  /** The publisher remembers only the last entry that has text, alone or behind what was
      held: its context after the chunk is the one that entry leaves on its own. */
  lemma {:induction false} OnlyLastRemembered(chain: seq<Interceptor>, depth: nat, v: View, chunk: Chunk, own: seq<ChunkChoice>, i: int)
    requires Entries(own, i) && Owns(v, i)
    ensures var r, pending := StepEntries(chain, depth, v, chunk, own, i), PendingOf(v.ctx, chunk, own);
            r.ctx == if pending == [] then v.ctx else Some(Handle(chain, depth, pending[|pending| - 1], EMPTY_DELTA, false, chunk.hasUsage).saved)
  {
    hide HandleAll, KeepHeld, BuildContexts, ApplyPatches, ApplyChoices, LastDelta, Replays, Handle;
    LoopOf(chain, depth, v.ctx, chunk, own, i);
    var pending := PendingOf(v.ctx, chunk, own);
    if pending != [] {
      PendingAreOwn(v.ctx, chunk, own, i);
      assert pending[|pending| - 1] in pending;
      HandleSavesOwn(chain, depth, pending[|pending| - 1], EMPTY_DELTA, false, chunk.hasUsage);
    }
  }

  // ---- chains that let everything through unchanged ---------------------------------------------

  /** The chain holds nothing back and rewrites nothing on release; it may still replay. */
  ghost predicate Transparent(chain: seq<Interceptor>, depth: nat) {
    forall ctx: InterceptionContext, usage: bool {:trigger FlushChain(chain, |chain|, depth, ctx, usage)} ::
      && !HoldChain(chain, depth, ctx)
      && FlushChain(chain, |chain|, depth, ctx, usage).display.value == ctx.heldDisplay
      && FlushChain(chain, |chain|, depth, ctx, usage).context.value == ctx.heldContext
  }

  predicate NothingHeld(ctx: Option<InterceptionContext>) {
    ctx.Some? ==> ctx.value.heldDisplay == EMPTY_CONTENT && ctx.value.heldContext == EMPTY_CONTENT
  }

  predicate HasText(c: ChunkChoice) {
    HasContent(ContentOf(c.delta))
  }

  /** The content of the last entry with text whose content is not `raw`. */
  function LastDifferent(own: seq<ChunkChoice>, raw: Option<string>): Option<string> {
    if own == [] then None
    else if HasText(Last(own)) && Last(own).delta.content != raw then Last(own).delta.content
    else LastDifferent(Front(own), raw)
  }

  /** With nothing held an entry waits exactly if it has text, and waits with that text. */
  lemma {:induction false} PendingAdded(ctx: Option<InterceptionContext>, chunk: Chunk, own: seq<ChunkChoice>, i: int)
    requires own != [] && Last(own).index == i && NothingHeld(ctx) && (ctx.Some? ==> ctx.value.choiceIndex == i)
    ensures var c, front := BuildContext(OwnContext(ctx), chunk, Last(own)), PendingOf(ctx, chunk, Front(own));
            && c.heldDisplay == ContentOf(Last(own).delta) && c.heldContext == ContentOf(Last(own).delta)
            && PendingOf(ctx, chunk, own) == if HasText(Last(own)) then front + [c] else front
  {
    var c := BuildContext(OwnContext(ctx), chunk, Last(own));
    assert OwnContext(ctx) == [] || Find(OwnContext(ctx), i) == Some(OwnContext(ctx)[0]);
    BuiltFront(OwnContext(ctx), chunk, own);
    KeptFront(BuildContexts(OwnContext(ctx), chunk, Front(own)), c);
  }

  lemma {:induction false} KeptFront(front: Contexts, c: InterceptionContext)
    ensures KeepHeld(front + [c]) == if HasHeld(c) then KeepHeld(front) + [c] else KeepHeld(front)
  {
    assert (front + [c])[..|front|] == front;
  }

  lemma {:induction false} NonePending(ctx: Option<InterceptionContext>, chunk: Chunk, own: seq<ChunkChoice>)
    requires own == []
    ensures PendingOf(ctx, chunk, own) == []
  {
    assert BuildContexts(OwnContext(ctx), chunk, own) == [];
  }

  lemma {:induction false} TransparentShows(chain: seq<Interceptor>, depth: nat, ctx: Option<InterceptionContext>, chunk: Chunk,
                                            own: seq<ChunkChoice>, raw: Option<string>, i: int)
    requires Transparent(chain, depth) && NothingHeld(ctx) && (ctx.Some? ==> ctx.value.choiceIndex == i)
    requires forall c :: c in own ==> c.index == i
    ensures LastShown(chain, depth, PendingOf(ctx, chunk, own), raw, chunk.hasUsage) == LastDifferent(own, raw)
  {
    hide PendingOf, BuildContext, HoldChain, FlushChain;
    if own == [] {
      NonePending(ctx, chunk, own);
    } else {
      assert Last(own) in own && forall c :: c in Front(own) ==> c in own;
      TransparentShows(chain, depth, ctx, chunk, Front(own), raw, i);
      PendingAdded(ctx, chunk, own, i);
      var front, c := PendingOf(ctx, chunk, Front(own)), BuildContext(OwnContext(ctx), chunk, Last(own));
      assert (front + [c])[..|front|] == front;
      var _ := FlushChain(chain, |chain|, depth, c, chunk.hasUsage);
    }
  }

  // ---- no interceptors ---------------------------------------------------------------------------

  /** What the entries of one choice in one chunk show, with no interceptor. */
  function ShownOf(own: seq<ChunkChoice>): string {
    if own == [] then ""
    else TextOf(Front(own)) + Read(Fallback(LastDifferent(Front(own), Last(own).delta.content), Last(own).delta.content))
  }

  function ShownText(s: seq<MessageEvent>, i: int): string {
    if s == [] then "" else ShownText(s[..|s| - 1], i) + ShownOf(Own(ChoicesOf(s[|s| - 1]), i))
  }

  /** The entries are shown right exactly if the last text among the earlier ones that is not
      the last entry's own reads like it. */
  lemma {:induction false} ShownRight(own: seq<ChunkChoice>)
    ensures own != [] ==>
              var raw := Last(own).delta.content;
              ShownOf(own) == TextOf(own) <==> Read(Fallback(LastDifferent(Front(own), raw), raw)) == Read(raw)
  {
    if own != [] {
      var raw := Last(own).delta.content;
      var shown := Fallback(LastDifferent(Front(own), raw), raw);
      var n := |TextOf(Front(own))|;
      assert (TextOf(Front(own)) + Read(shown))[n..] == Read(shown) && (TextOf(Front(own)) + Read(raw))[n..] == Read(raw);
    }
  }

  lemma {:induction false} EmptyChain(depth: nat)
    ensures Transparent([], depth)
  {
  }

  lemma {:induction false} NoReplay(depth: nat, pending: Contexts, usage: bool)
    ensures LastReplay([], depth, pending, usage).None?
  {
    if pending != [] {
      NoReplay(depth, pending[..|pending| - 1], usage);
    }
  }

  /** A transparent chain holds nothing back, so nothing is ever held. */
  lemma {:induction false} StaysUnheld(chain: seq<Interceptor>, depth: nat, v: View, chunk: Chunk, own: seq<ChunkChoice>, i: int)
    requires Transparent(chain, depth) && Entries(own, i) && Owns(v, i) && NothingHeld(v.ctx)
    ensures NothingHeld(StepEntries(chain, depth, v, chunk, own, i).ctx) && Owns(StepEntries(chain, depth, v, chunk, own, i), i)
  {
    hide StepEntries, Transparent, Handle, IsRaw, PendingOf;
    OnlyLastRemembered(chain, depth, v, chunk, own, i);
    var pending := PendingOf(v.ctx, chunk, own);
    if pending != [] {
      var last := pending[|pending| - 1];
      PendingAreOwn(v.ctx, chunk, own, i);
      assert last in pending;
      HandleSavesOwn(chain, depth, last, EMPTY_DELTA, false, chunk.hasUsage);
      ReleasedUnheld(chain, depth, last, chunk.hasUsage);
    }
  }

  lemma {:induction false} ReleasedUnheld(chain: seq<Interceptor>, depth: nat, ctx: InterceptionContext, usage: bool)
    requires Transparent(chain, depth)
    ensures var saved := Handle(chain, depth, ctx, EMPTY_DELTA, false, usage).saved;
            saved.heldDisplay == EMPTY_CONTENT && saved.heldContext == EMPTY_CONTENT
  {
    hide HoldChain, FlushChain, ReplayChain, ReleaseDelta, ClearChannels;
    var _ := FlushChain(chain, |chain|, depth, ctx, usage);
  }

  /** The step of one choice with no interceptor. */
  lemma {:induction false} PlainStep(depth: nat, v: View, e: MessageEvent, i: int)
    requires ProviderEvent(e) && Owns(v, i) && NothingHeld(v.ctx)
    ensures var r := StepView([], depth, v, e, i);
            Owns(r, i) && NothingHeld(r.ctx) && Read(r.message.displayContent) == Read(v.message.displayContent) + ShownOf(Own(ChoicesOf(e), i))
  {
    hide StepEntries, HasHeld, LastShown, LastReplay, TextOf, LastDifferent, Fallback, PendingOf, Transparent, IsRaw;
    var own := Own(ChoicesOf(e), i);
    assert forall c :: c in own ==> c in ChoicesOf(e);
    if e.phase.InProgress? && own != [] {
      var chunk, raw := e.chunk.value, Last(own).delta.content;
      EmptyChain(depth);
      EntriesShow([], depth, v, chunk, own, i);
      NoReplay(depth, PendingOf(v.ctx, chunk, own), chunk.hasUsage);
      TransparentShows([], depth, v.ctx, chunk, own, raw, i);
      OwnNotDifferent(own);
      StaysUnheld([], depth, v, chunk, own, i);
    } else if e.phase.End? {
      UnheldIsEmpty(v.ctx);
    }
  }

  lemma {:induction false} OwnNotDifferent(own: seq<ChunkChoice>)
    requires own != []
    ensures LastDifferent(own, Last(own).delta.content) == LastDifferent(Front(own), Last(own).delta.content)
  {
  }

  lemma {:induction false} UnheldIsEmpty(ctx: Option<InterceptionContext>)
    requires NothingHeld(ctx)
    ensures ctx.Some? ==> !HasHeld(ctx.value)
  {
  }

  lemma {:induction false} UnheldAtStart()
    ensures NothingHeld(None)
  {
  }

  lemma {:induction false} PlainRun(depth: nat, s: seq<MessageEvent>, eventId: string, i: int)
    requires FromProvider(s) && forall e :: e in s ==> e.eventId == eventId
    ensures var v := RunView([], depth, s, eventId, i);
            Owns(v, i) && NothingHeld(v.ctx) && Read(v.message.displayContent) == ShownText(s, i)
  {
    hide StepView, ProviderEvent, NothingHeld, ShownOf, Own;
    if s == [] {
      UnheldAtStart();
    } else {
      var front, last := s[..|s| - 1], s[|s| - 1];
      assert last in s && forall e :: e in front ==> e in s;
      PlainRun(depth, front, eventId, i);
      PlainStep(depth, RunView([], depth, front, eventId, i), last, i);
    }
  }

  /** With no interceptor, for every run and every shape of chunks: what a reader rebuilds of
      a choice is what its chunks show, one after the other. */
  lemma {:induction false} PlainDisplay(depths: string -> nat, events: seq<MessageEvent>, eventId: string, i: int)
    requires FromProvider(events)
    ensures Read(Fold(PublishAll([], depths, events).channel, eventId, i).displayContent) == ShownText(OfStream(events, eventId), i)
  {
    hide PublishAll, RunView, ProviderEvent, Own, ShownOf;
    OfStreamAll(events, eventId);
    ViewsAreIndependent([], depths, events, eventId, i);
    PlainRun(depths(eventId), OfStream(events, eventId), eventId, i);
  }

  /** That is the raw text at every moment exactly if every chunk shows its own texts. */
  lemma {:induction false} ShownIsRaw(s: seq<MessageEvent>, i: int)
    ensures (forall n :: 0 <= n <= |s| ==> ShownText(s[..n], i) == RawText(s[..n], i)) <==>
            (forall k :: 0 <= k < |s| ==> ShownOf(Own(ChoicesOf(s[k]), i)) == TextIn(s[k], i))
  {
    hide ShownOf, TextIn, Own;
    if forall n :: 0 <= n <= |s| ==> ShownText(s[..n], i) == RawText(s[..n], i) {
      forall k | 0 <= k < |s| ensures ShownOf(Own(ChoicesOf(s[k]), i)) == TextIn(s[k], i) {
        assert s[..k + 1][..k] == s[..k];
        var before := ShownText(s[..k], i);
        assert ShownText(s[..k + 1], i) == before + ShownOf(Own(ChoicesOf(s[k]), i)) && RawText(s[..k + 1], i) == before + TextIn(s[k], i);
        assert (before + TextIn(s[k], i))[|before|..] == TextIn(s[k], i);
      }
    }
    if forall k :: 0 <= k < |s| ==> ShownOf(Own(ChoicesOf(s[k]), i)) == TextIn(s[k], i) {
      forall n | 0 <= n <= |s| ensures ShownText(s[..n], i) == RawText(s[..n], i) {
        AllShown(s[..n], i);
      }
    }
  }

  lemma {:induction false} AllShown(s: seq<MessageEvent>, i: int)
    requires forall k :: 0 <= k < |s| ==> ShownOf(Own(ChoicesOf(s[k]), i)) == TextIn(s[k], i)
    ensures ShownText(s, i) == RawText(s, i)
  {
    hide ShownOf, TextIn, Own;
    if s != [] {
      var front := s[..|s| - 1];
      assert forall k :: 0 <= k < |front| ==> front[k] == s[k];
      AllShown(front, i);
    }
  }
}
