/** The default interceptor and chunks that name a choice more than once: only the last of
    its entries is remembered, so what the others said is shown once and then forgotten. */
module StreamRemembers {
  import opened Common
  import opened Messages
  import opened Interceptors
  import opened MessageFold
  import opened MessagePublishing
  import opened StreamViews
  import opened StreamTheorems
  import opened StreamRepeats

  // ---- texts -----------------------------------------------------------------------------------

  function Ninged(s: string): string {
    Text.Replace(s, [NIN], NING)
  }

  function Said(own: seq<ChunkChoice>, k: nat): string
    requires k < |own|
  {
    Read(own[k].delta.content)
  }

  /** All entries but `j` are without content. */
  predicate Alone(own: seq<ChunkChoice>, j: int) {
    forall k | 0 <= k < |own| :: k != j ==> Said(own, k) == ""
  }

  lemma {:induction false} NinIn(s: string)
    ensures Text.Contains(s, [NIN]) <==> NIN in s
  {
    if NIN in s {
      var k :| 0 <= k < |s| && s[k] == NIN;
      assert s[k..k + 1] == [NIN];
      assert Text.OccursAt([NIN], s, k);
    } else {
      Text.CharAbsent(s, NIN);
    }
  }

  lemma {:induction false} NingedConcat(a: string, b: string)
    ensures Ninged(a + b) == Ninged(a) + Ninged(b)
  {
    Text.ReplaceConcat(a, b, [NIN], NING);
  }

  lemma {:induction false} NingedIs(s: string)
    ensures NIN !in s ==> Ninged(s) == s
    ensures NIN !in Ninged(s) && |Ninged(s)| >= |s|
  {
    NinIn(s);
    if NIN !in s {
      Text.ReplaceAbsent(s, [NIN], NING);
    }
    assert NIN !in NING;
    Text.ReplaceCharGone(s, NIN, NING);
    NingedLonger(s);
  }

  lemma {:induction false} NingedLonger(s: string)
    ensures |Ninged(s)| >= |s|
  {
    if s != "" {
      assert s == [s[0]] + s[1..];
      NingedLonger(s[1..]);
    }
  }

  /** The texts of a chunk, rewritten, are one of them, rewritten, exactly if the others
      are empty. */
  lemma {:induction false} AloneIff(own: seq<ChunkChoice>, j: nat)
    requires j < |own|
    ensures |Ninged(TextOf(own))| >= |Ninged(Said(own, j))|
    ensures Ninged(TextOf(own)) == Ninged(Said(own, j)) <==> Alone(own, j)
    ensures |Ninged(TextOf(own))| == |Ninged(Said(own, j))| ==> Alone(own, j)
  {
    hide Ninged;
    var front, last := Front(own), Read(Last(own).delta.content);
    NingedConcat(TextOf(front), last);
    NingedIs(last);
    NingedIs(TextOf(front));
    NingedOfNothing();
    if j == |own| - 1 {
      AllEmpty(front);
      if Alone(own, j) {
        assert forall k :: 0 <= k < |front| ==> Said(front, k) == Said(own, k);
        assert TextOf(own) == "" + last == last;
      } else if TextOf(front) == "" {
        assert forall k :: 0 <= k < |front| ==> Said(own, k) == Said(front, k);
      }
    } else {
      AloneIff(front, j);
      assert forall k :: 0 <= k < |front| ==> Said(own, k) == Said(front, k);
      AloneFront(own, j);
      assert Ninged(TextOf(own)) == Ninged(TextOf(front)) + Ninged(last);
      if last == "" {
        assert Ninged(TextOf(front)) + "" == Ninged(TextOf(front));
      }
    }
  }

  lemma {:induction false} AloneFront(own: seq<ChunkChoice>, j: nat)
    requires j + 1 < |own|
    ensures Alone(own, j) <==> Alone(Front(own), j) && Said(own, |own| - 1) == ""
  {
    assert forall k :: 0 <= k < |own| - 1 ==> Said(own, k) == Said(Front(own), k);
  }

  lemma {:induction false} NingedOfNothing()
    ensures Ninged("") == ""
  {
  }

  lemma {:induction false} AllEmpty(own: seq<ChunkChoice>)
    ensures TextOf(own) == "" <==> forall k :: 0 <= k < |own| ==> Said(own, k) == ""
  {
    if own != [] {
      var front := Front(own);
      AllEmpty(front);
      assert forall k :: 0 <= k < |front| ==> Said(own, k) == Said(front, k);
      assert TextOf(own) == TextOf(front) + Said(own, |own| - 1);
    }
  }

  /** The last entry with text, -1 if there is none. */
  function LastWithText(own: seq<ChunkChoice>): (j: int)
    ensures -1 <= j < |own|
    ensures j >= 0 ==> HasText(own[j])
    ensures forall k :: j < k < |own| ==> !HasText(own[k])
  {
    if own == [] then -1 else if HasText(Last(own)) then |own| - 1 else LastWithText(Front(own))
  }

  /** The last entry that holds the character to rewrite, -1 if there is none. */
  function LastWithNin(own: seq<ChunkChoice>): (j: int)
    ensures -1 <= j < |own|
    ensures j >= 0 ==> NIN in Said(own, j)
    ensures forall k :: j < k < |own| ==> NIN !in Said(own, k)
  {
    if own == [] then -1
    else if NIN in Said(own, |own| - 1) then |own| - 1
    else
      assert forall k :: 0 <= k < |own| - 1 ==> Said(own, k) == Said(Front(own), k);
      LastWithNin(Front(own))
  }

  // ---- the agent at the root: one context -----------------------------------------------------

  lemma {:induction false} RootTransparent(depth: nat)
    requires !IsSubagent(depth)
    ensures Transparent(DEFAULT_CHAIN, depth)
  {
    forall ctx: InterceptionContext, usage: bool
      ensures !HoldChain(DEFAULT_CHAIN, depth, ctx)
      ensures var m := FlushChain(DEFAULT_CHAIN, 1, depth, ctx, usage); m.display.value == ctx.heldDisplay && m.context.value == ctx.heldContext
    {
      DefaultHolds(depth, ctx);
      RootFlush(depth, ctx, usage);
    }
  }

  lemma {:induction false} RootFlush(depth: nat, ctx: InterceptionContext, usage: bool)
    requires !IsSubagent(depth)
    ensures var m := FlushChain(DEFAULT_CHAIN, 1, depth, ctx, usage); m.display.value == ctx.heldDisplay && m.context.value == ctx.heldContext
  {
    assert FlushChain(DEFAULT_CHAIN, 0, depth, ctx, usage) == MessageModified(Some(ctx.heldDisplay), Some(ctx.heldContext), map[]);
    assert ctx.(heldDisplay := ctx.heldDisplay, heldContext := ctx.heldContext) == ctx;
  }

  /** A released text joins what was received; only a text to rewrite asks for a replay,
      and the replay shows what was received before this chunk, followed by that text. */
  lemma {:induction false} RootHandled(depth: nat, ctx: InterceptionContext, usage: bool)
    requires !IsSubagent(depth) && NIN !in Read(ctx.receivedDisplay.content)
    ensures var h := Handle(DEFAULT_CHAIN, depth, ctx, EMPTY_DELTA, false, usage);
            var text, shown := Read(ctx.heldDisplay.content), Read(ctx.receivedDisplay.content) + Ninged(Read(ctx.heldDisplay.content));
            && Read(h.saved.receivedDisplay.content) == shown
            && (h.replay.Some? <==> NIN in text)
            && (h.replay.Some? ==> h.replay.value.display.Some? && h.replay.value.display.value.content == Some(shown))
  {
    hide FlushChain, ReplayChain, HoldChain, Text.Contains, Text.Replace;
    var text, received := Read(ctx.heldDisplay.content), Read(ctx.receivedDisplay.content);
    RootTransparent(depth);
    var m := FlushChain(DEFAULT_CHAIN, 1, depth, ctx, usage);
    var released := Released(ctx, m);
    AppendReads(ctx.receivedDisplay.content, m.display.value.content);
    assert Read(released.receivedDisplay.content) == received + text;
    RootReplay(depth, released.receivedDisplay, released.receivedContext, usage);
    NinIn(received + text);
    NingedConcat(received, text);
    NingedIs(received);
    NingedIs(text);
  }

  lemma {:induction false} RootReplay(depth: nat, display: MessageContent, context: MessageContent, usage: bool)
    ensures var r := ReplayChain(DEFAULT_CHAIN, 1, depth, display, context, usage);
            && (r.Some? <==> Text.Contains(Read(display.content), [NIN]))
            && (r.Some? ==> r.value.display.value.content == Some(Ninged(Read(display.content))) && r.value.context.value == context)
  {
    assert ReplayChain(DEFAULT_CHAIN, 0, depth, display, context, usage) == None;
  }

  // ---- the agent at the root: one chunk -----------------------------------------------------------

  /** Nothing is held, and what was received has been rewritten. */
  predicate RootView(v: View, i: int) {
    Owns(v, i) && NothingHeld(v.ctx) && NIN !in Read(ReceivedDisplay(v).content)
  }

  lemma {:induction false} RootReplays(depth: nat, v: View, chunk: Chunk, own: seq<ChunkChoice>, i: int)
    requires !IsSubagent(depth) && RootView(v, i) && forall c :: c in own ==> c.index == i
    ensures var j, replay := LastWithNin(own), LastReplay(DEFAULT_CHAIN, depth, PendingOf(v.ctx, chunk, own), chunk.hasUsage);
            replay == if j < 0 then None else Some(Read(ReceivedDisplay(v).content) + Ninged(Said(own, j)))
  {
    hide PendingOf, BuildContext, Handle, Ninged;
    if own == [] {
      NonePending(v.ctx, chunk, own);
    } else {
      assert Last(own) in own && forall c :: c in Front(own) ==> c in own;
      RootReplays(depth, v, chunk, Front(own), i);
      PendingAdded(v.ctx, chunk, own, i);
      BuiltReceives(v, chunk, Last(own));
      var front, c := PendingOf(v.ctx, chunk, Front(own)), BuildContext(OwnContext(v.ctx), chunk, Last(own));
      assert (front + [c])[..|front|] == front;
      RootHandled(depth, c, chunk.hasUsage);
    }
  }

  lemma {:induction false} BuiltReceives(v: View, chunk: Chunk, c: ChunkChoice)
    requires Owns(v, c.index)
    ensures BuildContext(OwnContext(v.ctx), chunk, c).receivedDisplay == ReceivedDisplay(v)
    ensures BuildContext(OwnContext(v.ctx), chunk, c).receivedContext == ReceivedContext(v)
  {
    assert OwnContext(v.ctx) == [] || Find(OwnContext(v.ctx), c.index) == Some(OwnContext(v.ctx)[0]);
  }

  /** What a chunk shows at the root: the text received before it and its last entry with
      text to rewrite, if there is one; its texts as with no interceptor, if not. */
  lemma {:induction false} RootShows(depth: nat, v: View, chunk: Chunk, own: seq<ChunkChoice>, i: int)
    requires !IsSubagent(depth) && RootView(v, i) && Entries(own, i)
    ensures var j, shown := LastWithNin(own), Read(StepEntries(DEFAULT_CHAIN, depth, v, chunk, own, i).message.displayContent);
            shown == if j >= 0 then Read(ReceivedDisplay(v).content) + Ninged(Said(own, j)) else Read(v.message.displayContent) + ShownOf(own)
  {
    hide StepEntries, LastShown, LastReplay, TextOf, LastDifferent, Fallback, PendingOf, Transparent, IsRaw, Ninged, NothingHeld;
    EntriesShow(DEFAULT_CHAIN, depth, v, chunk, own, i);
    RootReplays(depth, v, chunk, own, i);
    RootTransparent(depth);
    TransparentShows(DEFAULT_CHAIN, depth, v.ctx, chunk, own, Last(own).delta.content, i);
    OwnNotDifferent(own);
  }

  /** From a view whose snapshot is what the reader has: a chunk is shown as its texts,
      rewritten, exactly if all its text stands in the last entry with text to rewrite, or,
      with nothing to rewrite, the entries show their own texts. */
  lemma {:induction false} RootShowsRight(depth: nat, v: View, chunk: Chunk, own: seq<ChunkChoice>, i: int)
    requires !IsSubagent(depth) && RootView(v, i) && Entries(own, i)
    requires Read(v.message.displayContent) == Read(ReceivedDisplay(v).content)
    ensures var r, j := StepEntries(DEFAULT_CHAIN, depth, v, chunk, own, i), LastWithNin(own);
            Read(r.message.displayContent) == Read(v.message.displayContent) + Ninged(TextOf(own)) <==>
            if j >= 0 then Alone(own, j) else ShownOf(own) == TextOf(own)
  {
    hide StepEntries, Ninged, RootView, Entries, ShownOf, TextOf;
    RootShows(depth, v, chunk, own, i);
    var shown, j := Read(v.message.displayContent), LastWithNin(own);
    if j >= 0 {
      AloneIff(own, j);
      assert (shown + Ninged(TextOf(own)))[|shown|..] == Ninged(TextOf(own)) && (shown + Ninged(Said(own, j)))[|shown|..] == Ninged(Said(own, j));
    } else {
      NothingToRewrite(own);
      NingedIs(TextOf(own));
      assert (shown + TextOf(own))[|shown|..] == TextOf(own) && (shown + ShownOf(own))[|shown|..] == ShownOf(own);
    }
  }

  lemma {:induction false} NothingToRewrite(own: seq<ChunkChoice>)
    requires forall k :: 0 <= k < |own| ==> NIN !in Said(own, k)
    ensures NIN !in TextOf(own)
  {
    if own != [] {
      assert forall k :: 0 <= k < |own| - 1 ==> Said(Front(own), k) == Said(own, k);
      NothingToRewrite(Front(own));
      assert NIN !in Said(own, |own| - 1);
    }
  }

  // ---- a concrete chunk -----------------------------------------------------------------------------

  function TextEntry(text: string): ChunkChoice {
    ChunkChoice(0, EMPTY_DELTA.(content := Some(text)), None)
  }

  function TwiceNamed(a: string, b: string): MessageEvent {
    MessageEvent("e", InProgress, Some(Chunk("c", [TextEntry(a), TextEntry(b)], 0, "m", false)), None)
  }

  lemma {:induction false} TwiceNamedEntries(a: string, b: string)
    ensures var e := TwiceNamed(a, b); var own := ChoicesOf(e);
            && ProviderEvent(e) && Own(own, 0) == own && own == [TextEntry(a), TextEntry(b)] && Entries(own, 0) && TextOf(own) == a + b
            && Front(own) == [TextEntry(a)] && TextOf(Front(own)) == a && Front(Front(own)) == []
  {
    var own := ChoicesOf(TwiceNamed(a, b));
    OwnOwn(own, 0);
    OneText(TextEntry(a));
    assert own[..1] == [TextEntry(a)];
  }

  lemma {:induction false} OneNin()
    ensures Ninged([NIN]) == NING
  {
    var s := [NIN];
    assert [NIN] <= s && s[1..] == "";
    assert Text.Replace(s[1..], [NIN], NING) == "";
    assert NING + "" == NING;
  }

  lemma {:induction false} LastOfTwo(a: string, b: string)
    requires NIN in b
    ensures var own := ChoicesOf(TwiceNamed(a, b)); Said(own, 1) == b && LastWithNin(own) == 1
  {
  }

  /** Of two different texts for one choice in a chunk the first is shown twice. */
  lemma {:induction false} TwiceNamedGarbles(a: string, b: string)
    requires a != b
    ensures Read(Fold(PublishOne([], 1, Bus(map[], []), TwiceNamed(a, b)).channel, "e", 0).displayContent) == a + a
  {
    hide PublishOne, Own, StepEntries, ProviderEvent;
    TwiceNamedEntries(a, b);
    PublishOneView([], 1, Bus(map[], []), TwiceNamed(a, b), "e", 0);
    PlainStep(1, View(None, FRESH_MESSAGE), TwiceNamed(a, b), 0);
    assert ViewOf(Bus(map[], []), "e", 0) == View(None, FRESH_MESSAGE);
    assert LastDifferent([TextEntry(a)], Some(b)) == Some(a);
  }

  /** With the default interceptor even equal texts can be lost: of the character to
      rewrite, sent twice, one rewrite is left. */
  lemma {:induction false} TwiceNinIsOnce()
    ensures Read(Fold(PublishOne(DEFAULT_CHAIN, 1, Bus(map[], []), TwiceNamed([NIN], [NIN])).channel, "e", 0).displayContent) == NING
    ensures Ninged([NIN] + [NIN]) == NING + NING
  {
    hide PublishOne, Own, StepEntries, ProviderEvent, LastWithNin;
    var e, v := TwiceNamed([NIN], [NIN]), View(None, FRESH_MESSAGE);
    var own := ChoicesOf(e);
    TwiceNamedEntries([NIN], [NIN]);
    PublishOneView(DEFAULT_CHAIN, 1, Bus(map[], []), e, "e", 0);
    assert ViewOf(Bus(map[], []), "e", 0) == v;
    RootShows(1, v, e.chunk.value, own, 0);
    LastOfTwo([NIN], [NIN]);
    OneNin();
    NingedConcat([NIN], [NIN]);
  }

  // ---- what is remembered, at any depth --------------------------------------------------------------

  /** The entry that is remembered: the last one if text was held before the chunk, else the
      last one with text; -1 if there is none. */
  function Told(ctx: Option<InterceptionContext>, own: seq<ChunkChoice>): (j: int)
    ensures -1 <= j < |own|
  {
    if ctx.Some? && HasHeld(ctx.value) then |own| - 1 else LastWithText(own)
  }

  /** Received context text and held text together. */
  function Kept(v: View): string {
    Read(ReceivedContext(v).content) + Held(v)
  }

  lemma {:induction false} LastPending(ctx: Option<InterceptionContext>, chunk: Chunk, own: seq<ChunkChoice>, i: int)
    requires (forall c :: c in own ==> c.index == i) && (ctx.Some? ==> ctx.value.choiceIndex == i)
    ensures var pending, j := PendingOf(ctx, chunk, own), Told(ctx, own);
            && (pending == [] <==> j < 0)
            && (j >= 0 ==> pending[|pending| - 1] == BuildContext(OwnContext(ctx), chunk, own[j]))
  {
    hide BuildContext, BuildContexts, HasHeld, HasText, KeepHeld, OwnContext, PendingOf;
    if own == [] {
      NonePending(ctx, chunk, own);
    } else {
      assert Last(own) in own && forall c :: c in Front(own) ==> c in own;
      LastPending(ctx, chunk, Front(own), i);
      PendingNext(ctx, chunk, own);
      BuiltHolds(ctx, chunk, Last(own));
    }
  }

  lemma {:induction false} PendingNext(ctx: Option<InterceptionContext>, chunk: Chunk, own: seq<ChunkChoice>)
    requires own != []
    ensures var c, front := BuildContext(OwnContext(ctx), chunk, Last(own)), PendingOf(ctx, chunk, Front(own));
            PendingOf(ctx, chunk, own) == if HasHeld(c) then front + [c] else front
  {
    hide BuildContext, HasHeld, KeepHeld;
    BuiltFront(OwnContext(ctx), chunk, own);
    KeptFront(BuildContexts(OwnContext(ctx), chunk, Front(own)), BuildContext(OwnContext(ctx), chunk, Last(own)));
  }

  lemma {:induction false} BuiltHolds(ctx: Option<InterceptionContext>, chunk: Chunk, c: ChunkChoice)
    requires ctx.Some? ==> ctx.value.choiceIndex == c.index
    ensures HasHeld(BuildContext(OwnContext(ctx), chunk, c)) <==> (ctx.Some? && HasHeld(ctx.value)) || HasText(c)
  {
    assert OwnContext(ctx) == [] || Find(OwnContext(ctx), c.index) == Some(OwnContext(ctx)[0]);
  }

  /** Handling a context keeps context and held text together. */
  lemma {:induction false} HandledKeeps(depth: nat, ctx: InterceptionContext, usage: bool)
    requires ctx.heldDisplay == ctx.heldContext
    ensures var saved := Handle(DEFAULT_CHAIN, depth, ctx, EMPTY_DELTA, false, usage).saved;
            && saved.heldDisplay == saved.heldContext
            && Kept(View(Some(saved), FRESH_MESSAGE)) == Read(ctx.receivedContext.content) + Read(ctx.heldDisplay.content)
  {
    hide FlushChain, ReplayChain, HoldChain, Text.Contains, Text.Replace;
    DefaultFlushed(depth, ctx, usage);
    var m := FlushChain(DEFAULT_CHAIN, 1, depth, ctx, usage);
    var released := Released(ctx, m);
    AppendReads(ctx.receivedContext.content, m.context.value.content);
    RootReplay(depth, released.receivedDisplay, released.receivedContext, usage);
  }

  /** A chunk adds the text of the remembered entry to what is kept, and no other. */
  lemma {:induction false} ChunkKeeps(depth: nat, v: View, chunk: Chunk, own: seq<ChunkChoice>, i: int)
    requires Owns(v, i) && HeldAlike(v) && Entries(own, i)
    ensures var r, j := StepEntries(DEFAULT_CHAIN, depth, v, chunk, own, i), Told(v.ctx, own);
            Owns(r, i) && HeldAlike(r) && Kept(r) == Kept(v) + if j < 0 then "" else Said(own, j)
  {
    hide StepEntries, Handle, BuildContext, PendingOf, HasHeld, IsRaw, Told, Said, Held, OwnContext, AppendText;
    OnlyLastRemembered(DEFAULT_CHAIN, depth, v, chunk, own, i);
    LastPending(v.ctx, chunk, own, i);
    var j := Told(v.ctx, own);
    if j >= 0 {
      assert own[j] in own;
      var ctx := BuildContext(OwnContext(v.ctx), chunk, own[j]);
      BuiltHeld(v, chunk, own[j]);
      HandledKeeps(depth, ctx, chunk.hasUsage);
      HandleSavesOwn(DEFAULT_CHAIN, depth, ctx, EMPTY_DELTA, false, chunk.hasUsage);
      KeptAlike(StepEntries(DEFAULT_CHAIN, depth, v, chunk, own, i),
                View(Some(Handle(DEFAULT_CHAIN, depth, ctx, EMPTY_DELTA, false, chunk.hasUsage).saved), FRESH_MESSAGE));
      SaidIs(own, j);
    } else {
      KeptAlike(StepEntries(DEFAULT_CHAIN, depth, v, chunk, own, i), v);
      assert Kept(v) + "" == Kept(v);
    }
  }

  lemma {:induction false} KeptAlike(v: View, v': View)
    requires v.ctx == v'.ctx
    ensures Kept(v) == Kept(v')
  {
  }

  lemma {:induction false} SaidIs(own: seq<ChunkChoice>, j: nat)
    requires j < |own|
    ensures Said(own, j) == Read(own[j].delta.content)
  {
  }

  /** Nothing but the remembered entry has content. */
  predicate Calm(ctx: Option<InterceptionContext>, own: seq<ChunkChoice>) {
    Alone(own, Told(ctx, own))
  }

  lemma {:induction false} CalmIff(ctx: Option<InterceptionContext>, own: seq<ChunkChoice>)
    ensures var j := Told(ctx, own); var said := if j < 0 then "" else Said(own, j);
            && |said| <= |TextOf(own)| && (|said| == |TextOf(own)| ==> Calm(ctx, own)) && (Calm(ctx, own) ==> said == TextOf(own))
  {
    var j := Told(ctx, own);
    if j < 0 {
      AllEmpty(own);
    } else {
      OneOfTexts(own, j);
    }
  }

  lemma {:induction false} OneOfTexts(own: seq<ChunkChoice>, j: nat)
    requires j < |own|
    ensures |Said(own, j)| <= |TextOf(own)| && (|Said(own, j)| == |TextOf(own)| ==> Alone(own, j)) && (Alone(own, j) ==> Said(own, j) == TextOf(own))
  {
    var front := Front(own);
    assert TextOf(own) == TextOf(front) + Said(own, |own| - 1);
    AllEmpty(front);
    assert forall k :: 0 <= k < |front| ==> Said(own, k) == Said(front, k);
    if j < |own| - 1 {
      OneOfTexts(front, j);
      AloneFront(own, j);
    }
  }

  /** Every chunk so far said all it had to say of the choice in the entry that is remembered. */
  ghost predicate CalmRun(depth: nat, s: seq<MessageEvent>, eventId: string, i: int) {
    forall k :: 0 <= k < |s| ==> Calm(RunView(DEFAULT_CHAIN, depth, s[..k], eventId, i).ctx, Own(ChoicesOf(s[k]), i))
  }

  lemma {:induction false} CalmFront(depth: nat, s: seq<MessageEvent>, eventId: string, i: int)
    requires s != []
    ensures var front, last := s[..|s| - 1], s[|s| - 1];
            CalmRun(depth, s, eventId, i) <==>
              CalmRun(depth, front, eventId, i) && Calm(RunView(DEFAULT_CHAIN, depth, front, eventId, i).ctx, Own(ChoicesOf(last), i))
  {
    hide RunView, Calm;
    var front := s[..|s| - 1];
    forall k | 0 <= k < |front| ensures s[..k] == front[..k] && s[k] == front[k] {
    }
    if CalmRun(depth, s, eventId, i) {
      assert s[|s| - 1] == s[|front|] && s[..|front|] == front;
    }
  }

  lemma {:induction false} KeptRun(depth: nat, s: seq<MessageEvent>, eventId: string, i: int)
    requires FromProvider(s) && Open(s) && forall e :: e in s ==> e.eventId == eventId
    ensures var v := RunView(DEFAULT_CHAIN, depth, s, eventId, i);
            && Owns(v, i) && HeldAlike(v) && |Kept(v)| <= |RawText(s, i)|
            && (|Kept(v)| == |RawText(s, i)| ==> CalmRun(depth, s, eventId, i))
            && (CalmRun(depth, s, eventId, i) ==> Kept(v) == RawText(s, i))
  {
    hide StepEntries, CalmRun, Calm, Kept, HeldAlike, ProviderEvent, Own, TextOf, Told;
    if s == [] {
      NothingKept(depth, eventId, i);
    } else {
      var front, last := s[..|s| - 1], s[|s| - 1];
      assert last in s && forall e :: e in front ==> e in s;
      KeptRun(depth, front, eventId, i);
      var v, own := RunView(DEFAULT_CHAIN, depth, front, eventId, i), Own(ChoicesOf(last), i);
      CalmFront(depth, s, eventId, i);
      CalmIff(v.ctx, own);
      EntriesOf(last, i);
      if own != [] {
        ChunkKeeps(depth, v, last.chunk.value, own, i);
      }
    }
  }

  lemma {:induction false} EntriesOf(e: MessageEvent, i: int)
    requires ProviderEvent(e)
    ensures var own := Own(ChoicesOf(e), i);
            (own != [] ==> e.phase.InProgress? && Entries(own, i)) && (own == [] ==> TextOf(own) == "" && forall ctx :: Told(ctx, own) == -1)
  {
  }

  lemma {:induction false} NothingKept(depth: nat, eventId: string, i: int)
    ensures var v := View(None, FRESH_MESSAGE); Kept(v) == "" && HeldAlike(v) && CalmRun(depth, [], eventId, i)
  {
  }

  /** For every depth and every shape of chunks: the context text the publisher has received,
      followed by what it holds, is the raw text exactly if in every chunk all text of the
      choice stood in the entry that is remembered. Text that was forgotten never comes back. */
  lemma {:induction false} KeptIsRawIffCalm(depths: string -> nat, events: seq<MessageEvent>, eventId: string, i: int)
    requires FromProvider(events) && Open(OfStream(events, eventId))
    ensures var s, v := OfStream(events, eventId), ViewOf(PublishAll(DEFAULT_CHAIN, depths, events), eventId, i);
            Kept(v) == RawText(s, i) <==> CalmRun(depths(eventId), s, eventId, i)
  {
    hide PublishAll, RunView, ProviderEvent, CalmRun, Kept, HeldAlike;
    OfStreamAll(events, eventId);
    ViewsAreIndependent(DEFAULT_CHAIN, depths, events, eventId, i);
    KeptRun(depths(eventId), OfStream(events, eventId), eventId, i);
  }

  // ---- what a later rewrite shows at the root -----------------------------------------------------------

  /** In every chunk all text of the choice stands in its last entry with text. */
  predicate SaidLast(s: seq<MessageEvent>, i: int) {
    forall k | 0 <= k < |s| :: var own := Own(ChoicesOf(s[k]), i); Alone(own, LastWithText(own))
  }

  lemma {:induction false} SaidLastFront(s: seq<MessageEvent>, i: int)
    requires s != []
    ensures var own := Own(ChoicesOf(s[|s| - 1]), i);
            SaidLast(s, i) <==> SaidLast(s[..|s| - 1], i) && Alone(own, LastWithText(own))
  {
    hide Alone, LastWithText;
    var front := s[..|s| - 1];
    assert forall k :: 0 <= k < |front| ==> front[k] == s[k];
  }

  /** What was received grows by the rewrite of the remembered entry. */
  lemma {:induction false} RootReceives(depth: nat, v: View, chunk: Chunk, own: seq<ChunkChoice>, i: int)
    requires !IsSubagent(depth) && RootView(v, i) && Entries(own, i)
    ensures var r, j, before := StepEntries(DEFAULT_CHAIN, depth, v, chunk, own, i), LastWithText(own), Read(ReceivedDisplay(v).content);
            RootView(r, i) && Read(ReceivedDisplay(r).content) == before + if j < 0 then "" else Ninged(Said(own, j))
  {
    hide StepEntries, Handle, BuildContext, PendingOf, HasHeld, Ninged, Transparent;
    OnlyLastRemembered(DEFAULT_CHAIN, depth, v, chunk, own, i);
    LastPending(v.ctx, chunk, own, i);
    RootTransparent(depth);
    StaysUnheld(DEFAULT_CHAIN, depth, v, chunk, own, i);
    UnheldIsEmpty(v.ctx);
    var j, before := LastWithText(own), Read(ReceivedDisplay(v).content);
    if j >= 0 {
      assert own[j] in own;
      BuiltPlain(v, chunk, own[j]);
      RootHandled(depth, BuildContext(OwnContext(v.ctx), chunk, own[j]), chunk.hasUsage);
      NingedIs(Said(own, j));
    } else {
      assert before + "" == before;
    }
  }

  lemma {:induction false} BuiltPlain(v: View, chunk: Chunk, c: ChunkChoice)
    requires Owns(v, c.index) && NothingHeld(v.ctx)
    ensures var ctx := BuildContext(OwnContext(v.ctx), chunk, c);
            ctx.heldDisplay.content == c.delta.content && ctx.receivedDisplay == ReceivedDisplay(v)
  {
    assert OwnContext(v.ctx) == [] || Find(OwnContext(v.ctx), c.index) == Some(OwnContext(v.ctx)[0]);
  }

  lemma {:induction false} SaidLastIff(own: seq<ChunkChoice>)
    ensures var j := LastWithText(own);
            var said := if j < 0 then "" else Ninged(Said(own, j));
            && |said| <= |Ninged(TextOf(own))| && (|said| == |Ninged(TextOf(own))| ==> Alone(own, j))
            && (Alone(own, j) ==> said == Ninged(TextOf(own)))
  {
    hide Ninged;
    var j := LastWithText(own);
    if j < 0 {
      AllEmpty(own);
      NingedOfNothing();
      assert forall k :: 0 <= k < |own| ==> !HasText(own[k]);
    } else {
      AloneIff(own, j);
    }
  }

  lemma {:induction false} RootRun(depth: nat, s: seq<MessageEvent>, eventId: string, i: int)
    requires !IsSubagent(depth) && FromProvider(s) && Open(s) && forall e :: e in s ==> e.eventId == eventId
    ensures var v, due := RunView(DEFAULT_CHAIN, depth, s, eventId, i), Ninged(RawText(s, i));
            var received := Read(ReceivedDisplay(v).content);
            && RootView(v, i) && |received| <= |due| && (|received| == |due| ==> SaidLast(s, i)) && (SaidLast(s, i) ==> received == due)
  {
    hide StepEntries, RootView, SaidLast, ProviderEvent, Own, TextOf, Ninged, LastWithText, Alone, ReceivedDisplay;
    if s == [] {
      RootStart(i);
    } else {
      var front, last := s[..|s| - 1], s[|s| - 1];
      assert last in s && forall e :: e in front ==> e in s;
      RootRun(depth, front, eventId, i);
      var v, own := RunView(DEFAULT_CHAIN, depth, front, eventId, i), Own(ChoicesOf(last), i);
      SaidLastFront(s, i);
      SaidLastIff(own);
      NingedConcat(RawText(front, i), TextOf(own));
      EntriesOf(last, i);
      if own != [] {
        RootReceives(depth, v, last.chunk.value, own, i);
      } else {
        NothingSaid(own);
        assert RawText(s, i) == RawText(front, i) + "" == RawText(front, i);
      }
    }
  }

  lemma {:induction false} NothingSaid(own: seq<ChunkChoice>)
    requires own == []
    ensures Alone(own, LastWithText(own))
  {
  }

  lemma {:induction false} RootStart(i: int)
    ensures var v := View(None, FRESH_MESSAGE);
            RootView(v, i) && Read(ReceivedDisplay(v).content) == "" == Ninged("") && SaidLast([], i)
  {
  }

  /** At the root, for every run and every shape of chunks: when the next text to rewrite
      comes, the display becomes all the text so far, rewritten, exactly if every earlier
      chunk had all its text in the last entry with text; else the other texts, shown until
      then or not, are gone. */
  lemma {:induction false} NextRewriteShows(depths: string -> nat, events: seq<MessageEvent>, e: MessageEvent, c: ChunkChoice, eventId: string, i: int)
    requires FromProvider(events) && Open(OfStream(events, eventId)) && !IsSubagent(depths(eventId))
    requires ProviderEvent(e) && e.eventId == eventId && e.phase.InProgress? && Own(ChoicesOf(e), i) == [c] && NIN in Read(c.delta.content)
    ensures var s, bus := OfStream(events, eventId), PublishAll(DEFAULT_CHAIN, depths, events + [e]);
            Read(Fold(bus.channel, eventId, i).displayContent) == Ninged(RawText(s, i) + Read(c.delta.content)) <==> SaidLast(s, i)
  {
    hide PublishAll, PublishOne, RunView, ProviderEvent, Own, StepEntries, SaidLast, RootView, Ninged, Entries;
    var s, bus, text := OfStream(events, eventId), PublishAll(DEFAULT_CHAIN, depths, events), Read(c.delta.content);
    OfStreamAll(events, eventId);
    ViewsAreIndependent(DEFAULT_CHAIN, depths, events, eventId, i);
    RootRun(depths(eventId), s, eventId, i);
    PublishedNext(DEFAULT_CHAIN, depths, events, e);
    PublishOneView(DEFAULT_CHAIN, depths(eventId), bus, e, eventId, i);
    EntriesOf(e, i);
    var v := ViewOf(bus, eventId, i);
    RootShows(depths(eventId), v, e.chunk.value, [c], i);
    assert Said([c], 0) == text && LastWithNin([c]) == 0;
    var received := Read(ReceivedDisplay(v).content);
    NingedConcat(RawText(s, i), text);
    assert (received + Ninged(text))[..|received + Ninged(text)| - |Ninged(text)|] == received;
    assert (Ninged(RawText(s, i)) + Ninged(text))[..|Ninged(RawText(s, i)) + Ninged(text)| - |Ninged(text)|] == Ninged(RawText(s, i));
  }

  lemma {:induction false} PublishedNext(chain: seq<Interceptor>, depths: string -> nat, events: seq<MessageEvent>, e: MessageEvent)
    ensures PublishAll(chain, depths, events + [e]) == PublishOne(chain, depths(e.eventId), PublishAll(chain, depths, events), e)
  {
    assert (events + [e])[..|events|] == events;
  }

  // ---- right, and staying right -----------------------------------------------------------------------

  /** All text of the chunk stands in the entry that is remembered and in the one that is
      shown. */
  predicate Faithful(own: seq<ChunkChoice>) {
    && Alone(own, LastWithText(own))
    && if LastWithNin(own) >= 0 then Alone(own, LastWithNin(own)) else ShownOf(own) == TextOf(own)
  }

  /** Both what the reader has and what the publisher remembers are the whole rewrite. */
  predicate InStep(v: View, raw: string) {
    Read(v.message.displayContent) == Ninged(raw) && Read(ReceivedDisplay(v).content) == Ninged(raw)
  }

  lemma {:induction false} StaysInStep(depth: nat, v: View, e: MessageEvent, raw: string, i: int)
    requires !IsSubagent(depth) && RootView(v, i) && InStep(v, raw) && ProviderEvent(e) && !e.phase.End?
    ensures InStep(StepView(DEFAULT_CHAIN, depth, v, e, i), raw + TextIn(e, i)) <==> Faithful(Own(ChoicesOf(e), i))
  {
    hide StepEntries, RootView, Entries, Own, TextOf, ShownOf, Ninged, LastWithText, LastWithNin, Alone, ReceivedDisplay;
    var own := Own(ChoicesOf(e), i);
    EntriesOf(e, i);
    NingedConcat(raw, TextOf(own));
    if own == [] {
      NothingFaithful(own);
      assert raw + "" == raw;
    } else {
      RootShowsRight(depth, v, e.chunk.value, own, i);
      RootReceives(depth, v, e.chunk.value, own, i);
      SaidLastIff(own);
      var j := LastWithText(own);
      assert |Ninged(raw) + (if j < 0 then "" else Ninged(Said(own, j)))| == |Ninged(raw)| + |if j < 0 then "" else Ninged(Said(own, j))|;
    }
  }

  lemma {:induction false} NothingFaithful(own: seq<ChunkChoice>)
    requires own == []
    ensures Faithful(own)
  {
  }

  lemma {:induction false} RootViewAt(depths: string -> nat, events: seq<MessageEvent>, eventId: string, i: int)
    requires FromProvider(events) && Open(OfStream(events, eventId)) && !IsSubagent(depths(eventId))
    ensures RootView(ViewOf(PublishAll(DEFAULT_CHAIN, depths, events), eventId, i), i)
  {
    hide PublishAll, RunView, RootView, ProviderEvent;
    OfStreamAll(events, eventId);
    ViewsAreIndependent(DEFAULT_CHAIN, depths, events, eventId, i);
    RootRun(depths(eventId), OfStream(events, eventId), eventId, i);
  }

  /** After each of the first `n` events, reader and publisher have the whole rewrite. */
  ghost predicate RightUpTo(depths: string -> nat, events: seq<MessageEvent>, eventId: string, i: int) {
    forall n :: 0 <= n <= |events| ==>
      InStep(ViewOf(PublishAll(DEFAULT_CHAIN, depths, events[..n]), eventId, i), RawText(OfStream(events[..n], eventId), i))
  }

  ghost predicate AllFaithful(events: seq<MessageEvent>, eventId: string, i: int) {
    forall k :: 0 <= k < |events| && events[k].eventId == eventId ==> Faithful(Own(ChoicesOf(events[k]), i))
  }

  lemma {:induction false} OpenFront(events: seq<MessageEvent>, eventId: string)
    requires events != [] && Open(OfStream(events, eventId))
    ensures Open(OfStream(events[..|events| - 1], eventId))
    ensures events[|events| - 1].eventId == eventId ==> !events[|events| - 1].phase.End?
  {
    var front := OfStream(events[..|events| - 1], eventId);
    var s := OfStream(events, eventId);
    assert forall k :: 0 <= k < |front| ==> s[k] == front[k];
    assert events[|events| - 1].eventId == eventId ==> s[|front|] == events[|events| - 1];
  }

  lemma {:induction false} RightAtStart(depths: string -> nat, events: seq<MessageEvent>, eventId: string, i: int)
    requires events == []
    ensures RightUpTo(depths, events, eventId, i)
  {
    assert events[..0] == [];
    assert Ninged("") == "";
  }

  lemma {:induction false} RightFront(depths: string -> nat, events: seq<MessageEvent>, eventId: string, i: int)
    requires events != []
    ensures var front, last := events[..|events| - 1], events[|events| - 1];
            && (RightUpTo(depths, events, eventId, i) <==>
                  RightUpTo(depths, front, eventId, i)
                  && InStep(ViewOf(PublishAll(DEFAULT_CHAIN, depths, events), eventId, i), RawText(OfStream(events, eventId), i)))
            && (AllFaithful(events, eventId, i) <==>
                  AllFaithful(front, eventId, i) && (last.eventId == eventId ==> Faithful(Own(ChoicesOf(last), i))))
            && (RightUpTo(depths, front, eventId, i) ==>
                  InStep(ViewOf(PublishAll(DEFAULT_CHAIN, depths, front), eventId, i), RawText(OfStream(front, eventId), i)))
  {
    hide PublishAll, Faithful, InStep, Own, ViewOf, RawText;
    var front := events[..|events| - 1];
    forall n | 0 <= n <= |front| ensures events[..n] == front[..n] {
    }
    assert events[..|events|] == events && front[..|front|] == front;
    assert forall k :: 0 <= k < |front| ==> front[k] == events[k];
  }

  lemma {:induction false} RightNext(depths: string -> nat, front: seq<MessageEvent>, last: MessageEvent, eventId: string, i: int)
    requires FromProvider(front) && ProviderEvent(last) && Open(OfStream(front, eventId)) && !IsSubagent(depths(eventId))
    requires last.eventId == eventId ==> !last.phase.End?
    requires InStep(ViewOf(PublishAll(DEFAULT_CHAIN, depths, front), eventId, i), RawText(OfStream(front, eventId), i))
    ensures InStep(ViewOf(PublishAll(DEFAULT_CHAIN, depths, front + [last]), eventId, i), RawText(OfStream(front + [last], eventId), i)) <==>
            (last.eventId == eventId ==> Faithful(Own(ChoicesOf(last), i)))
  {
    hide PublishAll, PublishOne, RootView, ProviderEvent, Faithful, InStep, Own, ViewOf, StepView;
    var bus, s := PublishAll(DEFAULT_CHAIN, depths, front), OfStream(front, eventId);
    RootViewAt(depths, front, eventId, i);
    ViewsAreIndependent(DEFAULT_CHAIN, depths, front, eventId, i);
    PublishedNext(DEFAULT_CHAIN, depths, front, last);
    PublishOneView(DEFAULT_CHAIN, depths(last.eventId), bus, last, eventId, i);
    assert (front + [last])[..|front|] == front;
    if last.eventId == eventId {
      assert (s + [last])[..|s|] == s;
      StaysInStep(depths(eventId), ViewOf(bus, eventId, i), last, RawText(s, i), i);
    }
  }

  /** At the root, for every interleaving and every shape of chunks: what is shown and what is
      remembered are the whole rewrite after every event, exactly if every chunk of the
      stream is faithful to the choice. */
  lemma {:induction false} RightIffFaithful(depths: string -> nat, events: seq<MessageEvent>, eventId: string, i: int)
    requires FromProvider(events) && Open(OfStream(events, eventId)) && !IsSubagent(depths(eventId))
    ensures RightUpTo(depths, events, eventId, i) <==> AllFaithful(events, eventId, i)
  {
    hide PublishAll, PublishOne, RootView, ProviderEvent, Faithful, InStep, Own, ViewOf, RawText;
    if events == [] {
      RightAtStart(depths, events, eventId, i);
    } else {
      var front, last := events[..|events| - 1], events[|events| - 1];
      OpenFront(events, eventId);
      RightIffFaithful(depths, front, eventId, i);
      RightFront(depths, events, eventId, i);
      assert last in events && events == front + [last];
      if RightUpTo(depths, front, eventId, i) {
        RightNext(depths, front, last, eventId, i);
      }
    }
  }
}
