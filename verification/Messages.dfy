/** The streamed message model: chunks from the provider, the two derived text
    channels, and the interceptor hooks that rewrite them. */
module Messages {
  import opened Common

  /** Text of one channel; `None` means nothing of that kind has arrived yet. */
  datatype MessageContent = MessageContent(reasoning: Option<string>, content: Option<string>)

  const EMPTY_CONTENT := MessageContent(None, None)

  datatype Param = Flag(flag: bool) | Number(number: int) | Text(text: string)
  type Params = map<string, Param>

  datatype MessageModified = MessageModified(
    display: Option<MessageContent>, context: Option<MessageContent>, params: Params)

  /** Interception state of one choice of one message event. */
  datatype InterceptionContext = InterceptionContext(
    chunkId: string, choiceIndex: int, created: int, model: string,
    heldDisplay: MessageContent, heldContext: MessageContent,
    receivedDisplay: MessageContent, receivedContext: MessageContent)

  datatype Delta = Delta(
    role: Option<string>, content: Option<string>, reasoning: Option<string>,
    displayContent: Option<string>, displayReasoning: Option<string>,
    contextContent: Option<string>, contextReasoning: Option<string>,
    params: Params)

  datatype ChunkChoice = ChunkChoice(index: int, delta: Delta, finishReason: Option<string>)

  datatype Chunk = Chunk(id: string, choices: seq<ChunkChoice>, created: int, model: string, hasUsage: bool)

  datatype Phase = Started | InProgress | InProgressPartial | End | Final

  /** The message rebuilt for one choice. */
  datatype Message = Message(
    role: string, content: Option<string>, reasoning: Option<string>,
    displayContent: Option<string>, displayReasoning: Option<string>,
    contextContent: Option<string>, contextReasoning: Option<string>,
    params: Params, finishReason: Option<string>)

  type Completion = map<int, Message>

  datatype MessageEvent = MessageEvent(
    eventId: string, phase: Phase, chunk: Option<Chunk>, completion: Option<Completion>)

  /** `_append_message_text`: `None` leaves the text as it is. */
  function AppendText(previous: Option<string>, current: Option<string>): Option<string> {
    if current.None? then previous
    else if previous.None? then current
    else Some(previous.value + current.value)
  }

  function MergeContent(previous: MessageContent, current: MessageContent): MessageContent {
    MessageContent(AppendText(previous.reasoning, current.reasoning),
                   AppendText(previous.content, current.content))
  }

  predicate HasContent(c: MessageContent) {
    c.reasoning.Some? || c.content.Some?
  }

  /** A channel read as text: nothing and the empty text are the same. */
  function Read(o: Option<string>): string {
    o.GetOr("")
  }

  predicate SameText(a: MessageContent, b: MessageContent) {
    Read(a.content) == Read(b.content) && Read(a.reasoning) == Read(b.reasoning)
  }
}

/** The interceptor hooks and the executor that chains them. */
module Interceptors {
  import opened Common
  import opened Messages
  import Text

  const CONTINUE_MARKER := "<#CONTINUE#>"
  const HAS_CONTINUE_TAG := "has_continue_tag"
  const NIN := '\U{60A8}'
  const NING := "Ning"

  /** The three message hooks. `depth` is the number of agent frames, the only
      part of the runtime context the message hooks look at. */
  datatype Interceptor = Interceptor(
    hold: (nat, InterceptionContext) -> bool,
    flush: (nat, InterceptionContext, bool) -> MessageModified,
    replay: (nat, MessageContent, MessageContent, bool) -> Option<MessageModified>)

  // ---- the default interceptor ---------------------------------------------

  predicate IsSubagent(depth: nat) {
    depth > 1
  }

  predicate DefaultHold(depth: nat, ctx: InterceptionContext) {
    if !IsSubagent(depth) then false
    else
      var content := Read(ctx.heldDisplay.content);
      var markerStart := Text.LastIndexOf(content, '<');
      markerStart >= 0 && Text.Contains(CONTINUE_MARKER, content[markerStart..])
  }

  function DefaultFlush(depth: nat, ctx: InterceptionContext, isMessageEnd: bool): MessageModified {
    var held := ctx.heldDisplay;
    var hasTag := Text.Contains(Read(held.reasoning), CONTINUE_MARKER) || Text.Contains(Read(held.content), CONTINUE_MARKER);
    if !IsSubagent(depth) || !hasTag then MessageModified(None, None, map[])
    else
      MessageModified(
        Some(MessageContent(Some(Text.Replace(Read(held.reasoning), CONTINUE_MARKER, "")),
                            Some(Text.Replace(Read(held.content), CONTINUE_MARKER, "")))),
        None,
        map[HAS_CONTINUE_TAG := Flag(true)])
  }

  function DefaultReplay(depth: nat, display: MessageContent, context: MessageContent, isMessageEnd: bool)
    : Option<MessageModified>
  {
    if Text.Contains(Read(display.content), [NIN]) then
      Some(MessageModified(
        Some(display.(content := Some(Text.Replace(Read(display.content), [NIN], NING)))),
        None,
        map[[NIN] := Number(1)]))
    else None
  }

  const DEFAULT_INTERCEPTOR := Interceptor(DefaultHold, DefaultFlush, DefaultReplay)

  // ---- what the executor computes ------------------------------------------

  function OrElse(a: Option<MessageContent>, b: MessageContent): MessageContent {
    a.GetOr(b)
  }

  /** The chain's answer after the first `n` interceptors saw the held text. */
  function FlushChain(chain: seq<Interceptor>, n: nat, depth: nat, ctx: InterceptionContext, isMessageEnd: bool)
    : (r: MessageModified)
    requires n <= |chain|
    ensures r.display.Some? && r.context.Some?
  {
    if n == 0 then MessageModified(Some(ctx.heldDisplay), Some(ctx.heldContext), map[])
    else
      var before := FlushChain(chain, n - 1, depth, ctx, isMessageEnd);
      var seen := ctx.(heldDisplay := before.display.value, heldContext := before.context.value);
      var m := chain[n - 1].flush(depth, seen, isMessageEnd);
      MessageModified(Some(OrElse(m.display, before.display.value)),
                      Some(OrElse(m.context, before.context.value)),
                      before.params + m.params)
  }

  function ReplayChain(chain: seq<Interceptor>, n: nat, depth: nat,
                       display: MessageContent, context: MessageContent, isMessageEnd: bool)
    : (r: Option<MessageModified>)
    requires n <= |chain|
    ensures r.Some? ==> r.value.display.Some? && r.value.context.Some?
  {
    if n == 0 then None
    else
      var before := ReplayChain(chain, n - 1, depth, display, context, isMessageEnd);
      var d := if before.Some? then before.value.display.value else display;
      var c := if before.Some? then before.value.context.value else context;
      var m := chain[n - 1].replay(depth, d, c, isMessageEnd);
      if m.None? then before
      else Some(MessageModified(Some(OrElse(m.value.display, d)), Some(OrElse(m.value.context, c)),
                                (if before.Some? then before.value.params else map[]) + m.value.params))
  }

  predicate HoldChain(chain: seq<Interceptor>, depth: nat, ctx: InterceptionContext) {
    exists k | 0 <= k < |chain| :: chain[k].hold(depth, ctx)
  }

  /** `InterceptorExecutor`: runs the registered hooks in order. */
  class InterceptorExecutor {
    var interceptors: seq<Interceptor>

    constructor (interceptors: seq<Interceptor>)
      ensures this.interceptors == interceptors
    {
      this.interceptors := interceptors;
    }

    method MessageShouldContinueIntercept(depth: nat, ctx: InterceptionContext) returns (hold: bool)
      ensures hold <==> HoldChain(interceptors, depth, ctx)
      ensures hold <==> exists k :: 0 <= k < |interceptors| && interceptors[k].hold(depth, ctx)
    {
      for k := 0 to |interceptors|
        invariant forall j :: 0 <= j < k ==> !interceptors[j].hold(depth, ctx)
      {
        if interceptors[k].hold(depth, ctx) {
          return true;
        }
      }
      return false;
    }

    method MessageBeforeFlushIntercepted(depth: nat, ctx: InterceptionContext, isMessageEnd: bool)
      returns (modified: MessageModified)
      ensures modified == FlushChain(interceptors, |interceptors|, depth, ctx, isMessageEnd)
    {
      var seen := ctx;
      modified := MessageModified(Some(ctx.heldDisplay), Some(ctx.heldContext), map[]);
      for k := 0 to |interceptors|
        invariant modified == FlushChain(interceptors, k, depth, ctx, isMessageEnd)
        invariant seen == ctx.(heldDisplay := modified.display.value, heldContext := modified.context.value)
      {
        var m := interceptors[k].flush(depth, seen, isMessageEnd);
        modified := MessageModified(
          if m.display.Some? then m.display else modified.display,
          if m.context.Some? then m.context else modified.context,
          modified.params + m.params);
        seen := seen.(heldDisplay := modified.display.value, heldContext := modified.context.value);
      }
    }

    method MessageBuildReplayContent(depth: nat, display: MessageContent, context: MessageContent, isMessageEnd: bool)
      returns (modified: Option<MessageModified>)
      ensures modified == ReplayChain(interceptors, |interceptors|, depth, display, context, isMessageEnd)
    {
      modified := None;
      var d, c := display, context;
      for k := 0 to |interceptors|
        invariant modified == ReplayChain(interceptors, k, depth, display, context, isMessageEnd)
        invariant d == if modified.Some? then modified.value.display.value else display
        invariant c == if modified.Some? then modified.value.context.value else context
      {
        var m := interceptors[k].replay(depth, d, c, isMessageEnd);
        if m.None? {
          continue;
        }
        d := OrElse(m.value.display, d);
        c := OrElse(m.value.context, c);
        modified := Some(MessageModified(Some(d), Some(c),
          (if modified.Some? then modified.value.params else map[]) + m.value.params));
      }
    }
  }

  // ---- chains of chains ----------------------------------------------------

  lemma {:induction false} FlushPrefix(a: seq<Interceptor>, b: seq<Interceptor>, n: nat, depth: nat, ctx: InterceptionContext, e: bool)
    requires n <= |a|
    ensures FlushChain(a + b, n, depth, ctx, e) == FlushChain(a, n, depth, ctx, e)
  {
    if n > 0 {
      FlushPrefix(a, b, n - 1, depth, ctx, e);
    }
  }

  /** What the held text is rewritten to by one chain and then by another, with the parameters
      of both. */
  function FlushTwice(m: MessageModified, n: MessageModified): MessageModified {
    MessageModified(n.display, n.context, m.params + n.params)
  }

  function SeenHeld(ctx: InterceptionContext, m: MessageModified): InterceptionContext {
    ctx.(heldDisplay := OrElse(m.display, ctx.heldDisplay), heldContext := OrElse(m.context, ctx.heldContext))
  }

  lemma {:induction false} FlushNext(chain: seq<Interceptor>, n: nat, depth: nat, ctx: InterceptionContext, e: bool)
    requires n < |chain|
    ensures var before := FlushChain(chain, n, depth, ctx, e);
            var own := chain[n].flush(depth, SeenHeld(ctx, before), e);
            FlushChain(chain, n + 1, depth, ctx, e)
              == MessageModified(Some(OrElse(own.display, before.display.value)), Some(OrElse(own.context, before.context.value)), before.params + own.params)
  {
  }

  lemma {:induction false} SeenAgain(ctx: InterceptionContext, m: MessageModified, n: MessageModified)
    requires n.display.Some? && n.context.Some?
    ensures SeenHeld(SeenHeld(ctx, m), n) == SeenHeld(ctx, n)
  {
  }

  lemma {:induction false} FlushBehind(a: seq<Interceptor>, b: seq<Interceptor>, n: nat, depth: nat, ctx: InterceptionContext, e: bool)
    requires n <= |b|
    ensures var m := FlushChain(a, |a|, depth, ctx, e);
            FlushChain(a + b, |a| + n, depth, ctx, e) == FlushTwice(m, FlushChain(b, n, depth, SeenHeld(ctx, m), e))
  {
    hide FlushChain, SeenHeld;
    var m := FlushChain(a, |a|, depth, ctx, e);
    if n == 0 {
      FlushPrefix(a, b, |a|, depth, ctx, e);
      FlushNone(b, depth, ctx, m, e);
    } else {
      FlushBehind(a, b, n - 1, depth, ctx, e);
      FlushNext(a + b, |a| + n - 1, depth, ctx, e);
      FlushNext(b, n - 1, depth, SeenHeld(ctx, m), e);
      var before := FlushChain(b, n - 1, depth, SeenHeld(ctx, m), e);
      SeenAgain(ctx, m, before);
      SeenSame(ctx, before, FlushTwice(m, before));
      assert (a + b)[|a| + n - 1] == b[n - 1];
      var own := b[n - 1].flush(depth, SeenHeld(ctx, before), e);
      assert m.params + before.params + own.params == m.params + (before.params + own.params);
    }
  }

  lemma {:induction false} SeenSame(ctx: InterceptionContext, m: MessageModified, n: MessageModified)
    requires m.display == n.display && m.context == n.context
    ensures SeenHeld(ctx, m) == SeenHeld(ctx, n)
  {
  }

  lemma {:induction false} FlushNone(b: seq<Interceptor>, depth: nat, ctx: InterceptionContext, m: MessageModified, e: bool)
    requires m.display.Some? && m.context.Some?
    ensures FlushTwice(m, FlushChain(b, 0, depth, SeenHeld(ctx, m), e)) == m
  {
    assert m.params + map[] == m.params;
  }

  /** A chain of two chains hands the text from the first to the second; a single interceptor
      puts its texts in place of the held ones, where it has any, and sets its parameters. */
  lemma {:induction false} FlushComposes(a: seq<Interceptor>, b: seq<Interceptor>, i: Interceptor, depth: nat, ctx: InterceptionContext, e: bool)
    ensures var m := FlushChain(a, |a|, depth, ctx, e);
            FlushChain(a + b, |a + b|, depth, ctx, e) == FlushTwice(m, FlushChain(b, |b|, depth, SeenHeld(ctx, m), e))
    ensures var own, alone := i.flush(depth, ctx, e), FlushChain([i], 1, depth, ctx, e);
            && alone.display == (if own.display.Some? then own.display else Some(ctx.heldDisplay))
            && alone.context == (if own.context.Some? then own.context else Some(ctx.heldContext))
            && alone.params == own.params
  {
    hide FlushTwice;
    FlushBehind(a, b, |b|, depth, ctx, e);
    FlushNext([i], 0, depth, ctx, e);
    assert SeenHeld(ctx, MessageModified(Some(ctx.heldDisplay), Some(ctx.heldContext), map[])) == ctx;
    assert map[] + i.flush(depth, ctx, e).params == i.flush(depth, ctx, e).params;
  }

  lemma {:induction false} ReplayPrefix(a: seq<Interceptor>, b: seq<Interceptor>, n: nat, depth: nat, d: MessageContent, c: MessageContent, e: bool)
    requires n <= |a|
    ensures ReplayChain(a + b, n, depth, d, c, e) == ReplayChain(a, n, depth, d, c, e)
  {
    if n > 0 {
      ReplayPrefix(a, b, n - 1, depth, d, c, e);
    }
  }

  /** The replays of two chains one after the other: a chain that has none changes nothing. */
  function ReplayTwice(m: Option<MessageModified>, n: Option<MessageModified>): Option<MessageModified> {
    if m.None? then n else if n.None? then m else Some(FlushTwice(m.value, n.value))
  }

  function SeenDisplay(m: Option<MessageModified>, d: MessageContent): MessageContent {
    if m.Some? && m.value.display.Some? then m.value.display.value else d
  }

  function SeenContext(m: Option<MessageModified>, c: MessageContent): MessageContent {
    if m.Some? && m.value.context.Some? then m.value.context.value else c
  }

  /** One more replay. */
  function ReplayOn(before: Option<MessageModified>, own: Option<MessageModified>, d: MessageContent, c: MessageContent): Option<MessageModified> {
    if own.None? then before
    else Some(MessageModified(Some(OrElse(own.value.display, SeenDisplay(before, d))), Some(OrElse(own.value.context, SeenContext(before, c))),
                              (if before.Some? then before.value.params else map[]) + own.value.params))
  }

  lemma {:induction false} ReplayNext(chain: seq<Interceptor>, n: nat, depth: nat, d: MessageContent, c: MessageContent, e: bool)
    requires n < |chain|
    ensures var before := ReplayChain(chain, n, depth, d, c, e);
            ReplayChain(chain, n + 1, depth, d, c, e)
              == ReplayOn(before, chain[n].replay(depth, SeenDisplay(before, d), SeenContext(before, c), e), d, c)
  {
  }

  lemma {:induction false} ReplayBehind(a: seq<Interceptor>, b: seq<Interceptor>, n: nat, depth: nat, d: MessageContent, c: MessageContent, e: bool)
    requires n <= |b|
    ensures var m := ReplayChain(a, |a|, depth, d, c, e);
            ReplayChain(a + b, |a| + n, depth, d, c, e) == ReplayTwice(m, ReplayChain(b, n, depth, SeenDisplay(m, d), SeenContext(m, c), e))
  {
    hide ReplayChain, SeenDisplay, SeenContext, ReplayOn, ReplayTwice;
    var m := ReplayChain(a, |a|, depth, d, c, e);
    if n == 0 {
      ReplayPrefix(a, b, |a|, depth, d, c, e);
      ReplayNone(b, depth, d, c, m, e);
    } else {
      ReplayBehind(a, b, n - 1, depth, d, c, e);
      ReplayNext(a + b, |a| + n - 1, depth, d, c, e);
      ReplayNext(b, n - 1, depth, SeenDisplay(m, d), SeenContext(m, c), e);
      var before := ReplayChain(b, n - 1, depth, SeenDisplay(m, d), SeenContext(m, c), e);
      SeenTwice(m, before, d, c);
      assert (a + b)[|a| + n - 1] == b[n - 1];
      var own := b[n - 1].replay(depth, SeenDisplay(before, SeenDisplay(m, d)), SeenContext(before, SeenContext(m, c)), e);
      ReplayJoins(m, before, own, d, c);
    }
  }

  lemma {:induction false} ReplayNone(b: seq<Interceptor>, depth: nat, d: MessageContent, c: MessageContent, m: Option<MessageModified>, e: bool)
    ensures ReplayTwice(m, ReplayChain(b, 0, depth, SeenDisplay(m, d), SeenContext(m, c), e)) == m
  {
  }

  lemma {:induction false} SeenTwice(m: Option<MessageModified>, n: Option<MessageModified>, d: MessageContent, c: MessageContent)
    requires n.Some? ==> n.value.display.Some? && n.value.context.Some?
    ensures SeenDisplay(ReplayTwice(m, n), d) == SeenDisplay(n, SeenDisplay(m, d))
    ensures SeenContext(ReplayTwice(m, n), c) == SeenContext(n, SeenContext(m, c))
  {
  }

  lemma {:induction false} ReplayJoins(m: Option<MessageModified>, before: Option<MessageModified>, own: Option<MessageModified>, d: MessageContent, c: MessageContent)
    requires before.Some? ==> before.value.display.Some? && before.value.context.Some?
    ensures ReplayOn(ReplayTwice(m, before), own, d, c) == ReplayTwice(m, ReplayOn(before, own, SeenDisplay(m, d), SeenContext(m, c)))
  {
    if m.Some? && own.Some? {
      var params := if before.Some? then before.value.params else map[];
      assert m.value.params + params + own.value.params == m.value.params + (params + own.value.params);
      assert m.value.params + map[] == m.value.params;
      assert map[] + own.value.params == own.value.params;
    }
  }

  /** A chain of two chains replays what the first leaves through the second; a single
      interceptor without a replay leaves the text alone, any other has its texts put in
      place of those it was shown. */
  lemma {:induction false} ReplayComposes(a: seq<Interceptor>, b: seq<Interceptor>, i: Interceptor, depth: nat, d: MessageContent, c: MessageContent, e: bool)
    ensures var m := ReplayChain(a, |a|, depth, d, c, e);
            ReplayChain(a + b, |a + b|, depth, d, c, e) == ReplayTwice(m, ReplayChain(b, |b|, depth, SeenDisplay(m, d), SeenContext(m, c), e))
    ensures var own, alone := i.replay(depth, d, c, e), ReplayChain([i], 1, depth, d, c, e);
            && alone.Some? == own.Some?
            && (own.Some? ==> alone.value == MessageModified(Some(SeenDisplay(own, d)), Some(SeenContext(own, c)), own.value.params))
  {
    ReplayBehind(a, b, |b|, depth, d, c, e);
    assert ReplayChain([i], 0, depth, d, c, e) == None;
    var own := i.replay(depth, d, c, e);
    assert own.Some? ==> map[] + own.value.params == own.value.params;
  }

  // ---- the contract of a chain ---------------------------------------------

  /** `b` still carries every channel that `a` carries. */
  predicate Keeps(a: MessageContent, b: MessageContent) {
    (a.reasoning.Some? ==> b.reasoning.Some?) && (a.content.Some? ==> b.content.Some?)
  }

  /** A hook may rewrite a text that is set, but never take it away. */
  ghost predicate Obeys(i: Interceptor) {
    && (forall depth: nat, ctx: InterceptionContext, e: bool {:trigger i.flush(depth, ctx, e)} ::
          && Keeps(ctx.heldDisplay, OrElse(i.flush(depth, ctx, e).display, ctx.heldDisplay))
          && Keeps(ctx.heldContext, OrElse(i.flush(depth, ctx, e).context, ctx.heldContext)))
    && (forall depth: nat, d: MessageContent, c: MessageContent, e: bool {:trigger i.replay(depth, d, c, e)} :: i.replay(depth, d, c, e).Some? ==>
          && Keeps(d, OrElse(i.replay(depth, d, c, e).value.display, d))
          && Keeps(c, OrElse(i.replay(depth, d, c, e).value.context, c)))
  }

  ghost predicate ChainObeys(chain: seq<Interceptor>) {
    forall k :: 0 <= k < |chain| ==> Obeys(chain[k])
  }

  /** The contract is inherited by the whole chain, flush side. */
  lemma {:induction false} FlushChainKeeps(chain: seq<Interceptor>, n: nat, depth: nat, ctx: InterceptionContext, e: bool)
    requires n <= |chain| && ChainObeys(chain)
    ensures Keeps(ctx.heldDisplay, FlushChain(chain, n, depth, ctx, e).display.value)
    ensures Keeps(ctx.heldContext, FlushChain(chain, n, depth, ctx, e).context.value)
  {
    if n > 0 {
      FlushChainKeeps(chain, n - 1, depth, ctx, e);
      var before := FlushChain(chain, n - 1, depth, ctx, e);
      var seen := ctx.(heldDisplay := before.display.value, heldContext := before.context.value);
      assert Obeys(chain[n - 1]);
      var _ := chain[n - 1].flush(depth, seen, e);
    }
  }

  /** The contract is inherited by the whole chain, replay side. */
  lemma {:induction false} ReplayChainKeeps(chain: seq<Interceptor>, n: nat, depth: nat,
                                            d: MessageContent, c: MessageContent, e: bool)
    requires n <= |chain| && ChainObeys(chain)
    ensures var r := ReplayChain(chain, n, depth, d, c, e);
            r.Some? ==> Keeps(d, r.value.display.value) && Keeps(c, r.value.context.value)
  {
    if n > 0 {
      ReplayChainKeeps(chain, n - 1, depth, d, c, e);
      var before := ReplayChain(chain, n - 1, depth, d, c, e);
      assert Obeys(chain[n - 1]);
      var d' := if before.Some? then before.value.display.value else d;
      var c' := if before.Some? then before.value.context.value else c;
      var _ := chain[n - 1].replay(depth, d', c', e);
    }
  }

  lemma {:induction false} DefaultObeys()
    ensures ChainObeys([DEFAULT_INTERCEPTOR])
  {
  }
}
