/** `MessagePublisher`: intercepts one message event at a time, publishes it
    together with flush and replay events, and keeps one interception context
    per (event, choice). */
module MessagePublishing {
  import opened Common
  import opened Messages
  import opened Interceptors
  import opened MessageFold

  const EMPTY_DELTA := Delta(None, None, None, None, None, None, None, map[])

  // ---- contexts: the inner dictionary, in insertion order ---------------------

  type Contexts = seq<InterceptionContext>

  function Find(contexts: Contexts, i: int): (r: Option<InterceptionContext>)
    ensures r.Some? ==> r.value.choiceIndex == i && r.value in contexts
  {
    if contexts == [] then None
    else if contexts[0].choiceIndex == i then Some(contexts[0])
    else Find(contexts[1..], i)
  }

  /** Assignment to a dictionary entry: in place if the key exists, else at the end. */
  function Save(contexts: Contexts, ctx: InterceptionContext): Contexts {
    if contexts == [] then [ctx]
    else if contexts[0].choiceIndex == ctx.choiceIndex then [ctx] + contexts[1..]
    else [contexts[0]] + Save(contexts[1..], ctx)
  }

  type Store = map<string, Contexts>

  function ContextsOf(store: Store, eventId: string): Contexts {
    if eventId in store then store[eventId] else []
  }

  // ---- the chunk being published ----------------------------------------------

  /** `choice_index2choice[i]`: the last choice of the chunk with index `i`. */
  function Position(choices: seq<ChunkChoice>, i: int): (p: int)
    ensures -1 <= p < |choices|
    ensures p >= 0 ==> choices[p].index == i
    ensures p < 0 ==> forall k :: 0 <= k < |choices| ==> choices[k].index != i
  {
    if choices == [] then -1
    else if choices[|choices| - 1].index == i then |choices| - 1
    else Position(choices[..|choices| - 1], i)
  }

  function ReplaceDelta(choices: seq<ChunkChoice>, i: int, d: Delta): (r: seq<ChunkChoice>)
    ensures |r| == |choices|
  {
    var p := Position(choices, i);
    if p < 0 then choices else choices[p := choices[p].(delta := d)]
  }

  function ContentOf(d: Delta): MessageContent {
    MessageContent(d.reasoning, d.content)
  }

  /** `_build_interception_context`: the new delta joins the held text only. */
  function BuildContext(contexts: Contexts, chunk: Chunk, choice: ChunkChoice): InterceptionContext {
    var found := Find(contexts, choice.index);
    var previous := found.GetOr(InterceptionContext(chunk.id, choice.index, chunk.created, chunk.model,
                                                    EMPTY_CONTENT, EMPTY_CONTENT, EMPTY_CONTENT, EMPTY_CONTENT));
    InterceptionContext(chunk.id, choice.index, chunk.created, chunk.model,
                        MergeContent(previous.heldDisplay, ContentOf(choice.delta)),
                        MergeContent(previous.heldContext, ContentOf(choice.delta)),
                        previous.receivedDisplay, previous.receivedContext)
  }

  predicate HasHeld(ctx: InterceptionContext) {
    HasContent(ctx.heldDisplay) || HasContent(ctx.heldContext)
  }

  function KeepHeld(contexts: Contexts): Contexts {
    if contexts == [] then []
    else
      var rest := KeepHeld(contexts[..|contexts| - 1]);
      var last := contexts[|contexts| - 1];
      if HasHeld(last) then rest + [last] else rest
  }

  /** `_clear_choice_channel_content`. */
  function ClearChannels(d: Delta): Delta {
    var d1 := if d.reasoning.Some? then d.(displayReasoning := Some(""), contextReasoning := Some("")) else d;
    if d1.content.Some? then d1.(displayContent := Some(""), contextContent := Some("")) else d1
  }

  /** The derived channels are written only where they differ from the raw delta. */
  function ReleaseDelta(d: Delta, display: MessageContent, context: MessageContent, params: Params): Delta {
    var d1 := if d.reasoning != display.reasoning then d.(displayReasoning := display.reasoning) else d;
    var d2 := if d.content != display.content then d1.(displayContent := display.content) else d1;
    var d3 := if d.reasoning != context.reasoning then d2.(contextReasoning := context.reasoning) else d2;
    var d4 := if d.content != context.content then d3.(contextContent := context.content) else d3;
    d4.(params := d.params + params)
  }

  /** One choice's entry in a flush or replay event. */
  datatype Patch = Patch(chunkId: string, choiceIndex: int, created: int, model: string, modified: MessageModified)

  function PatchOf(ctx: InterceptionContext, m: MessageModified): Patch {
    Patch(ctx.chunkId, ctx.choiceIndex, ctx.created, ctx.model, m)
  }

  /** What one context contributes: its saved form, the delta of its choice, and
      the text to flush before END or to replay. */
  datatype Handled = Handled(
    saved: InterceptionContext, delta: Delta, flush: Option<MessageModified>, replay: Option<MessageModified>)

  function Handle(chain: seq<Interceptor>, depth: nat, ctx: InterceptionContext, d: Delta, isEnd: bool, isMessageEnd: bool)
    : Handled
  {
    if !isMessageEnd && HoldChain(chain, depth, ctx) then Handled(ctx, ClearChannels(d), None, None)
    else
      var m := FlushChain(chain, |chain|, depth, ctx, isMessageEnd);
      var display, context := m.display.value, m.context.value;
      var released := ctx.(heldDisplay := EMPTY_CONTENT, heldContext := EMPTY_CONTENT,
                           receivedDisplay := MergeContent(ctx.receivedDisplay, display),
                           receivedContext := MergeContent(ctx.receivedContext, context));
      var replay := ReplayChain(chain, |chain|, depth, released.receivedDisplay, released.receivedContext, isMessageEnd);
      var saved := if replay.None? then released
                   else released.(receivedDisplay := replay.value.display.value,
                                  receivedContext := replay.value.context.value);
      Handled(saved, ReleaseDelta(d, display, context, m.params), if isEnd then Some(m) else None, replay)
  }

  function DeltaAt(choices: seq<ChunkChoice>, i: int): Delta {
    var p := Position(choices, i);
    if p < 0 then EMPTY_DELTA else choices[p].delta
  }

  datatype Progress = Progress(contexts: Contexts, choices: seq<ChunkChoice>, flushes: seq<Patch>, replays: seq<Patch>)

  function OnePatch(ctx: InterceptionContext, m: Option<MessageModified>): seq<Patch> {
    if m.Some? then [PatchOf(ctx, m.value)] else []
  }

  function HandleOne(chain: seq<Interceptor>, depth: nat, before: Progress, ctx: InterceptionContext, isEnd: bool, isMessageEnd: bool)
    : (r: Progress)
    ensures |r.choices| == |before.choices|
  {
    var h := Handle(chain, depth, ctx, DeltaAt(before.choices, ctx.choiceIndex), isEnd, isMessageEnd);
    Progress(Save(before.contexts, h.saved),
             ReplaceDelta(before.choices, ctx.choiceIndex, h.delta),
             before.flushes + OnePatch(ctx, h.flush),
             before.replays + OnePatch(ctx, h.replay))
  }

  function HandleAll(chain: seq<Interceptor>, depth: nat, pending: Contexts, start: Progress, isEnd: bool, isMessageEnd: bool)
    : (r: Progress)
    ensures |r.choices| == |start.choices|
  {
    if pending == [] then start
    else
      HandleOne(chain, depth, HandleAll(chain, depth, pending[..|pending| - 1], start, isEnd, isMessageEnd),
                pending[|pending| - 1], isEnd, isMessageEnd)
  }

  lemma {:induction false} HandleAllStep(chain: seq<Interceptor>, depth: nat, pending: Contexts, k: nat, start: Progress, isEnd: bool, isMessageEnd: bool)
    requires k < |pending|
    ensures HandleAll(chain, depth, pending[..k + 1], start, isEnd, isMessageEnd)
         == HandleOne(chain, depth, HandleAll(chain, depth, pending[..k], start, isEnd, isMessageEnd), pending[k], isEnd, isMessageEnd)
  {
    assert pending[..k + 1][..k] == pending[..k];
  }

  // ---- the extra events ---------------------------------------------------------

  function PatchDelta(m: MessageModified): Delta {
    Delta(None, None, None,
          if m.display.Some? then m.display.value.content else None,
          if m.display.Some? then m.display.value.reasoning else None,
          if m.context.Some? then m.context.value.content else None,
          if m.context.Some? then m.context.value.reasoning else None,
          m.params)
  }

  function PatchChoices(patches: seq<Patch>): (r: seq<ChunkChoice>)
    ensures |r| == |patches|
  {
    seq(|patches|, k requires 0 <= k < |patches| =>
      ChunkChoice(patches[k].choiceIndex, PatchDelta(patches[k].modified), None))
  }

  /** `_build_content_event`. */
  function ContentEvent(source: MessageEvent, phase: Phase, patches: seq<Patch>): MessageEvent
    requires patches != []
  {
    var first := patches[0];
    source.(phase := phase,
            chunk := Some(Chunk(first.chunkId, PatchChoices(patches), first.created, first.model, false)))
  }

  function EventFor(source: MessageEvent, phase: Phase, patches: seq<Patch>): seq<MessageEvent> {
    if patches == [] then [] else [ContentEvent(source, phase, patches)]
  }

  // ---- one event ------------------------------------------------------------------

  predicate IsMessageEnd(event: MessageEvent) {
    event.phase.End? || (event.chunk.Some? && event.chunk.value.hasUsage)
  }

  function ChoicesOf(event: MessageEvent): seq<ChunkChoice> {
    if event.chunk.Some? then event.chunk.value.choices else []
  }

  function BuildContexts(contexts: Contexts, chunk: Chunk, choices: seq<ChunkChoice>): (r: Contexts)
    ensures |r| == |choices|
    ensures forall k :: 0 <= k < |r| ==> r[k].choiceIndex == choices[k].index
  {
    seq(|choices|, k requires 0 <= k < |choices| => BuildContext(contexts, chunk, choices[k]))
  }

  function Pending(contexts: Contexts, event: MessageEvent): Contexts {
    if !event.phase.InProgress? && !event.phase.End? then []
    else if ChoicesOf(event) != [] then KeepHeld(BuildContexts(contexts, event.chunk.value, ChoicesOf(event)))
    else if event.phase.End? then KeepHeld(contexts)
    else []
  }

  function ProgressOf(chain: seq<Interceptor>, depth: nat, contexts: Contexts, event: MessageEvent): (r: Progress)
    ensures |r.choices| == |ChoicesOf(event)|
  {
    HandleAll(chain, depth, Pending(contexts, event), Progress(contexts, ChoicesOf(event), [], []),
              event.phase.End?, IsMessageEnd(event))
  }

  function WithChoices(event: MessageEvent, choices: seq<ChunkChoice>): MessageEvent {
    if event.chunk.Some? then event.(chunk := Some(event.chunk.value.(choices := choices))) else event
  }

  function EventsBefore(event: MessageEvent, p: Progress): seq<MessageEvent> {
    EventFor(event, InProgress, p.flushes) + if event.phase.End? then EventFor(event, InProgressPartial, p.replays) else []
  }

  function EventsAfter(event: MessageEvent, p: Progress): seq<MessageEvent> {
    if event.phase.End? then [] else EventFor(event, InProgressPartial, p.replays)
  }

  /** Everything one call of `publish` sends, in order. */
  function Published(event: MessageEvent, p: Progress): seq<MessageEvent> {
    EventsBefore(event, p) + [WithChoices(event, p.choices)] + EventsAfter(event, p)
  }

  function StoreProcessed(chain: seq<Interceptor>, depth: nat, store: Store, event: MessageEvent): Store {
    var contexts := ContextsOf(store, event.eventId);
    if Pending(contexts, event) == [] then store
    else store[event.eventId := ProgressOf(chain, depth, contexts, event).contexts]
  }

  function StoreAfter(chain: seq<Interceptor>, depth: nat, store: Store, event: MessageEvent): Store {
    if event.phase.End? then store - {event.eventId}
    else StoreProcessed(chain, depth, store, event)
  }

  class MessagePublisher {
    const executor: InterceptorExecutor
    /** `_event_id2choice_index2interception_context` */
    var contexts: Store
    /** The event channel: what has been published, in sequence order. */
    var channel: seq<MessageEvent>

    constructor (executor: InterceptorExecutor)
      ensures this.executor == executor && contexts == map[] && channel == []
    {
      this.executor := executor;
      contexts := map[];
      channel := [];
    }

    method SaveInterceptionContext(eventId: string, ctx: InterceptionContext)
      modifies `contexts
      ensures contexts == old(contexts)[eventId := Save(ContextsOf(old(contexts), eventId), ctx)]
    {
      contexts := contexts[eventId := Save(ContextsOf(contexts, eventId), ctx)];
    }

    /** The contexts with held text, in the order the event visits them. */
    method CollectPending(event: MessageEvent) returns (pending: Contexts)
      ensures pending == Pending(ContextsOf(contexts, event.eventId), event)
    {
      ghost var stored := ContextsOf(contexts, event.eventId);
      pending := [];
      if !event.phase.InProgress? && !event.phase.End? {
        return;
      }
      var choices := ChoicesOf(event);
      var built: Contexts := [];
      if choices != [] {
        for k := 0 to |choices|
          invariant built == BuildContexts(stored, event.chunk.value, choices)[..k]
        {
          built := built + [BuildContext(ContextsOf(contexts, event.eventId), event.chunk.value, choices[k])];
        }
        assert built == BuildContexts(stored, event.chunk.value, choices);
      } else if event.phase.End? {
        built := ContextsOf(contexts, event.eventId);
      }
      for k := 0 to |built|
        invariant pending == KeepHeld(built[..k])
      {
        assert built[..k + 1][..k] == built[..k];
        if HasHeld(built[k]) {
          pending := pending + [built[k]];
        }
      }
      assert built[..|built|] == built;
    }

    /** One turn of the loop over the pending contexts: hold the text, or release
        it and ask for a replay. */
    method HandleContext(depth: nat, ctx: InterceptionContext, choices: seq<ChunkChoice>, isEnd: bool, isMessageEnd: bool)
      returns (saved: InterceptionContext, choices': seq<ChunkChoice>,
               flush: Option<MessageModified>, replay: Option<MessageModified>)
      ensures var h := Handle(executor.interceptors, depth, ctx, DeltaAt(choices, ctx.choiceIndex), isEnd, isMessageEnd);
              saved == h.saved && flush == h.flush && replay == h.replay
              && choices' == ReplaceDelta(choices, ctx.choiceIndex, h.delta)
    {
      var p := Position(choices, ctx.choiceIndex);
      saved, choices', flush, replay := ctx, choices, None, None;
      var shouldHold := false;
      if !isMessageEnd {
        shouldHold := executor.MessageShouldContinueIntercept(depth, ctx);
      }
      if shouldHold {
        if p >= 0 {
          choices' := choices[p := choices[p].(delta := ClearChannels(choices[p].delta))];
        }
        return;
      }

      var modified := executor.MessageBeforeFlushIntercepted(depth, ctx, isMessageEnd);
      var display := if modified.display.Some? then modified.display.value else ctx.heldDisplay;
      var context := if modified.context.Some? then modified.context.value else ctx.heldContext;
      if p >= 0 {
        choices' := choices[p := choices[p].(delta := ReleaseDelta(choices[p].delta, display, context, modified.params))];
      }
      saved := ctx.(heldDisplay := EMPTY_CONTENT, heldContext := EMPTY_CONTENT,
                    receivedDisplay := MergeContent(ctx.receivedDisplay, display),
                    receivedContext := MergeContent(ctx.receivedContext, context));
      if isEnd {
        flush := Some(MessageModified(Some(display), Some(context), modified.params));
      }
      replay := executor.MessageBuildReplayContent(depth, saved.receivedDisplay, saved.receivedContext, isMessageEnd);
      if replay.Some? {
        if replay.value.display.Some? {
          saved := saved.(receivedDisplay := replay.value.display.value);
        }
        if replay.value.context.Some? {
          saved := saved.(receivedContext := replay.value.context.value);
        }
      }
    }

    /** One turn of the loop, with its three effects: the context is saved, the
        chunk's delta rewritten, the flush and replay entries appended. */
    method HandleNext(depth: nat, eventId: string, ctx: InterceptionContext, isEnd: bool, isMessageEnd: bool,
                      choices: seq<ChunkChoice>, flushes: seq<Patch>, replays: seq<Patch>)
      returns (choices': seq<ChunkChoice>, flushes': seq<Patch>, replays': seq<Patch>)
      modifies `contexts
      ensures Progress(ContextsOf(contexts, eventId), choices', flushes', replays')
           == HandleOne(executor.interceptors, depth, Progress(ContextsOf(old(contexts), eventId), choices, flushes, replays),
                        ctx, isEnd, isMessageEnd)
      ensures contexts == old(contexts)[eventId := ContextsOf(contexts, eventId)]
    {
      var saved, rewritten, flush, replay := HandleContext(depth, ctx, choices, isEnd, isMessageEnd);
      choices' := rewritten;
      flushes' := flushes + OnePatch(ctx, flush);
      replays' := replays + OnePatch(ctx, replay);
      SaveInterceptionContext(eventId, saved);
    }

    /** The loop over the pending contexts. */
    method HandlePending(depth: nat, eventId: string, pending: Contexts, choices: seq<ChunkChoice>, isEnd: bool, isMessageEnd: bool)
      returns (choices': seq<ChunkChoice>, flushes: seq<Patch>, replays: seq<Patch>)
      modifies `contexts
      ensures Progress(ContextsOf(contexts, eventId), choices', flushes, replays)
           == HandleAll(executor.interceptors, depth, pending,
                        Progress(ContextsOf(old(contexts), eventId), choices, [], []), isEnd, isMessageEnd)
      ensures contexts == if pending == [] then old(contexts)
                          else old(contexts)[eventId := ContextsOf(contexts, eventId)]
    {
      hide HandleOne;
      ghost var chain := executor.interceptors;
      ghost var first := contexts;
      ghost var start := Progress(ContextsOf(first, eventId), choices, [], []);
      ghost var reached := start;
      choices', flushes, replays := choices, [], [];
      for k := 0 to |pending|
        invariant executor.interceptors == chain
        invariant reached == HandleAll(chain, depth, pending[..k], start, isEnd, isMessageEnd)
        invariant reached == Progress(ContextsOf(contexts, eventId), choices', flushes, replays)
        invariant contexts == if k == 0 then first else first[eventId := reached.contexts]
      {
        HandleAllStep(chain, depth, pending, k, start, isEnd, isMessageEnd);
        choices', flushes, replays :=
          HandleNext(depth, eventId, pending[k], isEnd, isMessageEnd, choices', flushes, replays);
        reached := HandleOne(chain, depth, reached, pending[k], isEnd, isMessageEnd);
      }
      assert pending[..|pending|] == pending;
    }

    /** The flush and replay events that go before and after the current one. */
    method BuildExtraEvents(event: MessageEvent, p: Progress) returns (before: seq<MessageEvent>, after: seq<MessageEvent>)
      ensures before == EventsBefore(event, p) && after == EventsAfter(event, p)
    {
      before, after := [], [];
      if p.flushes != [] {
        before := before + [ContentEvent(event, InProgress, p.flushes)];
      }
      if p.replays != [] {
        if event.phase.End? {
          before := before + [ContentEvent(event, InProgressPartial, p.replays)];
        } else {
          after := after + [ContentEvent(event, InProgressPartial, p.replays)];
        }
      }
    }

    /** `_process_message_event`. The chunk's deltas are rewritten; the events to
        send before and after the current one are returned. */
    method ProcessMessageEvent(depth: nat, event: MessageEvent)
      returns (before: seq<MessageEvent>, current: MessageEvent, after: seq<MessageEvent>)
      modifies `contexts
      ensures contexts == StoreProcessed(executor.interceptors, depth, old(contexts), event)
      ensures var p := ProgressOf(executor.interceptors, depth, ContextsOf(old(contexts), event.eventId), event);
              before == EventsBefore(event, p) && current == WithChoices(event, p.choices) && after == EventsAfter(event, p)
    {
      before, current, after := [], event, [];
      var pending := CollectPending(event);
      if pending == [] {
        return;
      }
      var choices, flushes, replays :=
        HandlePending(depth, event.eventId, pending, ChoicesOf(event), event.phase.End?, IsMessageEnd(event));
      current := WithChoices(event, choices);
      before, after := BuildExtraEvents(event, Progress(ContextsOf(contexts, event.eventId), choices, flushes, replays));
    }

    method Publish(depth: nat, event: MessageEvent)
      modifies `contexts, `channel
      ensures channel == old(channel)
           + Published(event, ProgressOf(executor.interceptors, depth, ContextsOf(old(contexts), event.eventId), event))
      ensures contexts == StoreAfter(executor.interceptors, depth, old(contexts), event)
    {
      var before, current, after := ProcessMessageEvent(depth, event);
      channel := channel + before;
      channel := channel + [current];
      channel := channel + after;
      assert channel == old(channel) + (before + [current] + after);
      if event.phase.End? {
        contexts := contexts - {event.eventId};
        assert contexts == old(contexts) - {event.eventId};
      }
    }
  }
}
