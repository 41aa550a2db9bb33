/** Rebuilding the final message of a stream from its published events
    (`MessageEvent.create_final_event_from_events`). */
module MessageFold {
  import opened Common
  import opened Messages

  const FRESH_MESSAGE := Message("assistant", None, None, None, None, None, None, map[], None)

  /** `_merge_message_content`: an absent delta keeps the text, any other one is appended. */
  function MergeText(accumulated: Option<string>, delta: Option<string>): Option<string> {
    if delta.None? then accumulated else Some(accumulated.GetOr("") + delta.value)
  }

  function Fallback(derived: Option<string>, raw: Option<string>): Option<string> {
    if derived.None? then raw else derived
  }

  function ApplyText(m: Message, phase: Phase, d: Delta): Message {
    if phase.InProgressPartial? then
      m.(displayContent := Fallback(d.displayContent, m.displayContent),
         displayReasoning := Fallback(d.displayReasoning, m.displayReasoning),
         contextContent := Fallback(d.contextContent, m.contextContent),
         contextReasoning := Fallback(d.contextReasoning, m.contextReasoning))
    else
      m.(content := MergeText(m.content, d.content),
         reasoning := MergeText(m.reasoning, d.reasoning),
         displayContent := MergeText(m.displayContent, Fallback(d.displayContent, d.content)),
         displayReasoning := MergeText(m.displayReasoning, Fallback(d.displayReasoning, d.reasoning)),
         contextContent := MergeText(m.contextContent, Fallback(d.contextContent, d.content)),
         contextReasoning := MergeText(m.contextReasoning, Fallback(d.contextReasoning, d.reasoning)))
  }

  function ApplyChoice(m: Message, phase: Phase, c: ChunkChoice): Message {
    var m1 := if Read(c.finishReason) != "" then m.(finishReason := c.finishReason) else m;
    var m2 := m1.(params := m1.params + c.delta.params);
    var m3 := if Read(c.delta.role) != "" then m2.(role := c.delta.role.value) else m2;
    ApplyText(m3, phase, c.delta)
  }

  /** What the chunk entries of choice `i` do to that choice's message. */
  function ApplyChoices(m: Message, phase: Phase, choices: seq<ChunkChoice>, i: int): Message {
    if choices == [] then m
    else
      var last := choices[|choices| - 1];
      var before := ApplyChoices(m, phase, choices[..|choices| - 1], i);
      if last.index == i then ApplyChoice(before, phase, last) else before
  }

  predicate CarriesText(e: MessageEvent) {
    (e.phase.InProgress? || e.phase.InProgressPartial?) && e.chunk.Some?
  }

  /** The message of choice `i` of stream `eventId` after all of `events`. */
  function Fold(events: seq<MessageEvent>, eventId: string, i: int): Message {
    if events == [] then FRESH_MESSAGE
    else
      var last := events[|events| - 1];
      var before := Fold(events[..|events| - 1], eventId, i);
      if last.eventId == eventId && CarriesText(last)
      then ApplyChoices(before, last.phase, last.chunk.value.choices, i)
      else before
  }

  function Indices(choices: seq<ChunkChoice>): set<int> {
    set c | c in choices :: c.index
  }

  function Mentioned(events: seq<MessageEvent>): set<int> {
    if events == [] then {}
    else
      var last := events[|events| - 1];
      Mentioned(events[..|events| - 1]) + if CarriesText(last) then Indices(last.chunk.value.choices) else {}
  }

  /** A derived channel equal to the raw one is not stored. */
  function StripSame(m: Message): Message {
    m.(displayContent := if m.displayContent == m.content then None else m.displayContent,
       displayReasoning := if m.displayReasoning == m.reasoning then None else m.displayReasoning,
       contextContent := if m.contextContent == m.content then None else m.contextContent,
       contextReasoning := if m.contextReasoning == m.reasoning then None else m.contextReasoning)
  }

  /** The texts a reader of the stored message sees: derived channel first, raw one else. */
  function DisplayText(m: Message): string {
    Read(Fallback(m.displayContent, m.content))
  }

  function ContextText(m: Message): string {
    Read(Fallback(m.contextContent, m.content))
  }

  /** STARTED, then process events with a chunk each, then END. */
  predicate ValidStream(events: seq<MessageEvent>) {
    && |events| >= 2
    && events[0].phase == Started
    && events[|events| - 1].phase == End
    && forall k | 1 <= k < |events| - 1 :: CarriesText(events[k])
  }

  function CompletionOf(events: seq<MessageEvent>): Completion
    requires events != []
  {
    map i | i in Mentioned(events) :: StripSame(Fold(events, events[0].eventId, i))
  }

  function At(idx2choice: map<int, Message>, i: int): Message {
    if i in idx2choice then idx2choice[i] else FRESH_MESSAGE
  }

  /** The inner loop: the choices of one chunk. */
  method FoldChunk(before: map<int, Message>, phase: Phase, choices: seq<ChunkChoice>)
    returns (idx2choice: map<int, Message>)
    ensures idx2choice.Keys == before.Keys + Indices(choices)
    ensures forall i :: At(idx2choice, i) == ApplyChoices(At(before, i), phase, choices, i)
  {
    idx2choice := before;
    for c := 0 to |choices|
      invariant idx2choice.Keys == before.Keys + Indices(choices[..c])
      invariant forall i :: At(idx2choice, i) == ApplyChoices(At(before, i), phase, choices[..c], i)
    {
      var choice := choices[c];
      assert choices[..c + 1][..c] == choices[..c];
      assert Indices(choices[..c + 1]) == Indices(choices[..c]) + {choice.index};
      idx2choice := idx2choice[choice.index := ApplyChoice(At(idx2choice, choice.index), phase, choice)];
    }
    assert choices[..|choices|] == choices;
  }

  /** `validate_stream_phases`, on a nonempty stream. */
  method ValidateStreamPhases(events: seq<MessageEvent>) returns (ok: bool)
    requires events != []
    ensures ok <==> && events[0].phase == Started
                    && events[|events| - 1].phase == End
                    && forall k :: 1 <= k < |events| - 1 ==> events[k].phase.InProgress? || events[k].phase.InProgressPartial?
  {
    if events[0].phase != Started || events[|events| - 1].phase != End {
      return false;
    }
    for k := 1 to |events| - 1
      invariant forall j :: 1 <= j < k ==> events[j].phase.InProgress? || events[j].phase.InProgressPartial?
    {
      if !events[k].phase.InProgress? && !events[k].phase.InProgressPartial? {
        return false;
      }
    }
    return true;
  }

  /** The main loop: every choice's message, or nothing if a process event has no chunk. */
  method FoldEvents(events: seq<MessageEvent>, eventId: string) returns (r: Option<map<int, Message>>)
    requires forall e :: e in events ==> e.eventId == eventId
    ensures r.Some? <==> forall e :: e in events && !e.phase.Started? && !e.phase.End? ==> e.chunk.Some?
    ensures r.Some? && (forall e :: e in events ==> !e.phase.Final?) ==>
              r.value.Keys == Mentioned(events) && forall i :: At(r.value, i) == Fold(events, eventId, i)
  {
    var idx2choice: map<int, Message> := map[];
    for k := 0 to |events|
      invariant forall j :: 0 <= j < k && !events[j].phase.Started? && !events[j].phase.End? ==> events[j].chunk.Some?
      invariant (forall e :: e in events ==> !e.phase.Final?) ==>
                  idx2choice.Keys == Mentioned(events[..k]) && forall i :: At(idx2choice, i) == Fold(events[..k], eventId, i)
    {
      var item := events[k];
      assert events[..k + 1][..k] == events[..k];
      assert item in events;
      if item.phase.Started? || item.phase.End? {
        continue;
      }
      if item.chunk.None? {
        return None;
      }
      idx2choice := FoldChunk(idx2choice, item.phase, item.chunk.value.choices);
    }
    assert events[..|events|] == events;
    return Some(idx2choice);
  }

  // ---- what the FINAL message says ------------------------------------------------------

  /** One entry of a choice, as a delta or as a partial. */
  datatype Entry = Entry(partial: bool, choice: ChunkChoice)

  function ChunkEntries(choices: seq<ChunkChoice>, partial: bool, i: int): seq<Entry> {
    if choices == [] then []
    else
      var front, last := ChunkEntries(choices[..|choices| - 1], partial, i), choices[|choices| - 1];
      if last.index == i then front + [Entry(partial, last)] else front
  }

  /** All entries of choice `i` in a stream, in the order they were sent. */
  function EntriesOf(events: seq<MessageEvent>, i: int): seq<Entry> {
    if events == [] then []
    else
      var front, last := EntriesOf(events[..|events| - 1], i), events[|events| - 1];
      if last.phase.InProgress? && last.chunk.Some? then front + ChunkEntries(last.chunk.value.choices, false, i)
      else if last.phase.InProgressPartial? && last.chunk.Some? then front + ChunkEntries(last.chunk.value.choices, true, i)
      else front
  }

  function RawContent(d: Delta): Option<string> { d.content }
  function RawReasoning(d: Delta): Option<string> { d.reasoning }
  function DisplayedContent(d: Delta): Option<string> { d.displayContent }
  function DisplayedReasoning(d: Delta): Option<string> { d.displayReasoning }
  function ContextualContent(d: Delta): Option<string> { d.contextContent }
  function ContextualReasoning(d: Delta): Option<string> { d.contextReasoning }

  /** A raw channel: the texts of the deltas, one after the other. */
  function Said(entries: seq<Entry>, raw: Delta -> Option<string>): string {
    if entries == [] then ""
    else
      var front, last := Said(entries[..|entries| - 1], raw), entries[|entries| - 1];
      if last.partial then front else front + Read(raw(last.choice.delta))
  }

  /** A derived channel: a delta adds its own text or, without one, the raw one; a partial
      that has the channel puts its text in place of all before. */
  function Sent(entries: seq<Entry>, derived: Delta -> Option<string>, raw: Delta -> Option<string>): string {
    if entries == [] then ""
    else
      var front, d := Sent(entries[..|entries| - 1], derived, raw), entries[|entries| - 1].choice.delta;
      if entries[|entries| - 1].partial then (if derived(d).Some? then derived(d).value else front)
      else front + Read(if derived(d).Some? then derived(d) else raw(d))
  }

  /** The last finish reason that is not empty. */
  function LastFinish(entries: seq<Entry>): Option<string> {
    if entries == [] then None
    else
      var c := entries[|entries| - 1].choice;
      if c.finishReason.Some? && c.finishReason.value != "" then c.finishReason else LastFinish(entries[..|entries| - 1])
  }

  /** The last role that is not empty. */
  function LastRole(entries: seq<Entry>): string {
    if entries == [] then "assistant"
    else
      var d := entries[|entries| - 1].choice.delta;
      if d.role.Some? && d.role.value != "" then d.role.value else LastRole(entries[..|entries| - 1])
  }

  function AllParams(entries: seq<Entry>): Params {
    if entries == [] then map[] else AllParams(entries[..|entries| - 1]) + entries[|entries| - 1].choice.delta.params
  }

  /** A raw channel of a message and the two derived from it, as a reader finds them. */
  predicate Channel(text: Option<string>, display: Option<string>, context: Option<string>, entries: seq<Entry>,
                    raw: Delta -> Option<string>, displayed: Delta -> Option<string>, contextual: Delta -> Option<string>)
  {
    && Read(text) == Said(entries, raw)
    && Read(Fallback(display, text)) == Sent(entries, displayed, raw)
    && Read(Fallback(context, text)) == Sent(entries, contextual, raw)
  }

  /** What a reader finds in the message of a choice with these entries. */
  predicate Tells(m: Message, entries: seq<Entry>) {
    && Channel(m.content, m.displayContent, m.contextContent, entries, RawContent, DisplayedContent, ContextualContent)
    && Channel(m.reasoning, m.displayReasoning, m.contextReasoning, entries, RawReasoning, DisplayedReasoning, ContextualReasoning)
    && m.finishReason == LastFinish(entries) && m.role == LastRole(entries) && m.params == AllParams(entries)
  }

  /** Wherever a raw text exists, its derived texts exist. */
  predicate Derived(m: Message) {
    && (m.content.Some? ==> m.displayContent.Some? && m.contextContent.Some?)
    && (m.reasoning.Some? ==> m.displayReasoning.Some? && m.contextReasoning.Some?)
  }

  lemma {:induction false} ChannelStep(text: Option<string>, display: Option<string>, context: Option<string>, entries: seq<Entry>, e: Entry,
                                       raw: Delta -> Option<string>, displayed: Delta -> Option<string>, contextual: Delta -> Option<string>)
    requires Channel(text, display, context, entries, raw, displayed, contextual)
    requires text.Some? ==> display.Some? && context.Some?
    ensures var d := e.choice.delta;
            if e.partial then
              Channel(text, Fallback(displayed(d), display), Fallback(contextual(d), context), entries + [e], raw, displayed, contextual)
            else
              Channel(MergeText(text, raw(d)), MergeText(display, Fallback(displayed(d), raw(d))), MergeText(context, Fallback(contextual(d), raw(d))),
                      entries + [e], raw, displayed, contextual)
  {
    hide Said, Sent;
    RawAdded(entries, e, raw);
    SentAdded(entries, e, displayed, raw);
    SentAdded(entries, e, contextual, raw);
  }

  lemma {:induction false} OneEntryTells(m: Message, entries: seq<Entry>, phase: Phase, c: ChunkChoice)
    requires Tells(m, entries) && Derived(m) && (phase.InProgress? || phase.InProgressPartial?)
    ensures var m' := ApplyChoice(m, phase, c);
            Tells(m', entries + [Entry(phase.InProgressPartial?, c)]) && Derived(m')
  {
    hide Said, Sent, LastFinish, LastRole, AllParams, EntriesOf, Channel;
    var e := Entry(phase.InProgressPartial?, c);
    ChannelStep(m.content, m.displayContent, m.contextContent, entries, e, RawContent, DisplayedContent, ContextualContent);
    ChannelStep(m.reasoning, m.displayReasoning, m.contextReasoning, entries, e, RawReasoning, DisplayedReasoning, ContextualReasoning);
    RestAdded(entries, e);
  }

  lemma {:induction false} RawAdded(entries: seq<Entry>, e: Entry, raw: Delta -> Option<string>)
    ensures Said(entries + [e], raw) == if e.partial then Said(entries, raw) else Said(entries, raw) + Read(raw(e.choice.delta))
  {
    assert (entries + [e])[..|entries|] == entries;
  }

  lemma {:induction false} SentAdded(entries: seq<Entry>, e: Entry, derived: Delta -> Option<string>, raw: Delta -> Option<string>)
    ensures var before, d := Sent(entries, derived, raw), e.choice.delta;
            Sent(entries + [e], derived, raw) == if e.partial then (if derived(d).Some? then derived(d).value else before)
                                                 else before + Read(if derived(d).Some? then derived(d) else raw(d))
  {
    assert (entries + [e])[..|entries|] == entries;
  }

  lemma {:induction false} RestAdded(entries: seq<Entry>, e: Entry)
    ensures LastFinish(entries + [e]) == if e.choice.finishReason.GetOr("") != "" then e.choice.finishReason else LastFinish(entries)
    ensures LastRole(entries + [e]) == if e.choice.delta.role.GetOr("") != "" then e.choice.delta.role.value else LastRole(entries)
    ensures AllParams(entries + [e]) == AllParams(entries) + e.choice.delta.params
  {
    assert (entries + [e])[..|entries|] == entries;
  }

  lemma {:induction false} ChunkTells(m: Message, entries: seq<Entry>, phase: Phase, choices: seq<ChunkChoice>, i: int)
    requires Tells(m, entries) && Derived(m) && (phase.InProgress? || phase.InProgressPartial?)
    ensures var m' := ApplyChoices(m, phase, choices, i);
            Tells(m', entries + ChunkEntries(choices, phase.InProgressPartial?, i)) && Derived(m')
  {
    hide Tells, Derived, ApplyChoice;
    if choices == [] {
      assert entries + [] == entries;
    } else {
      var front, last := choices[..|choices| - 1], choices[|choices| - 1];
      ChunkTells(m, entries, phase, front, i);
      if last.index == i {
        var before := entries + ChunkEntries(front, phase.InProgressPartial?, i);
        OneEntryTells(ApplyChoices(m, phase, front, i), before, phase, last);
        assert entries + (ChunkEntries(front, phase.InProgressPartial?, i) + [Entry(phase.InProgressPartial?, last)])
            == before + [Entry(phase.InProgressPartial?, last)];
      }
    }
  }

  lemma {:induction false} FoldTells(events: seq<MessageEvent>, eventId: string, i: int)
    requires forall e :: e in events ==> e.eventId == eventId
    ensures Tells(Fold(events, eventId, i), EntriesOf(events, i)) && Derived(Fold(events, eventId, i))
  {
    hide Tells, Derived, ApplyChoices, ChunkEntries;
    if events == [] {
      FreshTells();
    } else {
      var front, last := events[..|events| - 1], events[|events| - 1];
      assert last in events && forall e :: e in front ==> e in events;
      FoldTells(front, eventId, i);
      if CarriesText(last) {
        ChunkTells(Fold(front, eventId, i), EntriesOf(front, i), last.phase, last.chunk.value.choices, i);
      }
    }
  }

  lemma {:induction false} FreshTells()
    ensures Tells(FRESH_MESSAGE, []) && Derived(FRESH_MESSAGE)
  {
  }

  lemma {:induction false} StrippedTells(m: Message, entries: seq<Entry>)
    requires Tells(m, entries) && Derived(m)
    ensures Tells(StripSame(m), entries)
  {
  }

  lemma {:induction false} MentionedHasEntries(events: seq<MessageEvent>, i: int)
    ensures i in Mentioned(events) <==> EntriesOf(events, i) != []
  {
    if events != [] {
      var last := events[|events| - 1];
      MentionedHasEntries(events[..|events| - 1], i);
      if CarriesText(last) {
        NamedHasEntries(last.chunk.value.choices, last.phase.InProgressPartial?, i);
      }
    }
  }

  lemma {:induction false} NamedHasEntries(choices: seq<ChunkChoice>, partial: bool, i: int)
    ensures i in Indices(choices) <==> ChunkEntries(choices, partial, i) != []
  {
    if choices != [] {
      var front, last := choices[..|choices| - 1], choices[|choices| - 1];
      NamedHasEntries(front, partial, i);
      assert choices == front + [last];
      assert Indices(choices) == Indices(front) + {last.index};
    }
  }

  /** The completion holds a message for exactly the choices with an entry, and every message
      tells what its entries said. */
  ghost predicate CompletionTells(events: seq<MessageEvent>, completion: Completion) {
    && (forall i :: i in completion <==> EntriesOf(events, i) != [])
    && (forall i :: i in completion ==> Tells(completion[i], EntriesOf(events, i)))
  }

  lemma {:induction false} CompletionIsTold(events: seq<MessageEvent>)
    requires events != [] && forall e :: e in events ==> e.eventId == events[0].eventId
    ensures CompletionTells(events, CompletionOf(events))
  {
    hide Tells, Derived, Fold, EntriesOf, StripSame;
    forall i ensures i in CompletionOf(events) <==> EntriesOf(events, i) != [] {
      MentionedHasEntries(events, i);
    }
    forall i | i in CompletionOf(events) ensures Tells(CompletionOf(events)[i], EntriesOf(events, i)) {
      FoldTells(events, events[0].eventId, i);
      StrippedTells(Fold(events, events[0].eventId, i), EntriesOf(events, i));
    }
  }

  method CreateFinalEventFromEvents(events: seq<MessageEvent>) returns (r: Result<MessageEvent>)
    requires forall e :: e in events ==> e.eventId == events[0].eventId
    ensures events == [] ==> r.Err?
    ensures events != [] && events[|events| - 1].phase == Final ==>
              var last := events[|events| - 1];
              if last.completion.Some? then r == Ok(last) else r.Err?
    ensures events != [] && events[|events| - 1].phase != Final ==>
              if ValidStream(events)
              then r == Ok(MessageEvent(events[0].eventId, Final, None, Some(CompletionOf(events))))
              else r.Err?
    ensures events != [] && events[|events| - 1].phase != Final && r.Ok? ==>
              && r.value.eventId == events[0].eventId && r.value.phase == Final && r.value.chunk.None?
              && r.value.completion.Some? && CompletionTells(events, r.value.completion.value)
  {
    if events == [] {
      return Err("no events");
    }
    var last := events[|events| - 1];
    if last.phase == Final {
      return if last.completion.None? then Err("FINAL without completion") else Ok(last);
    }
    var valid := ValidateStreamPhases(events);
    if !valid {
      return Err("stream must run from STARTED to END over process events");
    }
    var idx2choice := FoldEvents(events, events[0].eventId);
    if idx2choice.None? {
      return Err("process event without chunk");
    }
    var completion := map i | i in idx2choice.value :: StripSame(idx2choice.value[i]);
    assert completion == CompletionOf(events) by {
      forall i | i in Mentioned(events) ensures idx2choice.value[i] == Fold(events, events[0].eventId, i) {
        assert At(idx2choice.value, i) == Fold(events, events[0].eventId, i);
      }
    }
    CompletionIsTold(events);
    return Ok(MessageEvent(events[0].eventId, Final, None, Some(completion)));
  }

  /** Dropping a redundant channel never changes what a reader sees. */
  lemma {:induction false} StripSameKeepsText(m: Message)
    ensures DisplayText(StripSame(m)) == DisplayText(m) && ContextText(StripSame(m)) == ContextText(m)
  {
  }
}
