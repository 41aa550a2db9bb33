/** What the page says: the text of every message, the labels of compressions and tool
    calls, the questions and the end of a run. */
module ChatTexts {
  import opened Common
  import opened ChatBlocks
  import opened ChatLanes
  import opened ChatPages

  // ---- the block of a lane -------------------------------------------------------------------

  /** The blocks of a message, compression or activity. */
  function Shown(blocks: Blocks, l: Lane): Blocks {
    Filter((b: Block) => LaneOf(b) == l, blocks)
  }

  lemma {:induction false} NoneShown(blocks: Blocks, l: Lane)
    requires forall x :: LaneOf(x) == l ==> x !in blocks
    ensures Shown(blocks, l) == []
  {
    hide LaneOf;
    FilterAllOrNone((b: Block) => LaneOf(b) == l, blocks, false);
  }

  lemma {:induction false} OneShown(blocks: Blocks, l: Lane, b: Block)
    requires WellFormed(blocks) && l != Kept && b in blocks && LaneOf(b) == l
    ensures Shown(blocks, l) == [b]
  {
    hide LaneOf, RightRole;
    var front, last := blocks[..|blocks| - 1], blocks[|blocks| - 1];
    assert blocks == front + [last];
    if LaneOf(last) == l {
      forall x | x in front ensures LaneOf(x) != l {
        var k :| 0 <= k < |front| && front[k] == x;
        assert blocks[k] == x;
      }
      NoneShown(front, l);
    } else {
      assert b in front;
      OneShown(front, l, b);
    }
  }

  /** An event of another lane leaves the block of this one alone. */
  lemma {:induction false} ShownStays(blocks: Blocks, e: Event, l: Lane)
    requires WellFormed(blocks) && l != Kept && EventLane(e) != l
    ensures WellFormed(ApplyEvent(blocks, e)) && Shown(ApplyEvent(blocks, e), l) == Shown(blocks, l)
  {
    hide WellFormed, LaneOf, ApplyEvent, Shown, Keep, Shape;
    if EventLane(e) == Kept {
      KeptStep(blocks, e);
    } else {
      OwnStep(blocks, e);
    }
    ShownSame(blocks, ApplyEvent(blocks, e), l);
  }

  lemma {:induction false} ShownSame(before: Blocks, after: Blocks, l: Lane)
    requires WellFormed(before) && WellFormed(after) && l != Kept
    requires forall x :: LaneOf(x) == l ==> (x in after <==> x in before)
    ensures Shown(after, l) == Shown(before, l)
  {
    hide WellFormed, LaneOf;
    if b :| b in before && LaneOf(b) == l {
      OneShown(before, l, b);
      OneShown(after, l, b);
    } else {
      NoneShown(before, l);
      NoneShown(after, l);
    }
  }

  lemma {:induction false} PageWellFormed(events: seq<Event>)
    ensures WellFormed(ToBlocks([], events))
  {
    hide WellFormed, ApplyEvent, Keep, Shape;
    if events == [] {
      NothingShown(events);
    } else {
      PageWellFormed(events[..|events| - 1]);
      PagesGrow(events);
      if EventLane(events[|events| - 1]) == Kept {
        KeptStep(Live(events[..|events| - 1]), events[|events| - 1]);
      } else {
        OwnStep(Live(events[..|events| - 1]), events[|events| - 1]);
      }
    }
  }

  // ---- messages ----------------------------------------------------------------------------------

  /** A partial or the final of the message: it says the whole text. */
  predicate SaysAll(e: Event, m: string) {
    (e.MessagePartial? || e.MessageFinal?) && e.id == m
  }

  predicate IsDelta(e: Event, m: string) {
    e.MessageDelta? && e.id == m
  }

  /** The texts of the deltas of a message, in the order they came. */
  function Deltas(events: seq<Event>, m: string): string {
    if events == [] then ""
    else
      var before, last := Deltas(events[..|events| - 1], m), events[|events| - 1];
      if last.MessageDelta? && last.id == m then before + last.text else before
  }

  /** The first `k` events end in the last partial or final of the message, if there is one. */
  predicate SaidUpTo(events: seq<Event>, m: string, k: nat) {
    && k <= |events| && (k > 0 ==> SaysAll(events[k - 1], m))
    && forall j | k <= j < |events| :: !SaysAll(events[j], m)
  }

  /** Nothing but empty texts came of the message since then. */
  predicate SaidNothing(events: seq<Event>, m: string, k: nat)
    requires SaidUpTo(events, m, k)
  {
    && (forall j | k <= j < |events| :: !IsDelta(events[j], m))
    && (k > 0 ==> events[k - 1].text == "" && events[k - 1].reasoning == "")
  }

  /** The text of the last partial or final, with the deltas that came after it. */
  function TextFrom(events: seq<Event>, m: string, k: nat): Block
    requires SaidUpTo(events, m, k) && LastOf(events, MessageLane(m)).Some?
  {
    Text(MessageId(m), (if k > 0 then events[k - 1].text else "") + Deltas(events[k..], m), if k > 0 then events[k - 1].reasoning else "",
         LastOf(events, MessageLane(m)).value)
  }

  /** For every stream: the text a page shows of a message is that of its last partial or
      final, if there is one, with the deltas that came after it in the order they came, and
      there is no text block of the message exactly if all that is empty and nothing came
      after. */
  lemma {:induction false} TextIs(events: seq<Event>, m: string, k: nat)
    requires SaidUpTo(events, m, k)
    ensures SaidNothing(events, m, k) ==> Shown(ToBlocks([], events), MessageLane(m)) == []
    ensures !SaidNothing(events, m, k) ==>
              LastOf(events, MessageLane(m)).Some? && Shown(ToBlocks([], events), MessageLane(m)) == [TextFrom(events, m, k)]
  {
    hide ApplyEvent, WellFormed, Shown, SaysAll, SaidNothing, TextFrom, ToBlocks;
    if events == [] {
      NothingShown(events);
      NoBlocks(MessageLane(m));
      NothingSaid(events, m);
    } else {
      var front, e := events[..|events| - 1], events[|events| - 1];
      PagesGrow(events);
      PageWellFormed(front);
      if k == |events| {
        SayAll(ToBlocks([], front), e, m);
        AllSaid(events, m);
      } else {
        assert forall j :: k <= j < |front| ==> front[j] == events[j];
        TextIs(front, m, k);
        NotSaid(e, m);
        if EventLane(e) == MessageLane(m) {
          AfterDelta(events, m, k);
          AddDelta(ToBlocks([], front), e, m);
        } else {
          AfterOther(events, m, k);
          ShownStays(ToBlocks([], front), e, MessageLane(m));
        }
      }
    }
  }

  lemma {:induction false} NothingSaid(events: seq<Event>, m: string)
    requires events == []
    ensures SaidNothing(events, m, 0)
  {
  }

  lemma {:induction false} AllSaid(events: seq<Event>, m: string)
    requires events != [] && SaysAll(events[|events| - 1], m)
    ensures var e := events[|events| - 1];
            && LastOf(events, MessageLane(m)) == Some(e) && (SaidNothing(events, m, |events|) <==> e.text == "" && e.reasoning == "")
            && TextFrom(events, m, |events|) == Text(MessageId(m), e.text, e.reasoning, e)
  {
    assert events[|events|..] == [];
  }

  lemma {:induction false} DeltasGrow(events: seq<Event>, m: string, k: nat)
    requires k < |events|
    ensures Deltas(events[k..], m) == Deltas(events[..|events| - 1][k..], m) + if IsDelta(events[|events| - 1], m) then events[|events| - 1].text else ""
  {
    var later := events[k..];
    assert later[..|later| - 1] == events[..|events| - 1][k..] && later[|later| - 1] == events[|events| - 1];
  }

  /** A delta is added to the text said so far. */
  lemma {:induction false} AfterDelta(events: seq<Event>, m: string, k: nat)
    requires events != [] && SaidUpTo(events, m, k) && k < |events| && SaidUpTo(events[..|events| - 1], m, k) && IsDelta(events[|events| - 1], m)
    ensures var front, e, l := events[..|events| - 1], events[|events| - 1], MessageLane(m);
            && !SaidNothing(events, m, k) && LastOf(events, l) == Some(e)
            && (if SaidNothing(front, m, k) then TextFrom(events, m, k) == Text(MessageId(m), e.text, "", e)
                else LastOf(front, l).Some? ==>
                  TextFrom(events, m, k) == Text(MessageId(m), TextFrom(front, m, k).content + e.text, TextFrom(front, m, k).reasoning, e))
  {
    hide SaysAll, Deltas;
    var front := events[..|events| - 1];
    DeltasGrow(events, m, k);
    if SaidNothing(front, m, k) {
      NoDeltas(front[k..], m);
    }
  }

  /** Any other event leaves it. */
  lemma {:induction false} AfterOther(events: seq<Event>, m: string, k: nat)
    requires events != [] && SaidUpTo(events, m, k) && k < |events| && SaidUpTo(events[..|events| - 1], m, k) && !IsDelta(events[|events| - 1], m)
    ensures var front, l := events[..|events| - 1], MessageLane(m);
            && LastOf(events, l) == LastOf(front, l) && (SaidNothing(events, m, k) <==> SaidNothing(front, m, k))
            && (LastOf(front, l).Some? ==> TextFrom(events, m, k) == TextFrom(front, m, k))
  {
    hide SaysAll, Deltas, IsDelta;
    DeltasGrow(events, m, k);
    NotSaid(events[|events| - 1], m);
    SaidSame(events, m, k);
  }

  lemma {:induction false} SaidSame(events: seq<Event>, m: string, k: nat)
    requires events != [] && SaidUpTo(events, m, k) && k < |events| && SaidUpTo(events[..|events| - 1], m, k) && !IsDelta(events[|events| - 1], m)
    ensures SaidNothing(events, m, k) <==> SaidNothing(events[..|events| - 1], m, k)
  {
    hide SaysAll, IsDelta;
    var front := events[..|events| - 1];
    assert forall j :: k <= j < |front| ==> front[j] == events[j];
  }

  lemma {:induction false} NoDeltas(events: seq<Event>, m: string)
    requires forall e :: e in events ==> !IsDelta(e, m)
    ensures Deltas(events, m) == ""
  {
    if events != [] {
      assert events[|events| - 1] in events;
      NoDeltas(events[..|events| - 1], m);
    }
  }

  lemma {:induction false} NoBlocks(l: Lane)
    ensures Shown([], l) == []
  {
  }

  lemma {:induction false} NotSaid(e: Event, m: string)
    requires !SaysAll(e, m)
    ensures EventLane(e) == MessageLane(m) <==> IsDelta(e, m)
  {
  }

  lemma {:induction false} SayAll(blocks: Blocks, e: Event, m: string)
    requires WellFormed(blocks) && SaysAll(e, m)
    ensures EventLane(e) == MessageLane(m)
    ensures Shown(ApplyEvent(blocks, e), MessageLane(m)) == if e.text == "" && e.reasoning == "" then [] else [Text(MessageId(m), e.text, e.reasoning, e)]
  {
    hide WellFormed, Keep, Shape, PutText, Shown;
    var b := Text(MessageId(m), e.text, e.reasoning, e);
    PutTextOwn(blocks, b);
    if e.text == "" && e.reasoning == "" {
      NoneShown(PutText(blocks, b), MessageLane(m));
    } else {
      OneShown(PutText(blocks, b), MessageLane(m), b);
    }
  }

  lemma {:induction false} AddDelta(blocks: Blocks, e: Event, m: string)
    requires WellFormed(blocks) && IsDelta(e, m)
    ensures var before := Shown(blocks, MessageLane(m));
            && (before == [] ==> Shown(ApplyEvent(blocks, e), MessageLane(m)) == [Text(MessageId(m), e.text, "", e)])
            && (before != [] ==> before[0].Text? && Shown(ApplyEvent(blocks, e), MessageLane(m)) ==
                                 [Text(MessageId(m), before[0].content + e.text, before[0].reasoning, e)])
  {
    hide WellFormed, Keep, Shape, Shown, RightRole;
    TextIsLane(blocks, m);
    var i := TextIndex(blocks, MessageId(m));
    var b := if i == |blocks| then Text(MessageId(m), e.text, "", e)
             else Text(blocks[i].id, blocks[i].content + e.text, blocks[i].reasoning, e);
    TextRole(b);
    PutOwn(blocks, i, b);
    OneShown(ApplyEvent(blocks, e), MessageLane(m), b);
    if i < |blocks| {
      assert blocks[i] in blocks;
      OneShown(blocks, MessageLane(m), blocks[i]);
    } else {
      NotThere(blocks, MessageLane(m));
      NoneShown(blocks, MessageLane(m));
    }
  }

  lemma {:induction false} TextRole(b: Block)
    requires b.Text? && b.id.role == MessageRole
    ensures RightRole(b)
  {
  }

  // ---- compressions and activities -------------------------------------------------------------

  /** The label an event of a compression or activity leaves: loading until the final one. */
  function LabelFor(e: Event): Block
    requires e.CompressionStart? || e.CompressionFinal? || e.ActivityIndicator?
  {
    if e.ActivityIndicator? then ActivityLabel(BlockId(e.id, ActivityRole), e)
    else CompressionLabel(BlockId(e.id, CompressionRole), if e.CompressionStart? then Loading else Normal, e)
  }

  /** A compression or activity has one label, that of its last event. */
  lemma {:induction false} LabelIs(events: seq<Event>, l: Lane)
    requires l.CompressionLane? || l.ActivityLane?
    ensures LastOf(events, l).Some? ==> EventLane(LastOf(events, l).value) == l
    ensures Shown(ToBlocks([], events), l) == if LastOf(events, l).None? then [] else [LabelFor(LastOf(events, l).value)]
  {
    hide ApplyEvent, WellFormed, Shown, ToBlocks;
    if events == [] {
      NothingShown(events);
      NoBlocks(l);
    } else {
      var front, e := events[..|events| - 1], events[|events| - 1];
      PagesGrow(events);
      PageWellFormed(front);
      LabelIs(front, l);
      if EventLane(e) == l {
        LabelSet(ToBlocks([], front), e);
      } else {
        ShownStays(ToBlocks([], front), e, l);
      }
    }
  }

  lemma {:induction false} LabelSet(blocks: Blocks, e: Event)
    requires WellFormed(blocks) && (e.CompressionStart? || e.CompressionFinal? || e.ActivityIndicator?)
    ensures Shown(ApplyEvent(blocks, e), EventLane(e)) == [LabelFor(e)]
  {
    hide WellFormed, Keep, Shape, Shown, Upsert;
    UpsertOwn(blocks, LabelFor(e));
    OneShown(Upsert(blocks, LabelFor(e)), EventLane(e), LabelFor(e));
  }
}
