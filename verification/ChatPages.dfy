/** When the page that watched the stream shows what the page shows that loads the stored
    events. */
module ChatPages {
  import opened Common
  import opened ChatBlocks
  import opened ChatLanes

  // ---- live and reloaded pages ------------------------------------------------------------------------

  function Live(events: seq<Event>): Blocks {
    ToBlocks([], events)
  }

  function Reloaded(events: seq<Event>): Blocks {
    ToBlocks([], Stored(events))
  }

  lemma {:induction false} ToBlocksAppend(start: Blocks, events: seq<Event>, e: Event)
    ensures ToBlocks(start, events + [e]) == ApplyEvent(ToBlocks(start, events), e)
    decreases |events|
  {
    hide ApplyEvent;
    if events == [] {
      assert [e][1..] == [] && [] + [e] == [e];
    } else {
      assert (events + [e])[1..] == events[1..] + [e];
      ToBlocksAppend(ApplyEvent(start, events[0]), events[1..], e);
    }
  }

  lemma {:induction false} StoredAppend(events: seq<Event>, e: Event)
    ensures Stored(events + [e]) == Stored(events) + if IsStored(e) then [e] else []
  {
    if events == [] {
      assert [e][1..] == [] && [] + [e] == [e];
    } else {
      assert (events + [e])[1..] == events[1..] + [e];
      StoredAppend(events[1..], e);
    }
  }

  lemma {:induction false} PagesGrow(events: seq<Event>)
    requires events != []
    ensures var front, e := events[..|events| - 1], events[|events| - 1];
            && Live(events) == ApplyEvent(Live(front), e)
            && Reloaded(events) == if IsStored(e) then ApplyEvent(Reloaded(front), e) else Reloaded(front)
  {
    hide ApplyEvent;
    var front, e := events[..|events| - 1], events[|events| - 1];
    assert events == front + [e];
    ToBlocksAppend([], front, e);
    StoredAppend(front, e);
    if IsStored(e) {
      ToBlocksAppend([], Stored(front), e);
    } else {
      assert Stored(front) + [] == Stored(front);
    }
  }

  /** A message or compression has at most one final event, and nothing of it comes later. */
  predicate Proper(events: seq<Event>) {
    forall i, j | 0 <= i < j < |events| :: Settles(events[i]) ==> EventLane(events[j]) != EventLane(events[i])
  }

  /** The lane has had its final event. */
  predicate Settled(events: seq<Event>, l: Lane) {
    exists e | e in events :: Settles(e) && EventLane(e) == l
  }

  /** Both pages are well formed, their kept blocks are the same, and so are the blocks of
      messages and compressions that have ended; the reloaded page has no others. */
  ghost predicate Alike(events: seq<Event>) {
    var p, r := Live(events), Reloaded(events);
    && WellFormed(p) && WellFormed(r) && Keep(p) == Keep(r)
    && (forall b :: b in r && LaneOf(b) != Kept ==> b in p && Settled(events, LaneOf(b)))
    && (forall b :: b in p && Settled(events, LaneOf(b)) ==> b in r)
  }

  lemma {:induction false} SettledGrows(events: seq<Event>, l: Lane)
    requires events != []
    ensures var e := events[|events| - 1];
            Settled(events, l) <==> Settled(events[..|events| - 1], l) || (Settles(e) && EventLane(e) == l)
  {
    assert events == events[..|events| - 1] + [events[|events| - 1]];
  }

  /** A proper stream says nothing more of what is settled. */
  lemma {:induction false} NothingAfter(events: seq<Event>)
    requires Proper(events) && events != []
    ensures Proper(events[..|events| - 1]) && !Settled(events[..|events| - 1], EventLane(events[|events| - 1]))
  {
    var front, e := events[..|events| - 1], events[|events| - 1];
    forall x | x in front && Settles(x) ensures EventLane(x) != EventLane(e) {
      var k :| 0 <= k < |front| && front[k] == x;
      assert events[k] == x;
    }
  }

  lemma {:induction false} PagesAreAlike(events: seq<Event>)
    requires Proper(events)
    ensures Alike(events)
  {
    hide ApplyEvent, WellFormed, Keep, LaneOf, Settled, Live, Reloaded, FinalBlock;
    if events == [] {
      NothingShown(events);
    } else {
      var front, e := events[..|events| - 1], events[|events| - 1];
      NothingAfter(events);
      PagesAreAlike(front);
      PagesGrow(events);
      forall l ensures Settled(events, l) <==> Settled(front, l) || (Settles(e) && EventLane(e) == l) {
        SettledGrows(events, l);
      }
      if EventLane(e) == Kept {
        KeptStep(Live(front), e);
        KeptStep(Reloaded(front), e);
        KeptIsStored(e);
        NeverSettled(front, e);
      } else {
        OwnStep(Live(front), e);
        OwnStep(Reloaded(front), e);
      }
    }
  }

  lemma {:induction false} NothingShown(events: seq<Event>)
    requires events == []
    ensures Live(events) == [] && Reloaded(events) == [] && WellFormed([]) && Keep([]) == []
  {
  }

  lemma {:induction false} KeptIsStored(e: Event)
    requires EventLane(e) == Kept
    ensures IsStored(e) && !Settles(e)
  {
  }

  lemma {:induction false} NeverSettled(events: seq<Event>, e: Event)
    ensures !Settled(events, Kept)
  {
    forall x | x in events && Settles(x) ensures EventLane(x) != Kept {
    }
  }

  // ---- equal pages are pages in the same order ------------------------------------------------------------

  lemma {:induction false} SamePage(p: Blocks, r: Blocks)
    requires WellFormed(p) && WellFormed(r) && Keep(p) == Keep(r) && Shape(p) == Shape(r)
    requires forall b :: b in r && LaneOf(b) != Kept ==> b in p
    ensures p == r
  {
    hide LaneOf, RightRole, Keep;
    assert |p| == |Shape(p)| == |r|;
    forall i | 0 <= i < |p| ensures p[i] == r[i] {
      assert LaneOf(p[i]) == Shape(p)[i] == Shape(r)[i] == LaneOf(r[i]);
      if LaneOf(r[i]) != Kept {
        var j :| 0 <= j < |p| && p[j] == r[i];
        assert i == j;
      } else {
        KeepUpTo(p, i);
        KeepUpTo(r, i);
        RankIsShape(p, i);
        RankIsShape(r, i);
      }
    }
  }

  function Count(shape: seq<Lane>, l: Lane): nat {
    if shape == [] then 0 else Count(shape[..|shape| - 1], l) + if shape[|shape| - 1] == l then 1 else 0
  }

  lemma {:induction false} RankIsShape(blocks: Blocks, i: nat)
    requires i <= |blocks|
    ensures Rank(blocks, i) == Count(Shape(blocks)[..i], Kept)
  {
    hide LaneOf;
    if i == 0 {
      assert blocks[..0] == [];
    } else {
      RankIsShape(blocks, i - 1);
      assert blocks[..i] == blocks[..i - 1] + [blocks[i - 1]];
      KeepAppend(blocks[..i - 1], blocks[i - 1]);
      assert Shape(blocks)[..i][..i - 1] == Shape(blocks)[..i - 1];
    }
  }

  /** Equal pages are pages whose blocks stand in the same order. */
  lemma {:induction false} EqualIffSameOrder(events: seq<Event>)
    requires Proper(events)
    ensures Live(events) == Reloaded(events) <==> Shape(Live(events)) == Shape(Reloaded(events))
  {
    hide Live, Reloaded, WellFormed, Keep, LaneOf;
    PagesAreAlike(events);
    if Shape(Live(events)) == Shape(Reloaded(events)) {
      SamePage(Live(events), Reloaded(events));
    }
  }

  // ---- when the order is the same --------------------------------------------------------------------------------

  predicate Lasting(events: seq<Event>, l: Lane) {
    l == Kept || Settled(events, l)
  }

  /** The order of the blocks that will not go away. */
  function Done(events: seq<Event>, shape: seq<Lane>): seq<Lane> {
    if shape == [] then []
    else
      var front := Done(events, shape[..|shape| - 1]);
      if Lasting(events, shape[|shape| - 1]) then front + [shape[|shape| - 1]] else front
  }

  lemma {:induction false} DoneConcat(events: seq<Event>, a: seq<Lane>, b: seq<Lane>)
    ensures Done(events, a + b) == Done(events, a) + Done(events, b)
  {
    hide Lasting;
    if b == [] {
      assert a + b == a;
    } else {
      assert (a + b)[..|a + b| - 1] == a + b[..|b| - 1];
      DoneConcat(events, a, b[..|b| - 1]);
    }
  }

  lemma {:induction false} DoneSame(events: seq<Event>, events': seq<Event>, shape: seq<Lane>)
    requires forall l :: l in shape ==> (Lasting(events, l) <==> Lasting(events', l))
    ensures Done(events, shape) == Done(events', shape)
  {
    hide Lasting;
    if shape != [] {
      DoneSame(events, events', shape[..|shape| - 1]);
    }
  }

  lemma {:induction false} DoneNone(events: seq<Event>, shape: seq<Lane>)
    requires forall l :: l in shape ==> !Lasting(events, l)
    ensures Done(events, shape) == []
  {
    hide Lasting;
    if shape != [] {
      DoneNone(events, shape[..|shape| - 1]);
    }
  }

  lemma {:induction false} DoneAll(events: seq<Event>, shape: seq<Lane>)
    requires forall l :: l in shape ==> Lasting(events, l)
    ensures Done(events, shape) == shape
  {
    hide Lasting;
    if shape != [] {
      DoneAll(events, shape[..|shape| - 1]);
      assert shape == shape[..|shape| - 1] + [shape[|shape| - 1]];
    }
  }

  lemma {:induction false} DoneWithout(events: seq<Event>, shape: seq<Lane>, l: Lane)
    requires !Lasting(events, l)
    ensures Done(events, Without(shape, l)) == Done(events, shape)
  {
    hide Lasting;
    if shape != [] {
      var front, last := shape[..|shape| - 1], shape[|shape| - 1];
      DoneWithout(events, front, l);
      if last != l {
        DoneConcat(events, Without(front, l), [last]);
        DoneConcat(events, front, [last]);
        assert front + [last] == shape;
      }
    }
  }

  /** A final event that shows something arrives when a block that will stay stands already
      behind the block it settles. */
  ghost predicate Overtaken(events: seq<Event>, n: nat)
    requires n < |events|
  {
    var e, shape := events[n], Shape(Live(events[..n]));
    Settles(e) && Shows(e) && exists i, j :: 0 <= i < j < |shape| && shape[i] == EventLane(e) && Lasting(events[..n], shape[j])
  }

  lemma {:induction false} OwnSettles(events: seq<Event>, shape: seq<Lane>, l: Lane)
    requires events != [] && Settles(events[|events| - 1]) && EventLane(events[|events| - 1]) == l != Kept
    requires !Settled(events[..|events| - 1], l)
    requires forall i, j :: 0 <= i < j < |shape| && shape[i] == shape[j] ==> shape[i] == Kept
    requires forall i, j :: 0 <= i < j < |shape| && shape[i] == l ==> !Lasting(events[..|events| - 1], shape[j])
    ensures Done(events, ShapeAfter(shape, l, true)) == Done(events[..|events| - 1], shape) + [l]
  {
    hide Settled, Lasting, Done, Without;
    var before := events[..|events| - 1];
    forall x ensures Lasting(events, x) <==> Lasting(before, x) || x == l {
      LastingGrows(events, x);
    }
    if l in shape {
      var i :| 0 <= i < |shape| && shape[i] == l;
      var front, back := shape[..i], shape[i + 1..];
      assert shape == front + [l] + back;
      forall x | x in back ensures x != l && !Lasting(before, x) {
        var k :| 0 <= k < |back| && back[k] == x;
        assert shape[i + 1 + k] == x;
      }
      forall x | x in front ensures x != l {
        var k :| 0 <= k < |front| && front[k] == x;
        assert shape[k] == x;
      }
      NotLasting(before, l);
      SettlesInside(events, before, front, l, back);
    } else {
      DoneConcat(events, shape, [l]);
      OneDone(events, l);
      DoneSame(before, events, shape);
    }
  }

  lemma {:induction false} SettlesInside(events: seq<Event>, before: seq<Event>, front: seq<Lane>, l: Lane, back: seq<Lane>)
    requires forall x :: Lasting(events, x) <==> Lasting(before, x) || x == l
    requires !Lasting(before, l) && l !in front && forall x :: x in back ==> x != l && !Lasting(before, x)
    ensures Done(events, front + [l] + back) == Done(before, front + [l] + back) + [l]
  {
    hide Lasting, Done;
    DoneConcat(events, front + [l], back);
    DoneConcat(events, front, [l]);
    DoneConcat(before, front + [l], back);
    DoneConcat(before, front, [l]);
    DoneNone(before, back);
    DoneNone(events, back);
    DoneSame(before, events, front);
    OneDone(events, l);
    OneDone(before, l);
  }

  lemma {:induction false} LastingGrows(events: seq<Event>, l: Lane)
    requires events != [] && EventLane(events[|events| - 1]) != Kept
    ensures var e := events[|events| - 1];
            Lasting(events, l) <==> Lasting(events[..|events| - 1], l) || (Settles(e) && EventLane(e) == l)
  {
    SettledGrows(events, l);
  }

  lemma {:induction false} NotLasting(events: seq<Event>, l: Lane)
    requires l != Kept && !Settled(events, l)
    ensures !Lasting(events, l)
  {
  }

  lemma {:induction false} OneDone(events: seq<Event>, l: Lane)
    ensures Done(events, [l]) == if Lasting(events, l) then [l] else []
  {
    assert [l][..0] == [];
  }

  lemma {:induction false} ShapesAreSingle(blocks: Blocks)
    requires WellFormed(blocks)
    ensures forall i, j :: 0 <= i < j < |Shape(blocks)| && Shape(blocks)[i] == Shape(blocks)[j] ==> Shape(blocks)[i] == Kept
  {
  }

  /** As long as no final event comes too late, the lasting blocks stand as on the reloaded
      page. */
  lemma {:induction false} OrderKept(events: seq<Event>)
    requires Proper(events) && forall n :: 0 <= n < |events| ==> !Overtaken(events, n)
    ensures Done(events, Shape(Live(events))) == Shape(Reloaded(events))
  {
    hide Live, Reloaded, WellFormed, Keep, LaneOf, Shape, Done, Settled, Lasting, ApplyEvent, Without, FinalBlock;
    if events == [] {
      NothingShown(events);
      EmptyShape(events);
    } else {
      var front, e := events[..|events| - 1], events[|events| - 1];
      forall n | 0 <= n < |front| ensures !Overtaken(front, n) {
        OvertakenBefore(events, n);
      }
      NothingAfter(events);
      OrderKept(front);
      PagesAreAlike(front);
      PagesGrow(events);
      if EventLane(e) == Kept {
        KeptKeepsOrder(events, front, e);
      } else {
        OwnKeepsOrder(events, front, e);
      }
    }
  }

  lemma {:induction false} OvertakenBefore(events: seq<Event>, n: nat)
    requires n < |events| - 1
    ensures Overtaken(events[..|events| - 1], n) <==> Overtaken(events, n)
  {
    hide Live, Shape, Lasting;
    var front := events[..|events| - 1];
    assert front[..n] == events[..n] && front[n] == events[n];
  }

  lemma {:induction false} EmptyShape(events: seq<Event>)
    ensures Shape([]) == [] && Done(events, []) == []
  {
  }

  lemma {:induction false} KeptKeepsOrder(events: seq<Event>, front: seq<Event>, e: Event)
    requires events == front + [e] && Alike(front) && EventLane(e) == Kept
    requires Live(events) == ApplyEvent(Live(front), e) && Reloaded(events) == if IsStored(e) then ApplyEvent(Reloaded(front), e) else Reloaded(front)
    requires Done(front, Shape(Live(front))) == Shape(Reloaded(front))
    ensures Done(events, Shape(Live(events))) == Shape(Reloaded(events))
  {
    hide Live, Reloaded, WellFormed, Keep, LaneOf, Shape, Settled, ApplyEvent;
    KeptIsStored(e);
    KeptStep(Live(front), e);
    KeptStep(Reloaded(front), e);
    assert events[..|events| - 1] == front && events[|events| - 1] == e;
    assert !Settles(events[|events| - 1]);
    forall l ensures Lasting(events, l) <==> Lasting(front, l) {
      SettledGrows(events, l);
      assert Settled(events, l) <==> Settled(front, l);
    }
    DoneSame(front, events, Shape(Live(front)));
    DoneConcat(events, Shape(Live(front)), [Kept]);
    OneDone(events, Kept);
  }

  lemma {:induction false} OwnKeepsOrder(events: seq<Event>, front: seq<Event>, e: Event)
    requires events == front + [e] && Alike(front) && EventLane(e) != Kept && !Settled(front, EventLane(e)) && !Overtaken(events, |front|)
    requires Live(events) == ApplyEvent(Live(front), e) && Reloaded(events) == if IsStored(e) then ApplyEvent(Reloaded(front), e) else Reloaded(front)
    requires Done(front, Shape(Live(front))) == Shape(Reloaded(front))
    ensures Done(events, Shape(Live(events))) == Shape(Reloaded(events))
  {
    hide Live, Reloaded, WellFormed, Keep, LaneOf, Settled, ApplyEvent, Without, Shape, Done, FinalBlock;
    var l, shape, base := EventLane(e), Shape(Live(front)), Shape(Reloaded(front));
    assert events[..|events| - 1] == front && events[..|front|] == front && events[|front|] == e;
    OwnStep(Live(front), e);
    NotLasting(front, l);
    NotOnReloaded(front, l);
    if !Settles(e) {
      UnsettledStep(events, front, shape, l, Shows(e));
      SettlesIsStored(e);
    } else {
      OwnStep(Reloaded(front), e);
      ShapesAreSingle(Live(front));
      WithoutAbsent(base, l);
      if Shows(e) {
        OwnSettles(events, shape, l);
      } else {
        EmptySettles(events, front, shape, l);
      }
      SettlesIsStored(e);
    }
  }

  lemma {:induction false} SettlesIsStored(e: Event)
    requires EventLane(e) != Kept
    ensures IsStored(e) <==> Settles(e)
  {
  }

  lemma {:induction false} NotOnReloaded(front: seq<Event>, l: Lane)
    requires Alike(front) && l != Kept && !Settled(front, l)
    ensures l !in Shape(Reloaded(front))
  {
    hide Live, Reloaded, WellFormed, Keep, Settled;
    var r := Reloaded(front);
    forall k | 0 <= k < |r| ensures Shape(r)[k] != l {
      assert r[k] in r;
    }
  }

  lemma {:induction false} UnsettledStep(events: seq<Event>, front: seq<Event>, shape: seq<Lane>, l: Lane, shows: bool)
    requires events != [] && front == events[..|events| - 1] && !Settles(events[|events| - 1]) && EventLane(events[|events| - 1]) == l
    requires l != Kept && !Lasting(front, l)
    ensures Done(events, ShapeAfter(shape, l, shows)) == Done(front, shape)
  {
    hide Lasting, Settled;
    forall x ensures Lasting(events, x) <==> Lasting(front, x) {
      LastingGrows(events, x);
    }
    DoneSame(front, events, shape);
    if !shows {
      DoneWithout(events, shape, l);
    } else if l !in shape {
      DoneConcat(events, shape, [l]);
      OneDone(events, l);
    }
  }

  lemma {:induction false} EmptySettles(events: seq<Event>, front: seq<Event>, shape: seq<Lane>, l: Lane)
    requires events != [] && front == events[..|events| - 1] && EventLane(events[|events| - 1]) == l
    requires l != Kept && !Lasting(front, l)
    ensures Done(events, Without(shape, l)) == Done(front, shape)
  {
    hide Lasting, Settled;
    var rest := Without(shape, l);
    forall x | x in rest ensures Lasting(events, x) <==> Lasting(front, x) {
      LastingGrows(events, x);
      WithoutHolds(shape, l, x);
    }
    DoneSame(front, events, rest);
    DoneWithout(front, shape, l);
  }

  lemma {:induction false} WithoutHolds(shape: seq<Lane>, l: Lane, x: Lane)
    ensures x in Without(shape, l) <==> x in shape && x != l
  {
    if shape != [] {
      WithoutHolds(shape[..|shape| - 1], l, x);
      assert shape == shape[..|shape| - 1] + [shape[|shape| - 1]];
    }
  }

  // ---- when it is not --------------------------------------------------------------------------------------------

  /** How many blocks of lane `y` stand before the block of lane `x`. */
  function Before(shape: seq<Lane>, x: Lane, y: Lane): nat {
    if shape == [] || shape[0] == x then 0
    else (if shape[0] == y then 1 else 0) + Before(shape[1..], x, y)
  }

  lemma {:induction false} BeforeAppend(shape: seq<Lane>, x: Lane, y: Lane, l: Lane)
    requires x in shape
    ensures Before(shape + [l], x, y) == Before(shape, x, y)
  {
    assert (shape + [l])[0] == shape[0] && (shape + [l])[1..] == shape[1..] + [l];
    if shape[0] != x {
      BeforeAppend(shape[1..], x, y, l);
    }
  }

  lemma {:induction false} BeforeAbsent(shape: seq<Lane>, x: Lane, y: Lane)
    requires x !in shape
    ensures Before(shape + [x], x, y) == Count(shape, y)
  {
    if shape == [] {
      assert ([] + [x])[0] == x;
    } else {
      assert (shape + [x])[0] == shape[0] && (shape + [x])[1..] == shape[1..] + [x];
      BeforeAbsent(shape[1..], x, y);
      CountHead(shape, y);
    }
  }

  lemma {:induction false} CountHead(shape: seq<Lane>, y: Lane)
    requires shape != []
    ensures Count(shape, y) == (if shape[0] == y then 1 else 0) + Count(shape[1..], y)
  {
    if |shape| == 1 {
      assert shape[..0] == [] && shape[1..] == [];
    } else {
      var front, back := shape[..|shape| - 1], shape[1..];
      CountHead(front, y);
      assert back[..|back| - 1] == front[1..];
    }
  }

  lemma {:induction false} BeforeWithout(shape: seq<Lane>, x: Lane, y: Lane, l: Lane)
    requires l != x && l != y
    ensures Before(Without(shape, l), x, y) == Before(shape, x, y)
  {
    if shape != [] {
      var h, rest := shape[0], shape[1..];
      assert shape == [h] + rest && [h][..0] == [];
      WithoutConcat([h], rest, l);
      BeforeWithout(rest, x, y, l);
      if h != l {
        assert Without([h], l) == [h];
        assert ([h] + Without(rest, l))[1..] == Without(rest, l);
      } else {
        assert Without([h], l) == [] && [] + Without(rest, l) == Without(rest, l);
      }
    }
  }

  /** Fewer blocks of lane `y` stand before `x` than there are if one stands behind it. */
  lemma {:induction false} BehindCounts(shape: seq<Lane>, i: nat, j: nat)
    requires i < j < |shape|
    ensures Before(shape, shape[i], shape[j]) < Count(shape, shape[j])
    decreases i
  {
    CountHead(shape, shape[j]);
    if shape[0] != shape[i] {
      BehindCounts(shape[1..], i - 1, j - 1);
    } else {
      CountHolds(shape, j);
    }
  }

  lemma {:induction false} CountHolds(shape: seq<Lane>, j: nat)
    requires j < |shape|
    ensures Count(shape, shape[j]) > 0
  {
    if j < |shape| - 1 {
      CountHolds(shape[..|shape| - 1], j);
    }
  }

  /** Both pages have as many blocks of a lasting lane. */
  lemma {:induction false} SameCount(events: seq<Event>, y: Lane)
    requires Alike(events) && Lasting(events, y)
    ensures Count(Shape(Live(events)), y) == Count(Shape(Reloaded(events)), y)
  {
    hide Live, Reloaded, WellFormed, Keep, LaneOf, Settled;
    var p, r := Live(events), Reloaded(events);
    if y == Kept {
      CountsKept(p);
      CountsKept(r);
    } else {
      CountsOwn(p, y);
      CountsOwn(r, y);
      if b :| b in p && LaneOf(b) == y {
        assert b in r;
      }
      if b :| b in r && LaneOf(b) == y {
        assert b in p;
      }
    }
  }

  lemma {:induction false} CountsKept(blocks: Blocks)
    ensures Count(Shape(blocks), Kept) == |Keep(blocks)|
  {
    RankIsShape(blocks, |blocks|);
    assert blocks[..|blocks|] == blocks && Shape(blocks)[..|blocks|] == Shape(blocks);
  }

  lemma {:induction false} CountsOwn(blocks: Blocks, y: Lane)
    requires WellFormed(blocks) && y != Kept
    ensures Count(Shape(blocks), y) == if exists b :: b in blocks && LaneOf(b) == y then 1 else 0
  {
    hide LaneOf, RightRole;
    CountsShape(Shape(blocks), y);
    ShapesAreSingle(blocks);
    if y in Shape(blocks) {
      var k :| 0 <= k < |blocks| && Shape(blocks)[k] == y;
      assert blocks[k] in blocks && LaneOf(blocks[k]) == y;
    }
    if b :| b in blocks && LaneOf(b) == y {
      var k :| 0 <= k < |blocks| && blocks[k] == b;
      assert Shape(blocks)[k] == y;
    }
  }

  lemma {:induction false} CountsShape(shape: seq<Lane>, y: Lane)
    requires forall i, j :: 0 <= i < j < |shape| && shape[i] == shape[j] ==> shape[i] != y
    ensures Count(shape, y) == if y in shape then 1 else 0
  {
    if shape != [] {
      var front, last := shape[..|shape| - 1], shape[|shape| - 1];
      assert forall k :: 0 <= k < |front| ==> front[k] == shape[k];
      CountsShape(front, y);
      assert shape == front + [last];
      forall k | 0 <= k < |front| ensures last == y ==> front[k] != y {
        assert shape[k] == front[k] && shape[|shape| - 1] == last;
      }
    }
  }

  /** Lane `x` has fewer blocks of lane `y` before it on the live page. */
  ghost predicate Late(events: seq<Event>, x: Lane, y: Lane) {
    var p, r := Shape(Live(events)), Shape(Reloaded(events));
    x in p && x in r && Before(p, x, y) < Before(r, x, y)
  }

  lemma {:induction false} OvertakenIsLate(events: seq<Event>, n: nat) returns (y: Lane)
    requires Proper(events) && n < |events| && Overtaken(events, n)
    ensures Lasting(events[..n + 1], y) && Late(events[..n + 1], EventLane(events[n]), y)
  {
    hide Live, Reloaded, LaneOf, Settled, Shape, Lasting, Late, Alike;
    var front, all, e := events[..n], events[..n + 1], events[n];
    assert all[..|all| - 1] == front && all[|all| - 1] == e;
    var shape := Shape(Live(front));
    var i, j :| 0 <= i < j < |shape| && shape[i] == EventLane(e) && Lasting(front, shape[j]);
    y := shape[j];
    NothingAfter(all);
    PagesAreAlike(front);
    SettlesOwn(e);
    LastingGrows(all, y);
    SettlesLate(all, front, e, i, j);
  }

  lemma {:induction false} SettlesLate(all: seq<Event>, front: seq<Event>, e: Event, i: nat, j: nat)
    requires all != [] && all[..|all| - 1] == front && all[|all| - 1] == e && Alike(front)
    requires Settles(e) && Shows(e) && EventLane(e) != Kept && !Settled(front, EventLane(e))
    requires var shape := Shape(Live(front)); i < j < |shape| && shape[i] == EventLane(e) && Lasting(front, shape[j])
    ensures Late(all, EventLane(e), Shape(Live(front))[j])
  {
    hide Live, Reloaded, WellFormed, Keep, LaneOf, Settled, ApplyEvent, Without, FinalBlock, Shape, Alike, Before, Count, Lasting;
    var l, shape, base := EventLane(e), Shape(Live(front)), Shape(Reloaded(front));
    var y := shape[j];
    AlikeIsWellFormed(front);
    PagesGrow(all);
    SettlesIsStored(e);
    OwnStep(Live(front), e);
    OwnStep(Reloaded(front), e);
    NotOnReloaded(front, l);
    BehindCounts(shape, i, j);
    SameCount(front, y);
    BeforeAbsent(base, l, y);
  }

  lemma {:induction false} SettlesOwn(e: Event)
    requires Settles(e)
    ensures EventLane(e) != Kept
  {
  }

  lemma {:induction false} StaysLate(events: seq<Event>, x: Lane, y: Lane, e: Event)
    requires Proper(events + [e]) && Alike(events) && Late(events, x, y) && Settled(events, x) && Lasting(events, y)
    ensures Late(events + [e], x, y)
  {
    hide Live, Reloaded, WellFormed, Keep, LaneOf, Settled, ApplyEvent, Without, FinalBlock, Shape, Alike, Before;
    var all := events + [e];
    assert all[..|all| - 1] == events && all[|all| - 1] == e;
    NothingAfter(all);
    PagesGrow(all);
    AlikeIsWellFormed(events);
    StepStaysLate(Live(events), e, x, y, EventLane(e));
    if IsStored(e) {
      StepStaysLate(Reloaded(events), e, x, y, EventLane(e));
    }
  }

  lemma {:induction false} AlikeIsWellFormed(events: seq<Event>)
    requires Alike(events)
    ensures WellFormed(Live(events)) && WellFormed(Reloaded(events))
  {
  }

  lemma {:induction false} StepStaysLate(blocks: Blocks, e: Event, x: Lane, y: Lane, l: Lane)
    requires WellFormed(blocks) && x in Shape(blocks) && l == EventLane(e) && l != x && (l == Kept || l != y)
    ensures x in Shape(ApplyEvent(blocks, e)) && Before(Shape(ApplyEvent(blocks, e)), x, y) == Before(Shape(blocks), x, y)
  {
    hide WellFormed, Keep, LaneOf, ApplyEvent, Without, FinalBlock, Shape, Before;
    var shape := Shape(blocks);
    BeforeAppend(shape, x, y, l);
    if l == Kept {
      KeptStep(blocks, e);
    } else {
      OwnStep(blocks, e);
      BeforeWithout(shape, x, y, l);
      WithoutHolds(shape, l, x);
    }
  }

  lemma {:induction false} LateToTheEnd(events: seq<Event>, n: nat, x: Lane, y: Lane)
    requires Proper(events) && n <= |events| && Late(events[..n], x, y) && Settled(events[..n], x) && Lasting(events[..n], y)
    ensures Late(events, x, y) && Settled(events, x) && Lasting(events, y)
  {
    hide Late, Alike;
    if n == |events| {
      assert events[..n] == events;
    } else {
      var front, e := events[..|events| - 1], events[|events| - 1];
      assert front[..n] == events[..n] && events == front + [e];
      LateToTheEnd(front, n, x, y);
      PagesAreAlike(front);
      StaysLate(front, x, y, e);
    }
  }

  // ---- the main result ------------------------------------------------------------------------------------------------

  /** The last event of a message, compression or activity. */
  function LastOf(events: seq<Event>, l: Lane): Option<Event> {
    if events == [] then None
    else if EventLane(events[|events| - 1]) == l then Some(events[|events| - 1])
    else LastOf(events[..|events| - 1], l)
  }

  /** The last event of a message, compression or activity is not its final one, and it
      leaves a block. */
  predicate LeavesBehind(events: seq<Event>, l: Lane) {
    var last := LastOf(events, l);
    l != Kept && last.Some? && !Settles(last.value) && Shows(last.value)
  }

  lemma {:induction false} SettledIsLast(events: seq<Event>, l: Lane)
    requires Proper(events)
    ensures Settled(events, l) <==> LastOf(events, l).Some? && Settles(LastOf(events, l).value)
  {
    hide Settled, Proper;
    if events == [] {
      NeverSettledEmpty(l);
    } else {
      NothingAfter(events);
      SettledGrows(events, l);
      SettledIsLast(events[..|events| - 1], l);
    }
  }

  lemma {:induction false} NeverSettledEmpty(l: Lane)
    ensures !Settled([], l)
  {
  }

  /** What the live page shows of a lane is decided by its last event. */
  lemma {:induction false} LastShows(events: seq<Event>, l: Lane)
    requires Proper(events) && l != Kept
    ensures l in Shape(Live(events)) <==> LastOf(events, l).Some? && Shows(LastOf(events, l).value)
  {
    hide Live, Reloaded, WellFormed, Keep, LaneOf, ApplyEvent, Without, FinalBlock, Shape, Alike, Proper;
    if events == [] {
      NothingShown(events);
      EmptyShape(events);
    } else {
      var front, e := events[..|events| - 1], events[|events| - 1];
      NothingAfter(events);
      LastShows(front, l);
      PagesAreAlike(front);
      AlikeIsWellFormed(front);
      PagesGrow(events);
      if EventLane(e) == Kept {
        KeptStep(Live(front), e);
      } else {
        OwnStep(Live(front), e);
        WithoutHolds(Shape(Live(front)), EventLane(e), l);
      }
    }
  }

  /** A page that watched the stream shows what a page shows that loads the stored events,
      exactly if no message, compression or activity without a final event leaves a block,
      and no final event comes after a block that stays has been put behind its own. */
  lemma {:induction false} LiveEqualsReloaded(events: seq<Event>)
    requires Proper(events)
    ensures Live(events) == Reloaded(events) <==>
            && (forall l :: !LeavesBehind(events, l))
            && (forall n :: 0 <= n < |events| ==> !Overtaken(events, n))
  {
    hide Live, Reloaded, Overtaken, Settled, LeavesBehind, Shape, Done, Late, Alike;
    EqualIffSameOrder(events);
    if Live(events) == Reloaded(events) {
      forall n | 0 <= n < |events| ensures !Overtaken(events, n) {
        if Overtaken(events, n) {
          NeverOvertaken(events, n);
        }
      }
      forall l ensures !LeavesBehind(events, l) {
        NothingLeft(events, l);
      }
    }
    if (forall l :: !LeavesBehind(events, l)) && (forall n :: 0 <= n < |events| ==> !Overtaken(events, n)) {
      OrderKept(events);
      forall l | l in Shape(Live(events)) ensures Lasting(events, l) {
        AllLasting(events, l);
      }
      DoneAll(events, Shape(Live(events)));
    }
  }

  lemma {:induction false} NeverOvertaken(events: seq<Event>, n: nat)
    requires Proper(events) && n < |events| && Live(events) == Reloaded(events)
    ensures !Overtaken(events, n)
  {
    hide Live, Reloaded, Shape, Overtaken, Lasting;
    if Overtaken(events, n) {
      var y := OvertakenIsLate(events, n);
      assert events[..n + 1][n] == events[n];
      OvertakenSettles(events, n);
      LateToTheEnd(events, n + 1, EventLane(events[n]), y);
    }
  }

  lemma {:induction false} OvertakenSettles(events: seq<Event>, n: nat)
    requires n < |events| && Overtaken(events, n)
    ensures Settled(events[..n + 1], EventLane(events[n]))
  {
    assert events[..n + 1][n] == events[n];
  }

  lemma {:induction false} NothingLeft(events: seq<Event>, l: Lane)
    requires Proper(events) && Live(events) == Reloaded(events)
    ensures !LeavesBehind(events, l)
  {
    hide Live, Reloaded, Shape, Proper, Settled;
    if LeavesBehind(events, l) {
      LastShows(events, l);
      SettledIsLast(events, l);
      PagesAreAlike(events);
      NotOnReloaded(events, l);
    }
  }

  lemma {:induction false} AllLasting(events: seq<Event>, l: Lane)
    requires Proper(events) && l in Shape(Live(events)) && !LeavesBehind(events, l)
    ensures Lasting(events, l)
  {
    hide Live, Shape, Proper, Settled;
    if l != Kept {
      LastShows(events, l);
      SettledIsLast(events, l);
    }
  }

  // ---- streams as the server sends them --------------------------------------------------------------------------------

  /** What is shown for a while is shown directly before its final event: deltas and
      partials in one stretch, the start of a compression right before its end. */
  predicate Direct(events: seq<Event>) {
    forall k | 0 <= k < |events| :: EventLane(events[k]) != Kept && !Settles(events[k]) ==>
      k + 1 < |events| && EventLane(events[k + 1]) == EventLane(events[k])
  }

  /** Then nothing stands behind what is still open. */
  ghost predicate OpenIsLast(events: seq<Event>) {
    var shape := Shape(Live(events));
    forall i | 0 <= i < |shape| && !Lasting(events, shape[i]) ::
      i == |shape| - 1 && events != [] && EventLane(events[|events| - 1]) == shape[i]
  }

  predicate DirectSoFar(events: seq<Event>) {
    forall k | 0 <= k < |events| - 1 :: EventLane(events[k]) != Kept && !Settles(events[k]) ==> EventLane(events[k + 1]) == EventLane(events[k])
  }

  lemma {:induction false} OpenStaysLast(events: seq<Event>)
    requires Proper(events) && DirectSoFar(events)
    ensures OpenIsLast(events)
  {
    hide Live, Reloaded, WellFormed, Keep, LaneOf, ApplyEvent, Without, FinalBlock, Shape, Alike, Settled, Lasting;
    if events == [] {
      NothingShown(events);
      EmptyShape(events);
    } else {
      var front, e := events[..|events| - 1], events[|events| - 1];
      forall k | 0 <= k < |front| - 1 && EventLane(front[k]) != Kept && !Settles(front[k]) ensures EventLane(front[k + 1]) == EventLane(front[k]) {
        assert events[k] == front[k] && events[k + 1] == front[k + 1];
      }
      NothingAfter(events);
      OpenStaysLast(front);
      PagesAreAlike(front);
      AlikeIsWellFormed(front);
      PagesGrow(events);
      ShapesAreSingle(Live(front));
      if EventLane(e) == Kept {
        KeptStep(Live(front), e);
        KeptIsStored(e);
      } else {
        OwnStep(Live(front), e);
      }
      OpenStep(events, Shape(Live(front)));
    }
  }

  /** A shape whose only open lane is its last goes on that way. */
  lemma {:induction false} OpenStep(events: seq<Event>, shape: seq<Lane>)
    requires Proper(events) && DirectSoFar(events) && events != [] && OpenIsLast(events[..|events| - 1])
    requires shape == Shape(Live(events[..|events| - 1]))
    requires forall i, j :: 0 <= i < j < |shape| && shape[i] == shape[j] ==> shape[i] == Kept
    requires var e, after := events[|events| - 1], Shape(Live(events));
             if EventLane(e) == Kept then after == shape || after == shape + [Kept]
             else after == ShapeAfter(shape, EventLane(e), Shows(e))
    ensures OpenIsLast(events)
  {
    hide Live, Shape, Settled, Proper;
    var front, e := events[..|events| - 1], events[|events| - 1];
    var after := Shape(Live(events));
    forall i | 0 <= i < |after| && !Lasting(events, after[i]) ensures i == |after| - 1 && EventLane(e) == after[i] {
      var x := after[i];
      SettledGrows(events, x);
      if x in shape {
        var k :| 0 <= k < |shape| && shape[k] == x;
        assert !Lasting(front, shape[k]);
        assert front != [] && EventLane(front[|front| - 1]) == x && k == |shape| - 1;
        SettledGrows(front, x);
        assert front[|front| - 1] == events[|events| - 2];
        LastOpen(events);
        WithoutHolds(shape, EventLane(e), x);
        assert EventLane(e) == x;
        assert x in after && after == shape;
      } else {
        WithoutHolds(shape, EventLane(e), x);
        assert x in after && after == shape + [EventLane(e)];
      }
    }
  }

  lemma {:induction false} LastOpen(events: seq<Event>)
    requires DirectSoFar(events) && |events| >= 2
    ensures var last := events[|events| - 2];
            EventLane(last) != Kept && !Settles(last) ==> EventLane(events[|events| - 1]) == EventLane(last)
  {
  }


  /** Streams as the server sends them when nothing fails: the two pages are the same, with
      the answers to interruptions put over them too. */
  lemma {:induction false} DirectStreamsAgree(events: seq<Event>, answers: map<string, string>)
    requires Proper(events) && Direct(events)
    ensures Live(events) == Reloaded(events)
    ensures Resolved(Live(events), answers) == Resolved(Reloaded(events), answers)
  {
    hide Live, Reloaded, Shape, Settled, Proper, LeavesBehind, Overtaken;
    forall l ensures !LeavesBehind(events, l) {
      DirectLeavesNothing(events, l);
    }
    forall n | 0 <= n < |events| ensures !Overtaken(events, n) {
      DirectIsInTime(events, n);
    }
    LiveEqualsReloaded(events);
  }

  lemma {:induction false} DirectLeavesNothing(events: seq<Event>, l: Lane)
    requires Direct(events)
    ensures !LeavesBehind(events, l)
  {
    if LastOf(events, l).Some? {
      var k := LastPlace(events, l);
      if k + 1 < |events| {
        assert EventLane(events[k + 1]) != EventLane(events[k]);
      }
    }
  }

  lemma {:induction false} LastPlace(events: seq<Event>, l: Lane) returns (k: nat)
    requires LastOf(events, l).Some?
    ensures k < |events| && events[k] == LastOf(events, l).value && EventLane(events[k]) == l
    ensures forall j :: k < j < |events| ==> EventLane(events[j]) != l
  {
    k := |events| - 1;
    if EventLane(events[k]) != l {
      k := LastPlace(events[..|events| - 1], l);
    }
  }

  lemma {:induction false} DirectIsInTime(events: seq<Event>, n: nat)
    requires Proper(events) && Direct(events) && n < |events|
    ensures !Overtaken(events, n)
  {
    hide Live, Shape, Lasting;
    var front, shape := events[..n], Shape(Live(events[..n]));
    OpenStaysLast(front);
    if Settles(events[n]) {
      OpenUntilNow(events, n);
      forall i | 0 <= i < |shape| && shape[i] == EventLane(events[n]) ensures i == |shape| - 1 {
      }
    }
  }

  lemma {:induction false} OpenUntilNow(events: seq<Event>, n: nat)
    requires Proper(events) && n < |events| && Settles(events[n])
    ensures !Lasting(events[..n], EventLane(events[n]))
  {
    forall e | e in events[..n] && Settles(e) ensures EventLane(e) != EventLane(events[n]) {
      var k :| 0 <= k < n && events[k] == e;
    }
  }

  // ---- streams on which the pages differ ---------------------------------------------------------------------------------

  /** The model breaks off inside a message: its text stays on the live page only. */
  lemma {:induction false} UnfinishedMessageStays()
    ensures var events := [Input("i"), MessageDelta("a", "x"), Interrupted("p", "r", "")];
            Proper(events) && Live(events) != Reloaded(events)
  {
    hide Live, Reloaded;
    var events := [Input("i"), MessageDelta("a", "x"), Interrupted("p", "r", "")];
    var two := events[..2];
    assert two[|two| - 1] == MessageDelta("a", "x");
    assert LastOf(events, MessageLane("a")) == LastOf(two, MessageLane("a")) == Some(MessageDelta("a", "x"));
    assert LeavesBehind(events, MessageLane("a"));
    LiveEqualsReloaded(events);
  }

  /** A compression in the background ends while a message is being written: on the live
      page the message stands before it, on the reloaded one behind it. */
  lemma {:induction false} CompressionOvertakes()
    ensures var events := [MessageDelta("a", "x"), CompressionFinal("c", 0, true), MessageFinal("a", "x", "")];
            Proper(events) && Live(events) != Reloaded(events)
  {
    hide Live, Reloaded;
    var events := [MessageDelta("a", "x"), CompressionFinal("c", 0, true), MessageFinal("a", "x", "")];
    var two := events[..2];
    TwoShown(two);
    assert two[1] in two && Settles(two[1]) && EventLane(two[1]) == CompressionLane("c");
    assert Lasting(two, CompressionLane("c"));
    var shape := Shape(Live(two));
    assert shape[0] == EventLane(events[2]) && shape[1] == CompressionLane("c");
    assert Overtaken(events, 2);
    LiveEqualsReloaded(events);
  }

  lemma {:induction false} TwoShown(two: seq<Event>)
    requires two == [MessageDelta("a", "x"), CompressionFinal("c", 0, true)]
    ensures Shape(Live(two)) == [MessageLane("a"), CompressionLane("c")]
  {
    var text := Text(MessageId("a"), "x", "", two[0]);
    var done := CompressionLabel(BlockId("c", CompressionRole), Normal, two[1]);
    var one := two[1..];
    assert one[1..] == [] && one[0] == two[1];
    assert ApplyEvent([], two[0]) == [text];
    assert ApplyEvent([text], two[1]) == [text, done];
    assert ToBlocks([text], one) == ToBlocks([text, done], []) == [text, done];
  }
}
