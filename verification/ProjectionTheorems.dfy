/** What a projection delivers: the current agent's latest rounds in order, and what the
    other agents did, each piece exactly once. */
module ProjectionTheorems {
  import opened Common
  import opened KernelModels
  import opened ToolRounds
  import opened Projection

  // ---- what user messages carry ----------------------------------------------------------

  /** The pieces of Group Input in the user messages, in order. */
  function Delivered(messages: seq<Projected>): seq<Piece> {
    if messages == [] then []
    else
      var m := messages[|messages| - 1];
      Delivered(messages[..|messages| - 1]) + if m.User? then m.groupInput else []
  }

  /** The messages without the Group Input. */
  function Plain(messages: seq<Projected>): (r: seq<Projected>)
    ensures |r| == |messages|
  {
    seq(|messages|, k requires 0 <= k < |messages| => if messages[k].User? then User(messages[k].input, []) else messages[k])
  }

  lemma {:induction false} DeliveredConcat(a: seq<Projected>, b: seq<Projected>)
    ensures Delivered(a + b) == Delivered(a) + Delivered(b)
  {
    if b == [] {
      assert a + b == a;
    } else {
      assert (a + b)[..|a + b| - 1] == a + b[..|b| - 1];
      DeliveredConcat(a, b[..|b| - 1]);
    }
  }

  lemma {:induction false} VoicesDeliverNothing(messages: seq<Projected>)
    requires forall m :: m in messages ==> m.Voice?
    ensures Delivered(messages) == [] && Plain(messages) == messages
  {
    if messages != [] {
      var front := messages[..|messages| - 1];
      VoicesDeliverNothing(front);
      assert messages[|messages| - 1] in messages;
    }
  }

  lemma {:induction false} PlainConcat(a: seq<Projected>, b: seq<Projected>)
    ensures Plain(a + b) == Plain(a) + Plain(b)
  {
  }

  // ---- one round -----------------------------------------------------------------------------

  predicate FromUser(r: Round)
    requires IsRound(r)
  {
    r[0].input.event.UserInput?
  }

  lemma {:induction false} AllMessagesOf(r: seq<Artifact>, pieces: seq<Piece>)
    requires IsRound(r)
    ensures Delivered(AllMessages(r, pieces)) == if FromUser(r) then pieces else []
    ensures Plain(AllMessages(r, pieces)) == AllMessages(r, [])
    decreases |r|
  {
    if |r| == 1 {
      assert r[..0] == [] && AllMessages([], pieces) == [];
      assert AllMessages(r, pieces) == InputMessages(r[0].input, pieces);
      assert AllMessages(r, []) == InputMessages(r[0].input, []);
    } else {
      var front, last := r[..|r| - 1], r[|r| - 1];
      assert front[0] == r[0];
      AllMessagesOf(front, pieces);
      var said := Voices(ArtifactMessages(last));
      VoicesDeliverNothing(said);
      DeliveredConcat(AllMessages(front, pieces), said);
      PlainConcat(AllMessages(front, pieces), said);
      assert AllMessages(r, pieces) == AllMessages(front, pieces) + said;
      assert AllMessages(r, []) == AllMessages(front, []) + said;
    }
  }

  lemma {:induction false} FinalWordsAreVoices(r: Round)
    ensures forall m :: m in FinalWords(r) ==> m.Voice?
  {
    if r != [] {
      FinalWordsAreVoices(r[..|r| - 1]);
    }
  }

  /** A round that says anything delivers its pieces exactly if its input is the user's;
      whether it says anything does not depend on them. */
  lemma {:induction false} RoundDelivers(r: Round, pieces: seq<Piece>, v: View)
    requires IsRound(r)
    ensures var said := RoundMessages(r, pieces, v);
            && Delivered(said) == (if said != [] && FromUser(r) then pieces else [])
            && Plain(said) == RoundMessages(r, [], v)
            && (said == [] <==> RoundMessages(r, [], v) == [])
  {
    if Dropped(r, v) {
    } else if Unavailable(r, v) {
      var words := FinalWords(r);
      FinalWordsAreVoices(r);
      VoicesDeliverNothing(words);
      DeliveredConcat(InputMessages(r[0].input, pieces), words);
      PlainConcat(InputMessages(r[0].input, pieces), words);
    } else {
      AllMessagesOf(r, pieces);
      AllMessagesOf(r, []);
      FromUserSpeaks(r, pieces);
    }
    assert Plain([]) == [];
  }

  lemma {:induction false} FromUserSpeaks(r: seq<Artifact>, pieces: seq<Piece>)
    requires IsRound(r)
    ensures FromUser(r) ==> AllMessages(r, pieces) != []
    decreases |r|
  {
    if |r| > 1 {
      assert r[..|r| - 1][0] == r[0];
      FromUserSpeaks(r[..|r| - 1], pieces);
    }
  }

  // ---- one receiver ------------------------------------------------------------------------------

  /** The first round that says anything. */
  function Opening(rounds: seq<Round>, v: View): (r: Option<Round>)
    requires AreRounds(rounds)
    ensures r.Some? ==> IsRound(r.value) && r.value in rounds
  {
    if rounds == [] then None
    else
      var before := Opening(rounds[..|rounds| - 1], v);
      if before.Some? then before
      else if RoundMessages(rounds[|rounds| - 1], [], v) != [] then Some(rounds[|rounds| - 1])
      else None
  }

  function PlainRounds(rounds: seq<Round>, v: View): seq<Projected>
    requires AreRounds(rounds)
  {
    if rounds == [] then []
    else PlainRounds(rounds[..|rounds| - 1], v) + RoundMessages(rounds[|rounds| - 1], [], v)
  }

  /** The pieces go to the first round that says anything; if none does they are handed
      on, and if that round has no user input they are lost. */
  lemma {:induction false} TellRoundsDelivers(rounds: seq<Round>, pieces: seq<Piece>, v: View)
    requires AreRounds(rounds)
    ensures var t, o := TellRounds(rounds, pieces, v), Opening(rounds, v);
            && Plain(t.messages) == PlainRounds(rounds, v)
            && (if o.None? then Delivered(t.messages) == [] && t.rest == pieces
                else t.rest == [] && Delivered(t.messages) == if FromUser(o.value) then pieces else [])
  {
    hide RoundMessages, FromUser;
    if rounds == [] {
      assert Plain([]) == [];
    } else {
      var front, r := rounds[..|rounds| - 1], rounds[|rounds| - 1];
      TellRoundsDelivers(front, pieces, v);
      var t := TellRounds(front, pieces, v);
      RoundDelivers(r, t.rest, v);
      DeliveredConcat(t.messages, RoundMessages(r, t.rest, v));
      PlainConcat(t.messages, RoundMessages(r, t.rest, v));
    }
  }

  // ---- all receivers ---------------------------------------------------------------------------------

  function Handed(receivers: seq<Receiver>): seq<Piece> {
    if receivers == [] then [] else Handed(receivers[..|receivers| - 1]) + receivers[|receivers| - 1].pieces
  }

  /** Pieces whose receiving round has no user input to carry them. */
  function Lost(receivers: seq<Receiver>, v: View): seq<Piece>
    requires ReceiversOk(receivers)
  {
    if receivers == [] then []
    else
      var x := receivers[|receivers| - 1];
      var o := Opening(x.group.rounds, v);
      Lost(receivers[..|receivers| - 1], v) + if o.Some? && !FromUser(o.value) then x.pieces else []
  }

  function PlainReceivers(receivers: seq<Receiver>, v: View): seq<Projected>
    requires ReceiversOk(receivers)
  {
    if receivers == [] then []
    else PlainReceivers(receivers[..|receivers| - 1], v) + PlainRounds(receivers[|receivers| - 1].group.rounds, v)
  }

  function Copies(pieces: seq<Piece>, p: Piece): nat {
    multiset(pieces)[p]
  }

  lemma {:induction false} CopiesConcat(a: seq<Piece>, b: seq<Piece>, p: Piece)
    ensures Copies(a + b, p) == Copies(a, p) + Copies(b, p)
    ensures Copies([], p) == 0
  {
  }

  lemma {:induction false} TellPlain(receivers: seq<Receiver>, pending: seq<Piece>, v: View)
    requires ReceiversOk(receivers)
    ensures Plain(Tell(receivers, pending, v).messages) == PlainReceivers(receivers, v)
  {
    hide TellRounds, Plain;
    if receivers == [] {
      PlainConcat([], []);
    } else {
      var front, x := receivers[..|receivers| - 1], receivers[|receivers| - 1];
      TellPlain(front, pending, v);
      TellRoundsDelivers(x.group.rounds, x.pieces, v);
      PlainConcat(Tell(front, pending, v).messages, TellRounds(x.group.rounds, x.pieces, v).messages);
    }
  }

  /** Conservation: every copy of a piece that was handed out is delivered, handed on, or
      lost. */
  lemma {:induction false} TellConserves(receivers: seq<Receiver>, pending: seq<Piece>, v: View, p: Piece)
    requires ReceiversOk(receivers)
    ensures var t := Tell(receivers, pending, v);
            Copies(Delivered(t.messages), p) + Copies(t.rest, p) + Copies(Lost(receivers, v), p)
              == Copies(Handed(receivers), p) + Copies(pending, p)
  {
    hide TellRounds, Opening, FromUser, Copies, Delivered;
    CopiesConcat([], [], p);
    if receivers == [] {
      DeliveredConcat([], []);
      NoneDelivered();
    } else {
      var front, x := receivers[..|receivers| - 1], receivers[|receivers| - 1];
      TellConserves(front, pending, v, p);
      TellRoundsDelivers(x.group.rounds, x.pieces, v);
      var before, t, o := Tell(front, pending, v), TellRounds(x.group.rounds, x.pieces, v), Opening(x.group.rounds, v);
      DeliveredConcat(before.messages, t.messages);
      var own := if o.Some? && !FromUser(o.value) then x.pieces else [];
      CopiesConcat(Delivered(before.messages), Delivered(t.messages), p);
      CopiesConcat(before.rest, t.rest, p);
      CopiesConcat(Lost(front, v), own, p);
      CopiesConcat(Handed(front), x.pieces, p);
    }
  }

  lemma {:induction false} NoneDelivered()
    ensures Delivered([]) == []
  {
  }

  // ---- the order of the pieces ---------------------------------------------------------------

  /** A stretch that delivers its pieces, one that hands them on because it says nothing,
      and one that swallows them. */
  predicate Takes(x: Receiver, v: View)
    requires AreRounds(x.group.rounds)
  {
    var o := Opening(x.group.rounds, v);
    x.pieces != [] && o.Some? && FromUser(o.value)
  }

  predicate Defers(x: Receiver, v: View)
    requires AreRounds(x.group.rounds)
  {
    x.pieces != [] && Opening(x.group.rounds, v).None?
  }

  predicate Swallows(x: Receiver, v: View)
    requires AreRounds(x.group.rounds)
  {
    x.pieces != [] && !Takes(x, v) && !Defers(x, v)
  }

  function Taken(receivers: seq<Receiver>, v: View): seq<Piece>
    requires ReceiversOk(receivers)
  {
    if receivers == [] then []
    else
      var x := receivers[|receivers| - 1];
      Taken(receivers[..|receivers| - 1], v) + if Takes(x, v) then x.pieces else []
  }

  function Deferred(receivers: seq<Receiver>, v: View): seq<Piece>
    requires ReceiversOk(receivers)
  {
    if receivers == [] then []
    else
      var x := receivers[|receivers| - 1];
      Deferred(receivers[..|receivers| - 1], v) + if Defers(x, v) then x.pieces else []
  }

  /** What is delivered, and what is left for the current input: the trailing pieces first,
      then those of the silent stretches. */
  lemma {:induction false} TellIs(receivers: seq<Receiver>, pending: seq<Piece>, v: View)
    requires ReceiversOk(receivers)
    ensures Delivered(Tell(receivers, pending, v).messages) == Taken(receivers, v)
    ensures Tell(receivers, pending, v).rest == pending + Deferred(receivers, v)
  {
    hide TellRounds, Opening, FromUser;
    if receivers != [] {
      var front, x := receivers[..|receivers| - 1], receivers[|receivers| - 1];
      TellIs(front, pending, v);
      TellRoundsDelivers(x.group.rounds, x.pieces, v);
      DeliveredConcat(Tell(front, pending, v).messages, TellRounds(x.group.rounds, x.pieces, v).messages);
    }
  }

  /** No piece is swallowed, and behind a silent stretch with pieces no other piece comes. */
  predicate KeepsOrder(receivers: seq<Receiver>, pending: seq<Piece>, v: View)
    requires ReceiversOk(receivers)
  {
    && (forall k | 0 <= k < |receivers| :: !Swallows(receivers[k], v))
    && (forall k | 0 <= k < |receivers| && Defers(receivers[k], v) ::
          pending == [] && forall j | k < j < |receivers| :: !Takes(receivers[j], v))
  }

  lemma {:induction false} OrderIsKept(receivers: seq<Receiver>, pending: seq<Piece>, v: View)
    requires ReceiversOk(receivers) && KeepsOrder(receivers, pending, v)
    ensures Taken(receivers, v) + Deferred(receivers, v) == Handed(receivers)
    ensures Deferred(receivers, v) == [] <==> forall x :: x in receivers ==> !Defers(x, v)
    ensures Deferred(receivers, v) == [] || pending == []
  {
    hide Takes, Defers;
    if receivers != [] {
      var front, x := receivers[..|receivers| - 1], receivers[|receivers| - 1];
      assert receivers == front + [x];
      OrderIsKept(front, pending, v);
      assert !Swallows(x, v) && (Takes(x, v) ==> forall y :: y in front ==> !Defers(y, v));
      OneOfThree(x, v);
    }
  }

  lemma {:induction false} OneOfThree(x: Receiver, v: View)
    requires AreRounds(x.group.rounds)
    ensures x.pieces == [] ==> !Takes(x, v) && !Defers(x, v) && !Swallows(x, v)
    ensures x.pieces != [] ==> (Takes(x, v) || Defers(x, v) || Swallows(x, v)) && !(Takes(x, v) && Defers(x, v))
    ensures Swallows(x, v) ==> x.pieces != [] && !Takes(x, v) && !Defers(x, v)
  {
  }

  predicate DistinctPieces(s: seq<Piece>) {
    forall i, j | 0 <= i < j < |s| :: s[i] != s[j]
  }

  predicate Ahead(s: seq<Piece>, p: Piece, q: Piece) {
    exists i, j | 0 <= i < j < |s| :: s[i] == p && s[j] == q
  }

  lemma {:induction false} NotBothAhead(s: seq<Piece>, p: Piece, q: Piece)
    requires DistinctPieces(s) && Ahead(s, p, q)
    ensures !Ahead(s, q, p)
  {
  }

  lemma {:induction false} AheadAcross(a: seq<Piece>, b: seq<Piece>, p: Piece, q: Piece)
    requires p in a && q in b
    ensures Ahead(a + b, p, q)
  {
    var i :| 0 <= i < |a| && a[i] == p;
    var j :| 0 <= j < |b| && b[j] == q;
    assert (a + b)[i] == p && (a + b)[|a| + j] == q;
  }

  lemma {:induction false} HandedSplit(receivers: seq<Receiver>, k: nat)
    requires k <= |receivers|
    ensures Handed(receivers) == Handed(receivers[..k]) + Handed(receivers[k..])
  {
    if k == |receivers| {
      assert receivers[..k] == receivers && receivers[k..] == [];
    } else {
      var front, back := receivers[..|receivers| - 1], receivers[k..];
      HandedSplit(front, k);
      assert front[..k] == receivers[..k] && back[..|back| - 1] == front[k..];
      assert back[|back| - 1] == receivers[|receivers| - 1];
    }
  }

  lemma {:induction false} HandedHolds(receivers: seq<Receiver>, k: nat, p: Piece)
    requires k < |receivers| && p in receivers[k].pieces
    ensures p in Handed(receivers)
  {
    if k < |receivers| - 1 {
      HandedHolds(receivers[..|receivers| - 1], k, p);
    }
  }

  lemma {:induction false} SortsHold(receivers: seq<Receiver>, v: View, k: nat, p: Piece)
    requires ReceiversOk(receivers) && k < |receivers| && p in receivers[k].pieces
    ensures Takes(receivers[k], v) ==> p in Taken(receivers, v)
    ensures Defers(receivers[k], v) ==> p in Deferred(receivers, v)
  {
    hide Takes, Defers;
    if k < |receivers| - 1 {
      SortsHold(receivers[..|receivers| - 1], v, k, p);
    }
  }

  /** Every piece handed out is of one sort, so nothing is short only if nothing is
      swallowed. */
  lemma {:induction false} SwallowedAreShort(receivers: seq<Receiver>, v: View)
    requires ReceiversOk(receivers)
    ensures |Taken(receivers, v)| + |Deferred(receivers, v)| <= |Handed(receivers)|
    ensures |Taken(receivers, v)| + |Deferred(receivers, v)| == |Handed(receivers)| <==>
            forall k :: 0 <= k < |receivers| ==> !Swallows(receivers[k], v)
  {
    hide Takes, Defers, Swallows;
    if receivers != [] {
      var front, x := receivers[..|receivers| - 1], receivers[|receivers| - 1];
      SwallowedAreShort(front, v);
      OneOfThree(x, v);
      assert forall k :: 0 <= k < |receivers| ==> receivers[k] == if k < |front| then front[k] else x;
      assert (forall k :: 0 <= k < |receivers| ==> !Swallows(receivers[k], v)) ==> !Swallows(receivers[|front|], v);
    }
  }

  /** A silent stretch with pieces followed by another piece changes places with it. */
  lemma {:induction false} OrderIsLost(receivers: seq<Receiver>, pending: seq<Piece>, v: View)
    requires ReceiversOk(receivers) && DistinctPieces(Handed(receivers) + pending)
    requires Taken(receivers, v) + (pending + Deferred(receivers, v)) == Handed(receivers) + pending
    ensures KeepsOrder(receivers, pending, v)
  {
    hide Takes, Defers, Swallows, DistinctPieces, Ahead;
    var taken, deferred, all := Taken(receivers, v), Deferred(receivers, v), Handed(receivers) + pending;
    assert |taken| + |deferred| == |Handed(receivers)| by {
      assert |taken + (pending + deferred)| == |all|;
    }
    SwallowedAreShort(receivers, v);
    assert taken + (pending + deferred) == (taken + pending) + deferred;
    forall k | 0 <= k < |receivers| && Defers(receivers[k], v)
      ensures pending == [] && forall j :: k < j < |receivers| ==> !Takes(receivers[j], v)
    {
      OneOfThree(receivers[k], v);
      var p := receivers[k].pieces[0];
      SortsHold(receivers, v, k, p);
      HandedHolds(receivers, k, p);
      if pending != [] {
        AheadAcross(Handed(receivers), pending, p, pending[0]);
        AheadAcross(taken + pending, deferred, pending[0], p);
        NotBothAhead(all, p, pending[0]);
      }
      forall j | k < j < |receivers| ensures !Takes(receivers[j], v) {
        if Takes(receivers[j], v) {
          TakenPassesDeferred(receivers, pending, v, k, j);
        }
      }
    }
  }

  lemma {:induction false} TakenPassesDeferred(receivers: seq<Receiver>, pending: seq<Piece>, v: View, k: nat, j: nat)
    requires ReceiversOk(receivers) && DistinctPieces(Handed(receivers) + pending)
    requires Taken(receivers, v) + (pending + Deferred(receivers, v)) == Handed(receivers) + pending
    requires k < j < |receivers| && Defers(receivers[k], v)
    ensures !Takes(receivers[j], v)
  {
    hide Takes, Defers, Swallows, DistinctPieces, Ahead;
    if Takes(receivers[j], v) {
      OneOfThree(receivers[k], v);
      OneOfThree(receivers[j], v);
      var p, q := receivers[k].pieces[0], receivers[j].pieces[0];
      var front, back := receivers[..j], receivers[j..];
      SortsHold(receivers, v, k, p);
      SortsHold(receivers, v, j, q);
      HandedSplit(receivers, j);
      HandedHolds(front, k, p);
      HandedHolds(back, 0, q);
      assert Handed(receivers) + pending == Handed(front) + (Handed(back) + pending);
      AheadAcross(Handed(front), Handed(back) + pending, p, q);
      AheadAcross(Taken(receivers, v), pending + Deferred(receivers, v), q, p);
      NotBothAhead(Handed(receivers) + pending, p, q);
    }
  }

  // ---- all groups -------------------------------------------------------------------------------------

  /** What the other agents did, stretch by stretch. */
  function AllPieces(groups: seq<Group>): seq<Piece> {
    if groups == [] then []
    else
      var g := groups[|groups| - 1];
      AllPieces(groups[..|groups| - 1]) + if !g.normal && PieceOf(g) != [] then [PieceOf(g)] else []
  }

  function NormalRounds(rounds: seq<Round>, current: Option<string>): seq<Round>
    requires AreRounds(rounds)
  {
    if rounds == [] then []
    else
      var r := rounds[|rounds| - 1];
      NormalRounds(rounds[..|rounds| - 1], current) + if IsNormal(r, current) then [r] else []
  }

  lemma {:induction false} MergeKeepsPieces(groups: seq<Group>)
    ensures Handed(Merge(groups).receivers) + Merge(groups).pending == AllPieces(groups)
  {
    hide PieceOf;
    if groups != [] {
      var front, g := groups[..|groups| - 1], groups[|groups| - 1];
      MergeKeepsPieces(front);
      var m := Merge(front);
      if g.normal {
        var all := m.receivers + [Receiver(g, m.pending)];
        assert all[..|all| - 1] == m.receivers;
      }
    }
  }

  lemma {:induction false} NormalConcat(a: seq<Round>, b: seq<Round>, current: Option<string>)
    requires AreRounds(a) && AreRounds(b)
    ensures AreRounds(a + b)
    ensures NormalRounds(a + b, current) == NormalRounds(a, current) + NormalRounds(b, current)
  {
    assert forall r :: r in a + b ==> r in a || r in b;
    if b == [] {
      assert a + b == a;
    } else {
      assert (a + b)[..|a + b| - 1] == a + b[..|b| - 1];
      NormalConcat(a, b[..|b| - 1], current);
    }
  }

  lemma {:induction false} NormalAllOrNone(rounds: seq<Round>, current: Option<string>, normal: bool)
    requires AreRounds(rounds) && forall r :: r in rounds ==> IsNormal(r, current) == normal
    ensures NormalRounds(rounds, current) == if normal then rounds else []
  {
    if rounds != [] {
      var front := rounds[..|rounds| - 1];
      NormalAllOrNone(front, current, normal);
      assert rounds[|rounds| - 1] in rounds && rounds == front + [rounds[|rounds| - 1]];
    }
  }

  lemma {:induction false} PlainConcatRounds(a: seq<Round>, b: seq<Round>, v: View)
    requires AreRounds(a) && AreRounds(b) && AreRounds(a + b)
    ensures PlainRounds(a + b, v) == PlainRounds(a, v) + PlainRounds(b, v)
  {
    hide RoundMessages;
    if b == [] {
      assert a + b == a;
    } else {
      assert (a + b)[..|a + b| - 1] == a + b[..|b| - 1];
      assert forall r :: r in a + b[..|b| - 1] ==> r in a + b;
      PlainConcatRounds(a, b[..|b| - 1], v);
    }
  }

  /** The receivers are the normal rounds, in order. */
  lemma {:induction false} MergeKeepsRounds(groups: seq<Group>, current: Option<string>, v: View)
    requires forall g :: g in groups ==> GroupOk(g, current)
    ensures AreRounds(RoundsOf(groups)) && AreRounds(NormalRounds(RoundsOf(groups), current)) && ReceiversOk(Merge(groups).receivers)
    ensures PlainReceivers(Merge(groups).receivers, v) == PlainRounds(NormalRounds(RoundsOf(groups), current), v)
  {
    hide RoundMessages, PieceOf, PlainRounds;
    MergeOk(groups, current);
    if groups == [] {
      NothingPlain(v);
    } else {
      var front, g := groups[..|groups| - 1], groups[|groups| - 1];
      assert g in groups && forall x :: x in front ==> x in groups;
      MergeKeepsRounds(front, current, v);
      NormalConcat(RoundsOf(front), g.rounds, current);
      forall r | r in g.rounds ensures IsNormal(r, current) == g.normal {
        GroupMember(g, r, current);
      }
      NormalAllOrNone(g.rounds, current, g.normal);
      if g.normal {
        var all := Merge(front).receivers + [Receiver(g, Merge(front).pending)];
        assert all[..|all| - 1] == Merge(front).receivers;
        NormalConcatRounds(NormalRounds(RoundsOf(front), current), g.rounds);
        PlainConcatRounds(NormalRounds(RoundsOf(front), current), g.rounds, v);
      } else {
        assert NormalRounds(RoundsOf(front), current) + [] == NormalRounds(RoundsOf(front), current);
      }
    }
  }

  lemma {:induction false} NothingPlain(v: View)
    ensures PlainRounds([], v) == []
  {
  }

  lemma {:induction false} GroupMember(g: Group, r: Round, current: Option<string>)
    requires GroupOk(g, current) && r in g.rounds
    ensures IsRound(r) && IsNormal(r, current) == g.normal
  {
  }

  lemma {:induction false} NormalAreRounds(rounds: seq<Round>, current: Option<string>)
    requires AreRounds(rounds)
    ensures AreRounds(NormalRounds(rounds, current))
    ensures forall r :: r in NormalRounds(rounds, current) ==> r in rounds
  {
    if rounds != [] {
      NormalAreRounds(rounds[..|rounds| - 1], current);
      assert rounds[|rounds| - 1] in rounds;
    }
  }

  lemma {:induction false} NormalConcatRounds(a: seq<Round>, b: seq<Round>)
    requires AreRounds(a) && AreRounds(b)
    ensures AreRounds(a + b)
  {
  }

  // ---- the main results ----------------------------------------------------------------------------------

  function GroupsOf(rounds: seq<Round>, current: Option<string>, excluded: Option<nat>): (r: seq<Group>)
    requires AreRounds(rounds)
    ensures GroupsOk(r, current) && RoundsOf(r) == Latest(rounds, excluded)
  {
    LatestIsLast(rounds, excluded, 0);
    GroupsPartition(Latest(rounds, excluded), current);
    Groups(Latest(rounds, excluded), current)
  }

  function ReceiversOf(rounds: seq<Round>, current: Option<string>, excluded: Option<nat>): (r: seq<Receiver>)
    requires AreRounds(rounds)
    ensures ReceiversOk(r) && r == Merge(GroupsOf(rounds, current, excluded)).receivers
  {
    MergeOk(GroupsOf(rounds, current, excluded), current);
    Merge(GroupsOf(rounds, current, excluded)).receivers
  }

  /** Apart from the Group Input put into them, the history messages are those of the
      agent's own latest rounds, in the order of the history; the current input's rounds
      do not appear. */
  lemma {:induction false} OwnRoundsInOrder(rounds: seq<Round>, current: Option<string>, excluded: Option<nat>, v: View)
    requires AreRounds(rounds)
    ensures AreRounds(Latest(rounds, excluded)) && AreRounds(NormalRounds(Latest(rounds, excluded), current))
    ensures Plain(Project(rounds, current, excluded, v).messages)
         == PlainRounds(NormalRounds(Latest(rounds, excluded), current), v)
  {
    hide Tell, RoundMessages;
    LatestIsLast(rounds, excluded, 0);
    var groups := GroupsOf(rounds, current, excluded);
    MergeKeepsRounds(groups, current, v);
    NormalAreRounds(Latest(rounds, excluded), current);
    TellPlain(Merge(groups).receivers, Merge(groups).pending, v);
  }

  /** Every piece of Group Input is delivered exactly once, into a history message or the
      current input, exactly if no piece is handed to a stretch whose first speaking round
      has no user input. */
  lemma {:induction false} GroupInputExactlyOnce(rounds: seq<Round>, current: Option<string>, excluded: Option<nat>, v: View)
    requires AreRounds(rounds)
    ensures var p := Project(rounds, current, excluded, v);
            (multiset(Delivered(p.messages)) + multiset(p.rest) == multiset(AllPieces(GroupsOf(rounds, current, excluded)))) <==>
            (forall x :: x in ReceiversOf(rounds, current, excluded) && x.pieces != [] ==>
              Opening(x.group.rounds, v).None? || FromUser(Opening(x.group.rounds, v).value))
  {
    hide Tell, Opening, FromUser, Copies;
    var groups := GroupsOf(rounds, current, excluded);
    var receivers := ReceiversOf(rounds, current, excluded);
    var m := Merge(groups);
    var t := Tell(receivers, m.pending, v);
    MergeKeepsPieces(groups);
    NothingLost(receivers, v);
    forall p ensures Copies(Delivered(t.messages) + t.rest, p) + Copies(Lost(receivers, v), p) == Copies(AllPieces(groups), p) {
      TellConserves(receivers, m.pending, v, p);
      CopiesConcat(Delivered(t.messages), t.rest, p);
      CopiesConcat(Handed(receivers), m.pending, p);
    }
    SameWithout(Delivered(t.messages) + t.rest, Lost(receivers, v), AllPieces(groups));
    assert multiset(Delivered(t.messages) + t.rest) == multiset(Delivered(t.messages)) + multiset(t.rest);
  }

  lemma {:induction false} SameWithout(a: seq<Piece>, lost: seq<Piece>, all: seq<Piece>)
    requires forall p :: Copies(a, p) + Copies(lost, p) == Copies(all, p)
    ensures multiset(a) == multiset(all) <==> lost == []
  {
    if lost == [] {
      forall p ensures multiset(a)[p] == multiset(all)[p] {
        assert Copies(a, p) + Copies(lost, p) == Copies(all, p);
      }
    } else {
      assert lost[0] in multiset(lost);
      assert Copies(a, lost[0]) + Copies(lost, lost[0]) == Copies(all, lost[0]);
    }
  }

  lemma {:induction false} NothingLost(receivers: seq<Receiver>, v: View)
    requires ReceiversOk(receivers)
    ensures Lost(receivers, v) == [] <==>
            forall x :: x in receivers && x.pieces != [] ==>
              Opening(x.group.rounds, v).None? || FromUser(Opening(x.group.rounds, v).value)
  {
    hide Opening, FromUser;
    if receivers != [] {
      var front, x := receivers[..|receivers| - 1], receivers[|receivers| - 1];
      NothingLost(front, v);
      assert receivers == front + [x];
      assert forall y :: y in receivers <==> y in front || y == x;
    }
  }

  /** The pieces arrive in the order of the history if none is swallowed and no piece
      comes behind a silent stretch that has been handed one; where the pieces can be told
      apart, exactly then. */
  lemma {:induction false} GroupInputInOrder(rounds: seq<Round>, current: Option<string>, excluded: Option<nat>, v: View)
    requires AreRounds(rounds)
    ensures var p, groups := Project(rounds, current, excluded, v), GroupsOf(rounds, current, excluded);
            var keeps := KeepsOrder(ReceiversOf(rounds, current, excluded), Merge(groups).pending, v);
            && (keeps ==> Delivered(p.messages) + p.rest == AllPieces(groups))
            && (DistinctPieces(AllPieces(groups)) ==> (Delivered(p.messages) + p.rest == AllPieces(groups) <==> keeps))
  {
    hide Tell, KeepsOrder, DistinctPieces, Taken, Deferred, Handed;
    var groups := GroupsOf(rounds, current, excluded);
    var receivers, pending := ReceiversOf(rounds, current, excluded), Merge(groups).pending;
    MergeKeepsPieces(groups);
    TellIs(receivers, pending, v);
    if KeepsOrder(receivers, pending, v) {
      OrderIsKept(receivers, pending, v);
      assert Taken(receivers, v) + (pending + Deferred(receivers, v)) == Taken(receivers, v) + Deferred(receivers, v) + pending;
    }
    if DistinctPieces(AllPieces(groups)) && Taken(receivers, v) + (pending + Deferred(receivers, v)) == AllPieces(groups) {
      OrderIsLost(receivers, pending, v);
    }
  }

  /** Where every input is the user's, nothing is ever lost. */
  lemma {:induction false} UserHistoriesLoseNothing(rounds: seq<Round>, current: Option<string>, excluded: Option<nat>, v: View)
    requires AreRounds(rounds) && forall r :: r in rounds ==> FromUser(r)
    ensures var p := Project(rounds, current, excluded, v);
            multiset(Delivered(p.messages)) + multiset(p.rest) == multiset(AllPieces(GroupsOf(rounds, current, excluded)))
  {
    hide Project, FromUser, Opening;
    LatestIsLast(rounds, excluded, 0);
    var groups := GroupsOf(rounds, current, excluded);
    forall x | x in ReceiversOf(rounds, current, excluded) && x.pieces != [] && Opening(x.group.rounds, v).Some?
      ensures FromUser(Opening(x.group.rounds, v).value)
    {
      ReceivedRounds(groups, x);
      assert Opening(x.group.rounds, v).value in RoundsOf(groups);
    }
    GroupInputExactlyOnce(rounds, current, excluded, v);
  }

  lemma {:induction false} ReceivedRounds(groups: seq<Group>, x: Receiver)
    requires x in Merge(groups).receivers
    ensures forall r :: r in x.group.rounds ==> r in RoundsOf(groups)
  {
    hide PieceOf;
    if groups != [] {
      var front, g := groups[..|groups| - 1], groups[|groups| - 1];
      if x in Merge(front).receivers {
        ReceivedRounds(front, x);
      }
    }
  }
}
