/** What the pieces of Group Input say, and what an agent's own rounds say. */
module ProjectionContents {
  import opened Common
  import opened KernelModels
  import opened KernelSteps
  import opened KernelInvariant
  import opened KernelPreserved
  import opened KernelTheorems
  import opened ToolRounds
  import opened Projection
  import opened ProjectionTheorems
  import opened SessionProjection

  // ---- lists --------------------------------------------------------------------------------

  lemma {:induction false} FlattenConcat<T>(a: seq<seq<T>>, b: seq<seq<T>>)
    ensures Flatten(a + b) == Flatten(a) + Flatten(b)
  {
    if b == [] {
      assert a + b == a;
    } else {
      assert (a + b)[..|a + b| - 1] == a + b[..|b| - 1];
      FlattenConcat(a, b[..|b| - 1]);
    }
  }

  lemma {:induction false} FlattenOne<T>(s: seq<T>)
    ensures Flatten([s]) == s
  {
    assert [s][..0] == [] && [s][0] == s;
    assert Flatten([s]) == Flatten([]) + s;
  }

  lemma {:induction false} FlattenHolds<T>(lists: seq<seq<T>>)
    ensures forall x :: x in Flatten(lists) <==> exists s :: s in lists && x in s
  {
    if lists != [] {
      var front, last := lists[..|lists| - 1], lists[|lists| - 1];
      FlattenHolds(front);
      assert lists == front + [last];
      assert forall s :: s in lists <==> s in front || s == last;
    }
  }

  // ---- a piece of Group Input -------------------------------------------------------------------

  /** What other agents are told, kind by kind: the user's own inputs but not the wake-up of
      a handoff, every answer, tool call, question and change of control, and the tool and
      model steps that have come to a result. */
  predicate ToldToOthers(a: Artifact) {
    || a.AssistantArtifact? || a.ToolCallArtifact? || a.InterruptionArtifact? || a.FrameArtifact?
    || (a.InputArtifact? && a.input.origin.None? && a.input.event.UserInput?)
    || (a.ToolExeArtifact? && a.exe.ToolUnit? && a.exe.result.Some?)
    || (a.ToolLlmArtifact? && a.exe.LlmUnit? && a.exe.message.Some?)
  }

  lemma {:induction false} SpokenIs(r: seq<Artifact>)
    ensures Spoken(r) == Filter(ToldToOthers, r)
  {
    hide ToldToOthers, Speaks;
    if r != [] {
      FilterFirst(ToldToOthers, r);
      SpokenIs(r[1..]);
      KindByKind(r[0]);
    }
  }

  lemma {:induction false} KindByKind(a: Artifact)
    ensures Speaks(a) <==> ToldToOthers(a)
  {
  }

  /** A piece is the stretch it comes from, in order, without what is not told. */
  lemma {:induction false} PieceIs(g: Group)
    ensures PieceOf(g) == Filter(ToldToOthers, Flatten(g.rounds))
    ensures forall a :: a in PieceOf(g) <==> ToldToOthers(a) && exists r :: r in g.rounds && a in r
  {
    SpokenIs(Flatten(g.rounds));
    FilterHolds(ToldToOthers, Flatten(g.rounds));
    FlattenHolds(g.rounds);
  }

  // ---- all pieces ----------------------------------------------------------------------------------

  predicate OfAnother(r: Round, current: Option<string>) {
    r != [] && current.Some? && r[0].owner != current.value
  }

  /** The rounds of the other agents, in order. */
  function Others(rounds: seq<Round>, current: Option<string>): seq<Round> {
    Filter((r: Round) => OfAnother(r, current), rounds)
  }

  lemma {:induction false} GroupPieces(groups: seq<Group>, current: Option<string>)
    requires forall g :: g in groups ==> GroupOk(g, current)
    ensures Flatten(AllPieces(groups)) == Filter(ToldToOthers, Flatten(Others(RoundsOf(groups), current)))
  {
    hide PieceOf, ToldToOthers, Filter;
    var f := (r: Round) => OfAnother(r, current);
    if groups == [] {
      NothingFiltered(f);
      NothingFiltered(ToldToOthers);
    } else {
      var front, g := groups[..|groups| - 1], groups[|groups| - 1];
      assert g in groups && forall x :: x in front ==> x in groups;
      GroupPieces(front, current);
      FilterConcat(f, RoundsOf(front), g.rounds);
      forall r: Round | r in g.rounds ensures f(r) == !g.normal {
        assert GroupOk(g, current) && IsRound(r);
      }
      FilterAllOrNone(f, g.rounds, !g.normal);
      var before, own := Others(RoundsOf(front), current), if g.normal then [] else g.rounds;
      FlattenConcat(before, own);
      FilterConcat(ToldToOthers, Flatten(before), Flatten(own));
      NothingFiltered(ToldToOthers);
      PieceIs(g);
      var piece := if !g.normal && PieceOf(g) != [] then [PieceOf(g)] else [];
      FlattenConcat(AllPieces(front), piece);
      if piece != [] {
        FlattenOne(PieceOf(g));
      }
    }
  }

  lemma {:induction false} NothingFiltered<T>(f: T -> bool)
    ensures Filter(f, []) == []
  {
  }

  /** One after the other, the pieces are all that the other agents' kept rounds tell, in
      the order of the history. */
  lemma {:induction false} PiecesAre(rounds: seq<Round>, current: Option<string>, excluded: Option<nat>)
    requires AreRounds(rounds)
    ensures AreRounds(Latest(rounds, excluded))
    ensures Flatten(AllPieces(GroupsOf(rounds, current, excluded))) == Filter(ToldToOthers, Flatten(Others(Latest(rounds, excluded), current)))
  {
    hide AllPieces, Others, GroupOk;
    LatestIsLast(rounds, excluded, 0);
    GroupPieces(GroupsOf(rounds, current, excluded), current);
  }

  /** What an artifact of another agent's kept round tells reaches the reader: it stands in a
      piece put into a user message or left to the current input; and nothing else does. */
  lemma {:induction false} ToldReaches(rounds: seq<Round>, current: Option<string>, excluded: Option<nat>, v: View, a: Artifact)
    requires AreRounds(rounds) && forall r :: r in rounds ==> FromUser(r)
    ensures AreRounds(Latest(rounds, excluded))
    ensures var p := Project(rounds, current, excluded, v);
            (exists piece :: (piece in Delivered(p.messages) || piece in p.rest) && a in piece) <==>
            ToldToOthers(a) && exists r :: r in Latest(rounds, excluded) && OfAnother(r, current) && a in r
  {
    hide Project, AllPieces, GroupsOf, FromUser, ToldToOthers, Delivered;
    UserHistoriesLoseNothing(rounds, current, excluded, v);
    PiecesAre(rounds, current, excluded);
    var p, all := Project(rounds, current, excluded, v), AllPieces(GroupsOf(rounds, current, excluded));
    forall piece ensures piece in Delivered(p.messages) || piece in p.rest <==> piece in all {
      assert piece in all <==> piece in multiset(all);
      assert piece in multiset(all) <==> piece in multiset(Delivered(p.messages)) || piece in multiset(p.rest);
    }
    FlattenHolds(all);
    var others := Others(Latest(rounds, excluded), current);
    FilterHolds((r: Round) => OfAnother(r, current), Latest(rounds, excluded));
    FlattenHolds(others);
    FilterHolds(ToldToOthers, Flatten(others));
  }

  /** After every history of runs: an agent sees all that the other agents' last rounds of
      every input tell, and of other agents nothing besides. */
  lemma {:induction false} SessionsTellAll(config: Config, actions: seq<Action>, rounds: seq<Round>, current: Option<string>,
                                           excluded: Option<nat>, v: View, a: Artifact)
    requires ConfigOk(config) && AreRounds(rounds)
    requires Flatten(rounds) == FromFirstInput(ApplyAll(config, NewWorld(config), actions).state.session.history)
    ensures AreRounds(Latest(rounds, excluded))
    ensures var p := Project(rounds, current, excluded, v);
            (exists piece :: (piece in Delivered(p.messages) || piece in p.rest) && a in piece) <==>
            ToldToOthers(a) && exists r :: r in Latest(rounds, excluded) && OfAnother(r, current) && a in r
  {
    hide ApplyAll, Project, Delivered, FromUser, ToldToOthers, ConfigOk;
    SessionRoundsFromUser(config, actions, rounds);
    ToldReaches(rounds, current, excluded, v, a);
  }

  // ---- where a piece goes ------------------------------------------------------------------------------

  /** The stretches of other agents from `j` on, up to the current agent's next one at `k`, or
      to the end. */
  predicate Between(groups: seq<Group>, j: nat, k: nat) {
    && j <= k <= |groups| && (j == 0 || groups[j - 1].normal) && (k < |groups| ==> groups[k].normal)
    && forall i | j <= i < k :: !groups[i].normal
  }

  function OwnStretches(groups: seq<Group>): seq<Group> {
    Filter((g: Group) => g.normal, groups)
  }

  lemma {:induction false} ReceiversAre(groups: seq<Group>)
    ensures |Merge(groups).receivers| == |OwnStretches(groups)|
    ensures forall i :: 0 <= i < |OwnStretches(groups)| ==> Merge(groups).receivers[i].group == OwnStretches(groups)[i]
  {
    hide PieceOf;
    if groups != [] {
      ReceiversAre(groups[..|groups| - 1]);
    }
  }

  lemma {:induction false} PendingSince(groups: seq<Group>, j: nat)
    requires j <= |groups| && (j == 0 || groups[j - 1].normal) && forall i :: j <= i < |groups| ==> !groups[i].normal
    ensures Merge(groups).pending == AllPieces(groups[j..])
    decreases |groups|
  {
    hide PieceOf;
    if j == |groups| {
      assert groups[j..] == [];
    } else {
      var front := groups[..|groups| - 1];
      PendingSince(front, j);
      assert groups[j..][..|groups[j..]| - 1] == front[j..];
    }
  }

  lemma {:induction false} ReceiversStay(groups: seq<Group>, n: nat)
    requires n <= |groups|
    ensures Merge(groups[..n]).receivers <= Merge(groups).receivers
    decreases |groups|
  {
    hide PieceOf;
    if n == |groups| {
      assert groups[..n] == groups;
    } else {
      ReceiversStay(groups[..|groups| - 1], n);
      assert groups[..|groups| - 1][..n] == groups[..n];
    }
  }

  /** What the other agents did goes to the current agent's next stretch, all of it and
      nothing else; what comes behind the last one is left to the current input. */
  lemma {:induction false} PiecesGoToNext(groups: seq<Group>, j: nat, k: nat)
    requires Between(groups, j, k)
    ensures var n := |OwnStretches(groups[..k])|;
            if k < |groups| then n < |Merge(groups).receivers| && Merge(groups).receivers[n] == Receiver(groups[k], AllPieces(groups[j..k]))
            else Merge(groups).pending == AllPieces(groups[j..k])
  {
    hide PieceOf, AllPieces;
    var front := groups[..k];
    PendingSince(front, j);
    assert front[j..] == groups[j..k];
    if k < |groups| {
      ReceiversAre(front);
      ReceiversStay(groups, k + 1);
      assert groups[..k + 1][..k] == front;
    } else {
      assert front == groups;
    }
  }

  lemma {:induction false} SilentTell(rounds: seq<Round>, pieces: seq<Piece>, v: View)
    requires AreRounds(rounds) && forall r :: r in rounds ==> RoundMessages(r, [], v) == []
    ensures TellRounds(rounds, pieces, v) == Told([], pieces)
  {
    hide RoundMessages;
    if rounds != [] {
      var front, r := rounds[..|rounds| - 1], rounds[|rounds| - 1];
      assert r in rounds && forall x :: x in front ==> x in rounds;
      SilentTell(front, pieces, v);
      RoundDelivers(r, pieces, v);
    }
  }

  /** Of the rounds of a stretch the first that says anything has the pieces in it, and no
      other. */
  lemma {:induction false} FirstHasPieces(silent: seq<Round>, r: Round, rest: seq<Round>, pieces: seq<Piece>, v: View)
    requires AreRounds(silent + [r] + rest) && (forall x :: x in silent ==> IsRound(x) && RoundMessages(x, [], v) == [])
    requires IsRound(r) && RoundMessages(r, [], v) != [] && AreRounds(rest)
    ensures TellRounds(silent + [r] + rest, pieces, v) == Told(RoundMessages(r, pieces, v) + PlainRounds(rest, v), [])
  {
    hide RoundMessages;
    var all := silent + [r] + rest;
    if rest == [] {
      assert all == silent + [r] && all[..|all| - 1] == silent;
      SilentTell(silent, pieces, v);
      RoundDelivers(r, pieces, v);
      assert [] + RoundMessages(r, pieces, v) == RoundMessages(r, pieces, v) + [];
    } else {
      var front, last := rest[..|rest| - 1], rest[|rest| - 1];
      assert all[..|all| - 1] == silent + [r] + front;
      assert forall x :: x in silent + [r] + front ==> x in all;
      assert forall x :: x in front ==> x in rest;
      FirstHasPieces(silent, r, front, pieces, v);
      assert RoundMessages(r, pieces, v) + PlainRounds(front, v) + RoundMessages(last, [], v)
          == RoundMessages(r, pieces, v) + (PlainRounds(front, v) + RoundMessages(last, [], v));
    }
  }

  // ---- an agent's own rounds ---------------------------------------------------------------------------

  /** What an agent's own round says, kind by kind: a change of control speaks if it cut a
      tool loop off. */
  predicate SaidInRound(a: Artifact) {
    || a.AssistantArtifact? || a.ToolCallArtifact? || a.InterruptionArtifact?
    || (a.FrameArtifact? && (a.change.Push? || a.change.byTool))
    || (a.InputArtifact? && a.input.event.UserInput?)
    || (a.ToolExeArtifact? && a.exe.ToolUnit? && a.exe.result.Some?)
    || (a.ToolLlmArtifact? && a.exe.LlmUnit? && a.exe.message.Some?)
  }

  /** An assistant message with the ids of these calls, in order. */
  predicate SpeaksCalls(m: Projected, calls: seq<ToolCall>) {
    && m.Voice? && m.message.AssistantMessage? && |m.message.calls| == |calls|
    && forall k | 0 <= k < |calls| :: m.message.calls[k] == calls[k].id
  }

  /** The message an artifact becomes. */
  predicate SaidAs(a: Artifact, m: Projected, pieces: seq<Piece>) {
    match a
    case InputArtifact(_, input) => m == User(input, pieces)
    case AssistantArtifact(_, message) => SpeaksCalls(m, message.calls)
    case ToolCallArtifact(_, message) => SpeaksCalls(m, message.calls)
    case ToolExeArtifact(_, exe) => exe.ToolUnit? && m == Voice(ToolMessage(exe.call.id))
    case ToolLlmArtifact(_, exe) => exe.LlmUnit? && exe.message.Some? && SpeaksCalls(m, exe.message.value.calls)
    case FrameArtifact(_, _) => SpeaksCalls(m, [])
    case InterruptionArtifact(_, _) => SpeaksCalls(m, [])
  }

  predicate AllSaidAs(artifacts: seq<Artifact>, messages: seq<Projected>, pieces: seq<Piece>) {
    |messages| == |artifacts| && forall k | 0 <= k < |messages| :: SaidAs(artifacts[k], messages[k], pieces)
  }

  lemma {:induction false} AllMessagesAre(r: seq<Artifact>, pieces: seq<Piece>)
    ensures AllSaidAs(Filter(SaidInRound, r), AllMessages(r, pieces), pieces)
  {
    hide SaidInRound, SaidAs, ArtifactMessages, InputMessages;
    if r != [] {
      AllMessagesAre(r[..|r| - 1], pieces);
      OneArtifact(r[|r| - 1], pieces);
    }
  }

  lemma {:induction false} OneArtifact(a: Artifact, pieces: seq<Piece>)
    ensures var said := if a.InputArtifact? then InputMessages(a.input, pieces) else Voices(ArtifactMessages(a));
            if SaidInRound(a) then |said| == 1 && SaidAs(a, said[0], pieces) else said == []
  {
  }

  /** The last words of a tool loop: those of the model's last step, without calls. */
  ghost predicate LastWords(r: Round, messages: seq<Projected>) {
    if exists k :: 0 <= k < |r| && r[k].ToolLlmArtifact? then
      exists k :: && 0 <= k < |r| && r[k].ToolLlmArtifact? && (forall j :: k < j < |r| ==> !r[j].ToolLlmArtifact?)
                  && if r[k].exe.LlmUnit? && r[k].exe.message.Some? then |messages| == 1 && SpeaksCalls(messages[0], []) else messages == []
    else messages == []
  }

  lemma {:induction false} FinalWordsAre(r: Round)
    ensures LastWords(r, FinalWords(r))
  {
    if r != [] {
      var front := r[..|r| - 1];
      if r[|r| - 1].ToolLlmArtifact? {
        assert r[|r| - 1].ToolLlmArtifact?;
      } else {
        FinalWordsAre(front);
        assert forall k :: 0 <= k < |front| ==> front[k] == r[k];
        if k :| 0 <= k < |front| && front[k].ToolLlmArtifact? {
          assert r[k].ToolLlmArtifact?;
        }
      }
    }
  }

  /** A round whose tools are all at hand says every artifact that speaks, in order, each as
      its kind demands, the user's message with the Group Input in it. A round that calls a
      missing tool says only that user message and the model's last words, and nothing at
      all if one of its results has expired. */
  lemma {:induction false} RoundSays(r: Round, pieces: seq<Piece>, v: View)
    requires IsRound(r)
    ensures var said := RoundMessages(r, pieces, v);
            var missing := exists a, c :: a in r && a.ToolCallArtifact? && c in a.message.calls && (c.name.None? || c.name.value !in v.available);
            var expired := exists a :: a in r && a.ToolExeArtifact? && a.exe.ToolUnit? && a.exe.result.Some? && a.exe.id in v.expired;
            if !missing then AllSaidAs(Filter(SaidInRound, r), said, pieces)
            else if expired then said == []
            else exists words :: LastWords(r, words) && said == (if r[0].input.event.UserInput? then [User(r[0].input, pieces)] else []) + words
  {
    hide AllMessages, Filter, SaidInRound, AllSaidAs, LastWords, FinalWords;
    AllMessagesAre(r, pieces);
    FinalWordsAre(r);
  }
}
