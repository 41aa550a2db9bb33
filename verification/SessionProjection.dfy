/** The projection of the histories the runtime itself writes, and of one it does not. */
module SessionProjection {
  import opened Common
  import opened KernelModels
  import opened KernelSteps
  import opened KernelInvariant
  import opened KernelPreserved
  import opened KernelTheorems
  import opened ToolRounds
  import opened Projection
  import opened ProjectionTheorems

  lemma {:induction false} FirstInputOnward(history: seq<Artifact>)
    ensures forall a :: a in FromFirstInput(history) ==> a in history
  {
    if history != [] && !history[0].InputArtifact? {
      FirstInputOnward(history[1..]);
    }
  }

  lemma {:induction false} InFlatten(rounds: seq<Round>, r: Round, a: Artifact)
    requires r in rounds && a in r
    ensures a in Flatten(rounds)
  {
    if r in rounds[..|rounds| - 1] {
      InFlatten(rounds[..|rounds| - 1], r, a);
    }
  }

  /** Every round the runtime writes opens with the user's input or a wake-up. */
  lemma {:induction false} SessionRoundsFromUser(config: Config, actions: seq<Action>, rounds: seq<Round>)
    requires ConfigOk(config) && AreRounds(rounds)
    requires Flatten(rounds) == FromFirstInput(ApplyAll(config, NewWorld(config), actions).state.session.history)
    ensures forall r :: r in rounds ==> FromUser(r)
  {
    hide ApplyAll, ConfigOk, TasksOk, FramesOk, FromFirstInput;
    AlwaysSafe(config, actions);
    var history := ApplyAll(config, NewWorld(config), actions).state.session.history;
    FirstInputOnward(history);
    forall r | r in rounds ensures FromUser(r) {
      InFlatten(rounds, r, r[0]);
      assert r[0] in history;
    }
  }

  /** After every history of runs, every agent's view of the session delivers what each
      other agent did exactly once. */
  lemma {:induction false} SessionsLoseNothing(config: Config, actions: seq<Action>, rounds: seq<Round>, current: Option<string>,
                            excluded: Option<nat>, v: View)
    requires ConfigOk(config) && AreRounds(rounds)
    requires Flatten(rounds) == FromFirstInput(ApplyAll(config, NewWorld(config), actions).state.session.history)
    ensures var p := Project(rounds, current, excluded, v);
            multiset(Delivered(p.messages)) + multiset(p.rest) == multiset(AllPieces(GroupsOf(rounds, current, excluded)))
  {
    hide ApplyAll, Project, ConfigOk;
    SessionRoundsFromUser(config, actions, rounds);
    UserHistoriesLoseNothing(rounds, current, excluded, v);
  }

  // ---- an input without a user message -------------------------------------------------------

  const THEIRS: Round := [InputArtifact("other", Input(0, None, UserInput("hello")))]
  const OURS: Round := [InputArtifact("me", Input(1, None, InterruptionResponse(0, RetryData))),
                 AssistantArtifact("me", Message([], [], false))]

  /** The condition of exactly-once delivery is not idle: a round that opens with an
      interruption response swallows the piece it is handed. */
  lemma {:induction false} ResponseRoundSwallowsPiece(v: View)
    ensures AreRounds([THEIRS, OURS])
    ensures var p := Project([THEIRS, OURS], Some("me"), None, v);
            multiset(Delivered(p.messages)) + multiset(p.rest)
              != multiset(AllPieces(GroupsOf([THEIRS, OURS], Some("me"), None)))
  {
    hide Project, RoundMessages, PieceOf, Merge;
    var theirs, ours := Group(false, "other", [THEIRS]), Group(true, "me", [OURS]);
    assert forall r :: r in [THEIRS, OURS] ==> IsRound(r);
    assert IdOf(THEIRS) != IdOf(OURS);
    LatestOfBoth();
    GroupsOfBoth();
    var x := Receiver(ours, [PieceOf(theirs)]);
    MergeOfBoth(theirs, ours);
    assert x in ReceiversOf([THEIRS, OURS], Some("me"), None);
    OursSpeaks(v);
    GroupInputExactlyOnce([THEIRS, OURS], Some("me"), None, v);
  }

  lemma {:induction false} LatestOfBoth()
    ensures AreRounds([THEIRS, OURS]) && Latest([THEIRS, OURS], None) == [THEIRS, OURS]
  {
    var both, last := [THEIRS, OURS], [OURS];
    assert both[1..] == last && last[1..] == [];
    assert forall r :: r in both ==> IsRound(r);
    assert !Holds([], IdOf(OURS)) && !Holds(last, IdOf(THEIRS));
    assert Latest(last, None) == [OURS] + Latest([], None) == [OURS];
    assert Latest(both, None) == [THEIRS] + Latest(last, None);
  }

  lemma {:induction false} GroupsOfBoth()
    ensures AreRounds([THEIRS, OURS])
    ensures GroupsOf([THEIRS, OURS], Some("me"), None) == [Group(false, "other", [THEIRS]), Group(true, "me", [OURS])]
  {
    LatestOfBoth();
    var both, first := [THEIRS, OURS], [THEIRS];
    assert both[..1] == first && first[..0] == [];
    assert |"other"| != |"me"|;
    assert Groups(first, Some("me")) == AddRound([], THEIRS, Some("me")) == [Group(false, "other", [THEIRS])];
    assert Groups(both, Some("me")) == AddRound([Group(false, "other", [THEIRS])], OURS, Some("me"));
  }

  lemma {:induction false} MergeOfBoth(theirs: Group, ours: Group)
    requires theirs == Group(false, "other", [THEIRS]) && ours == Group(true, "me", [OURS])
    ensures PieceOf(theirs) != []
    ensures Merge([theirs, ours]).receivers == [Receiver(ours, [PieceOf(theirs)])]
  {
    var both, first, rounds := [theirs, ours], [theirs], [THEIRS];
    assert both[..1] == first && first[..0] == [];
    assert rounds[..0] == [] && Flatten(rounds) == [] + THEIRS == THEIRS;
    assert Spoken(THEIRS) == [THEIRS[0]] + Spoken(THEIRS[1..]);
    assert Merge(first) == Merged([], [PieceOf(theirs)]);
    assert Merge(both) == Merged([] + [Receiver(ours, [PieceOf(theirs)])], []);
  }

  lemma {:induction false} OursSpeaks(v: View)
    ensures AreRounds([OURS]) && Opening([OURS], v) == Some(OURS) && !FromUser(OURS)
  {
    assert [OURS][..0] == [] && OURS[..1] == [OURS[0]] && OURS[..1][..0] == [];
    assert !Unavailable(OURS, v);
    assert AllMessages(OURS[..1], []) == [];
    assert AllMessages(OURS, []) == Voices([AssistantMessage(CallIds([]))]);
  }

  // ---- a silent round between two stretches of another agent ----------------------------------

  const CALL := ToolCall(FromModel("c"), Some("gone"), false)

  /** A round whose tool is no longer there and whose result has expired. */
  const SILENT: Round :=
    [InputArtifact("me", Input(1, None, UserInput("ask"))),
     ToolCallArtifact("me", Message([CALL], ["gone"], false)),
     ToolExeArtifact("me", ToolUnit(7, UnitCompleted, "gone", CALL, true, None, Some(ToolResult(Success, None))))]
  const LATER: Round := [InputArtifact("other", Input(2, None, UserInput("again")))]

  /** Order is not always kept: the piece that outlives a silent stretch comes behind the
      one that followed it in the history. */
  lemma {:induction false} SilentRoundReorders(v: View)
    requires v.available == {} && v.expired == {7}
    ensures AreRounds([THEIRS, SILENT, LATER])
    ensures var p := Project([THEIRS, SILENT, LATER], Some("me"), None, v);
            Delivered(p.messages) + p.rest != AllPieces(GroupsOf([THEIRS, SILENT, LATER], Some("me"), None))
  {
    hide Project, RoundMessages, PieceOf, Merge, Opening, GroupsOf;
    var theirs, silent, later := Group(false, "other", [THEIRS]), Group(true, "me", [SILENT]), Group(false, "other", [LATER]);
    GroupsOfThree();
    MergeOfThree(theirs, silent, later);
    var x := Receiver(silent, [PieceOf(theirs)]);
    var receivers := ReceiversOf([THEIRS, SILENT, LATER], Some("me"), None);
    SilentSaysNothing(v);
    assert receivers == [x] && Defers(receivers[0], v);
    GroupInputInOrder([THEIRS, SILENT, LATER], Some("me"), None, v);
  }

  lemma {:induction false} GroupsOfThree()
    ensures AreRounds([THEIRS, SILENT, LATER])
    ensures GroupsOf([THEIRS, SILENT, LATER], Some("me"), None)
         == [Group(false, "other", [THEIRS]), Group(true, "me", [SILENT]), Group(false, "other", [LATER])]
  {
    hide Latest, Groups;
    LatestOfThree();
    GroupedThree();
  }

  lemma {:induction false} LatestOfThree()
    ensures AreRounds([THEIRS, SILENT, LATER]) && Latest([THEIRS, SILENT, LATER], None) == [THEIRS, SILENT, LATER]
  {
    var all, two, one := [THEIRS, SILENT, LATER], [SILENT, LATER], [LATER];
    assert all[1..] == two && two[1..] == one && one[1..] == [];
    assert IsRound(THEIRS) && IsRound(SILENT) && IsRound(LATER);
    assert !Holds(two, IdOf(THEIRS)) && !Holds(one, IdOf(SILENT));
    assert Latest(one, None) == [LATER] + Latest([], None) == [LATER];
    assert Latest(two, None) == [SILENT] + Latest(one, None);
    assert Latest(all, None) == [THEIRS] + Latest(two, None);
  }

  lemma {:induction false} GroupedThree()
    ensures AreRounds([THEIRS, SILENT, LATER])
    ensures Groups([THEIRS, SILENT, LATER], Some("me"))
         == [Group(false, "other", [THEIRS]), Group(true, "me", [SILENT]), Group(false, "other", [LATER])]
  {
    var all, two, one := [THEIRS, SILENT, LATER], [THEIRS, SILENT], [THEIRS];
    assert all[..2] == two && two[..1] == one && one[..0] == [];
    assert IsRound(THEIRS) && IsRound(SILENT) && IsRound(LATER);
    assert |"other"| != |"me"|;
    assert Groups(one, Some("me")) == AddRound([], THEIRS, Some("me")) == [Group(false, "other", [THEIRS])];
    assert Groups(two, Some("me")) == AddRound(Groups(one, Some("me")), SILENT, Some("me"))
        == [Group(false, "other", [THEIRS]), Group(true, "me", [SILENT])];
    assert Groups(all, Some("me")) == AddRound(Groups(two, Some("me")), LATER, Some("me"));
  }

  lemma {:induction false} MergeOfThree(theirs: Group, silent: Group, later: Group)
    requires theirs == Group(false, "other", [THEIRS]) && silent == Group(true, "me", [SILENT]) && later == Group(false, "other", [LATER])
    ensures PieceOf(theirs) == THEIRS && PieceOf(later) == LATER
    ensures Merge([theirs, silent, later]) == Merged([Receiver(silent, [THEIRS])], [LATER])
    ensures AllPieces([theirs, silent, later]) == [THEIRS, LATER] && DistinctPieces([THEIRS, LATER])
  {
    var all, two, one := [theirs, silent, later], [theirs, silent], [theirs];
    assert all[..2] == two && two[..1] == one && one[..0] == [];
    OnePiece(theirs, THEIRS);
    OnePiece(later, LATER);
    assert Merge(one) == Merged([], [THEIRS]);
    assert Merge(two) == Merged([] + [Receiver(silent, [THEIRS])], []);
    assert AllPieces(one) == [] + [THEIRS] && AllPieces(two) == [THEIRS] + [] && AllPieces(all) == [THEIRS] + [LATER];
    assert THEIRS[0] != LATER[0];
  }

  lemma {:induction false} OnePiece(g: Group, r: Round)
    requires g.rounds == [r] && |r| == 1 && Speaks(r[0])
    ensures PieceOf(g) == r
  {
    assert g.rounds[..0] == [] && Flatten(g.rounds) == [] + r == r;
    assert r[1..] == [] && Spoken(r) == [r[0]] + Spoken([]);
  }

  lemma {:induction false} SilentSaysNothing(v: View)
    requires v.available == {} && v.expired == {7}
    ensures AreRounds([SILENT]) && Opening([SILENT], v).None?
  {
    var one := [SILENT];
    assert one[..0] == [] && IsRound(SILENT);
    assert CallsMissing(SILENT[1], v) by { assert CALL in SILENT[1].message.calls; }
    assert SILENT[1] in SILENT && SILENT[2] in SILENT;
    assert Dropped(SILENT, v);
  }
}
