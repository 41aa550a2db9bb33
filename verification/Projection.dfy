/** `ContextProjector`: how one agent sees the shared history. */
module Projection {
  import opened Common
  import opened KernelModels
  import opened ToolRounds

  type Round = seq<Artifact>

  // ---- rounds ----------------------------------------------------------------------------

  /** A round begins with an input and holds no other. */
  predicate IsRound(r: Round) {
    r != [] && r[0].InputArtifact? && forall k | 1 <= k < |r| :: !r[k].InputArtifact?
  }

  predicate AreRounds(rounds: seq<Round>) {
    forall r | r in rounds :: IsRound(r)
  }

  function Flatten<T>(lists: seq<seq<T>>): seq<T> {
    if lists == [] then [] else Flatten(lists[..|lists| - 1]) + lists[|lists| - 1]
  }

  /** The history from its first input on. */
  function FromFirstInput(history: seq<Artifact>): seq<Artifact> {
    if history == [] || history[0].InputArtifact? then history else FromFirstInput(history[1..])
  }

  /** `_split_history_rounds`: the rounds are the history again, without what comes
      before the first input. */
  method SplitHistoryRounds(history: seq<Artifact>) returns (rounds: seq<Round>)
    ensures AreRounds(rounds) && Flatten(rounds) == FromFirstInput(history)
  {
    rounds := [];
    var current: Round := [];
    assert history[..0] == [] && history[..|history|] == history;
    for k := 0 to |history|
      invariant AreRounds(rounds) && (current == [] ==> rounds == []) && (current != [] ==> IsRound(current))
      invariant Flatten(rounds) + current == FromFirstInput(history[..k])
    {
      FromFirstInputGrows(history[..k], history[k]);
      assert history[..k + 1] == history[..k] + [history[k]];
      if history[k].InputArtifact? {
        if current != [] {
          rounds := rounds + [current];
        }
        current := [history[k]];
      } else if current != [] {
        current := current + [history[k]];
      }
    }
    if current != [] {
      rounds := rounds + [current];
    }
  }

  lemma {:induction false} FromFirstInputGrows(history: seq<Artifact>, a: Artifact)
    ensures FromFirstInput(history + [a]) ==
            if FromFirstInput(history) == [] && !a.InputArtifact? then [] else FromFirstInput(history) + [a]
  {
    if history != [] && !history[0].InputArtifact? {
      assert (history + [a])[1..] == history[1..] + [a];
      FromFirstInputGrows(history[1..], a);
    } else if history == [] {
      assert ([] + [a])[1..] == [];
    }
  }

  // ---- the latest round of each input -----------------------------------------------------------

  function IdOf(r: Round): nat
    requires IsRound(r)
  {
    r[0].input.id
  }

  predicate Holds(rounds: seq<Round>, id: nat)
    requires AreRounds(rounds)
  {
    exists r | r in rounds :: IdOf(r) == id
  }

  /** A round stays if it is not of the current input and no later round is of its own. */
  function Latest(rounds: seq<Round>, excluded: Option<nat>): seq<Round>
    requires AreRounds(rounds)
  {
    if rounds == [] then []
    else
      var rest := Latest(rounds[1..], excluded);
      if Some(IdOf(rounds[0])) == excluded || Holds(rounds[1..], IdOf(rounds[0])) then rest else [rounds[0]] + rest
  }

  function Reverse<T>(s: seq<T>): seq<T> {
    if s == [] then [] else Reverse(s[1..]) + [s[0]]
  }

  /** `_filter_latest_history_rounds`: walks from the back with a set of seen ids. */
  method FilterLatestHistoryRounds(rounds: seq<Round>, excluded: Option<nat>) returns (latest: seq<Round>)
    requires AreRounds(rounds)
    ensures latest == Latest(rounds, excluded)
  {
    latest := [];
    var seen: set<nat> := {};
    var k := |rounds|;
    assert rounds[|rounds|..] == [] && rounds[0..] == rounds;
    while k > 0
      invariant 0 <= k <= |rounds|
      invariant latest == Latest(rounds[k..], excluded)
      invariant forall id :: id in seen <==> Some(id) != excluded && Holds(rounds[k..], id)
    {
      k := k - 1;
      var id := IdOf(rounds[k]);
      assert rounds[k..][1..] == rounds[k + 1..] && rounds[k..] == [rounds[k]] + rounds[k + 1..];
      if Some(id) == excluded || id in seen {
        continue;
      }
      seen := seen + {id};
      latest := [rounds[k]] + latest;
    }
  }

  /** Of every input but the current one exactly one round is kept, its last, and the
      kept rounds stay in order. */
  lemma {:induction false} LatestIsLast(rounds: seq<Round>, excluded: Option<nat>, id: nat)
    requires AreRounds(rounds)
    ensures AreRounds(Latest(rounds, excluded))
    ensures Holds(Latest(rounds, excluded), id) <==> Some(id) != excluded && Holds(rounds, id)
    ensures InOrderOf(Latest(rounds, excluded), rounds) && forall r :: r in Latest(rounds, excluded) ==> r in rounds
    ensures forall i, j :: 0 <= i < j < |Latest(rounds, excluded)| ==> IdOf(Latest(rounds, excluded)[i]) != IdOf(Latest(rounds, excluded)[j])
  {
    if rounds != [] {
      var head, rest := rounds[0], rounds[1..];
      LatestIsLast(rest, excluded, id);
      LatestIsLast(rest, excluded, IdOf(head));
      assert rounds == [head] + rest;
      var kept := Latest(rest, excluded);
      InOrderBehind(head, kept, rest);
      forall j | 0 <= j < |kept| ensures IdOf(kept[j]) == IdOf(head) ==> Holds(kept, IdOf(head)) {
        assert kept[j] in kept;
      }
    }
  }

  predicate IsLast(rounds: seq<Round>, k: int)
    requires AreRounds(rounds)
  {
    0 <= k < |rounds| && forall j | k < j < |rounds| :: IdOf(rounds[j]) != IdOf(rounds[k])
  }

  /** What is kept is the last round of its input. */
  lemma {:induction false} KeptIsLast(rounds: seq<Round>, excluded: Option<nat>)
    requires AreRounds(rounds)
    ensures forall k :: IsLast(rounds, k) && Some(IdOf(rounds[k])) != excluded ==> rounds[k] in Latest(rounds, excluded)
    ensures forall r :: r in Latest(rounds, excluded) ==> exists k :: IsLast(rounds, k) && rounds[k] == r
  {
    if rounds != [] {
      var head, rest := rounds[0], rounds[1..];
      KeptIsLast(rest, excluded);
      forall k | IsLast(rounds, k) && Some(IdOf(rounds[k])) != excluded ensures rounds[k] in Latest(rounds, excluded) {
        if k > 0 {
          assert forall j :: 0 <= j < |rest| ==> rest[j] == rounds[j + 1];
          assert IsLast(rest, k - 1);
        } else {
          assert forall j :: 0 <= j < |rest| ==> rest[j] == rounds[j + 1];
        }
      }
      forall r | r in Latest(rounds, excluded) ensures exists k :: IsLast(rounds, k) && rounds[k] == r {
        if r in Latest(rest, excluded) {
          var k :| IsLast(rest, k) && rest[k] == r;
          assert IsLast(rounds, k + 1);
        } else {
          forall j | 0 < j < |rounds| ensures IdOf(rounds[j]) != IdOf(head) {
            assert rounds[j] in rest;
          }
          assert IsLast(rounds, 0);
        }
      }
    }
  }

  // ---- groups of one owner ---------------------------------------------------------------------------

  datatype Group = Group(normal: bool, owner: string, rounds: seq<Round>)

  predicate IsNormal(r: Round, current: Option<string>)
    requires IsRound(r)
  {
    current.None? || r[0].owner == current.value
  }

  function AddRound(groups: seq<Group>, r: Round, current: Option<string>): seq<Group>
    requires IsRound(r)
  {
    var n := |groups| - 1;
    if groups != [] && groups[n].normal == IsNormal(r, current) && groups[n].owner == r[0].owner
    then groups[n := groups[n].(rounds := groups[n].rounds + [r])]
    else groups + [Group(IsNormal(r, current), r[0].owner, [r])]
  }

  function Groups(rounds: seq<Round>, current: Option<string>): seq<Group>
    requires AreRounds(rounds)
  {
    if rounds == [] then [] else AddRound(Groups(rounds[..|rounds| - 1], current), rounds[|rounds| - 1], current)
  }

  /** `_build_history_round_groups`. */
  method BuildHistoryRoundGroups(rounds: seq<Round>, current: Option<string>) returns (groups: seq<Group>)
    requires AreRounds(rounds)
    ensures groups == Groups(rounds, current)
  {
    groups := [];
    for k := 0 to |rounds|
      invariant groups == Groups(rounds[..k], current)
    {
      assert rounds[..k + 1][..k] == rounds[..k];
      var r := rounds[k];
      var normal := IsNormal(r, current);
      if groups != [] && groups[|groups| - 1].normal == normal && groups[|groups| - 1].owner == r[0].owner {
        var last := groups[|groups| - 1];
        groups := groups[|groups| - 1 := last.(rounds := last.rounds + [r])];
        continue;
      }
      groups := groups + [Group(normal, r[0].owner, [r])];
    }
    assert rounds[..|rounds|] == rounds;
  }

  predicate GroupOk(g: Group, current: Option<string>) {
    && g.rounds != [] && AreRounds(g.rounds)
    && (g.normal <==> current.None? || g.owner == current.value)
    && forall r: Round | r in g.rounds :: r[0].owner == g.owner
  }

  function RoundsOf(groups: seq<Group>): seq<Round> {
    if groups == [] then [] else RoundsOf(groups[..|groups| - 1]) + groups[|groups| - 1].rounds
  }

  predicate GroupsOk(groups: seq<Group>, current: Option<string>) {
    && (forall x | x in groups :: GroupOk(x, current))
    && (forall k | 0 < k < |groups| :: groups[k - 1].owner != groups[k].owner)
  }

  lemma {:induction false} AddRoundOk(groups: seq<Group>, r: Round, current: Option<string>)
    requires GroupsOk(groups, current) && IsRound(r)
    ensures GroupsOk(AddRound(groups, r, current), current)
  {
    var after := AddRound(groups, r, current);
    var n := |groups| - 1;
    if groups != [] {
      assert GroupOk(groups[n], current);
    }
    if |after| == |groups| {
      forall x | x in after ensures GroupOk(x, current) {
        assert x in groups || x == after[n];
      }
    } else {
      forall x | x in after ensures GroupOk(x, current) {
        assert x in groups || x == Group(IsNormal(r, current), r[0].owner, [r]);
      }
    }
  }

  lemma {:induction false} AddRoundKeeps(groups: seq<Group>, r: Round, current: Option<string>)
    requires IsRound(r)
    ensures RoundsOf(AddRound(groups, r, current)) == RoundsOf(groups) + [r]
  {
    var after := AddRound(groups, r, current);
    var n := |groups| - 1;
    if |after| == |groups| {
      assert after[..n] == groups[..n];
      assert RoundsOf(groups[..n]) + (groups[n].rounds + [r]) == RoundsOf(groups[..n]) + groups[n].rounds + [r];
    } else {
      assert after[..|groups|] == groups;
    }
  }

  /** Grouping loses and reorders nothing; a group is a maximal stretch of one owner, and
      it is normal exactly if the owner is the current agent. */
  lemma {:induction false} GroupsPartition(rounds: seq<Round>, current: Option<string>)
    requires AreRounds(rounds)
    ensures RoundsOf(Groups(rounds, current)) == rounds && GroupsOk(Groups(rounds, current), current)
  {
    hide GroupsOk, AddRound;
    if rounds != [] {
      var front, r := rounds[..|rounds| - 1], rounds[|rounds| - 1];
      GroupsPartition(front, current);
      assert rounds == front + [r];
      AddRoundOk(Groups(front, current), r, current);
      AddRoundKeeps(Groups(front, current), r, current);
    } else {
      NoGroups(current);
    }
  }

  lemma {:induction false} NoGroups(current: Option<string>)
    ensures GroupsOk([], current)
  {
  }

  // ---- group input: what the other agents did ------------------------------------------------------------

  /** A piece of Group Input: the artifacts of one stretch that say something. */
  type Piece = seq<Artifact>

  /** A handoff wakes its target with an input that says nothing to others. */
  predicate Speaks(a: Artifact) {
    match a
    case InputArtifact(_, input) => input.origin.None? && input.event.UserInput?
    case FrameArtifact(_, _) => true
    case _ => ArtifactMessages(a) != []
  }

  function Spoken(r: seq<Artifact>): Piece {
    if r == [] then []
    else if Speaks(r[0]) then [r[0]] + Spoken(r[1..])
    else Spoken(r[1..])
  }

  function PieceOf(g: Group): Piece {
    Spoken(Flatten(g.rounds))
  }

  /** A normal group and the pieces handed to it. */
  datatype Receiver = Receiver(group: Group, pieces: seq<Piece>)

  datatype Merged = Merged(receivers: seq<Receiver>, pending: seq<Piece>)

  function Merge(groups: seq<Group>): Merged {
    if groups == [] then Merged([], [])
    else
      var m := Merge(groups[..|groups| - 1]);
      var g := groups[|groups| - 1];
      if g.normal then Merged(m.receivers + [Receiver(g, m.pending)], [])
      else if PieceOf(g) != [] then m.(pending := m.pending + [PieceOf(g)])
      else m
  }

  /** `_merge_group_input_to_normal_history_round_groups`. */
  method MergeGroupInput(groups: seq<Group>) returns (receivers: seq<Receiver>, pending: seq<Piece>)
    ensures Merged(receivers, pending) == Merge(groups)
  {
    receivers, pending := [], [];
    for k := 0 to |groups|
      invariant Merged(receivers, pending) == Merge(groups[..k])
    {
      assert groups[..k + 1][..k] == groups[..k];
      if !groups[k].normal {
        var piece := PieceOf(groups[k]);
        if piece != [] {
          pending := pending + [piece];
        }
        continue;
      }
      receivers := receivers + [Receiver(groups[k], pending)];
      pending := [];
    }
    assert groups[..|groups|] == groups;
  }

  // ---- messages of the history -----------------------------------------------------------------------------

  /** A projected message: a user message with the Group Input put into it, or any other
      message of an artifact. */
  datatype Projected = User(input: Input, groupInput: seq<Piece>) | Voice(message: ChatMessage)

  function Voices(messages: seq<ChatMessage>): (r: seq<Projected>)
    ensures |r| == |messages| && forall k :: 0 <= k < |r| ==> r[k].Voice?
  {
    seq(|messages|, k requires 0 <= k < |messages| => Voice(messages[k]))
  }

  /** The tools at hand and the tool results that are past their time. */
  datatype View = View(available: set<string>, expired: set<nat>)

  predicate CallsMissing(a: Artifact, v: View) {
    a.ToolCallArtifact? && exists c | c in a.message.calls :: c.name.None? || c.name.value !in v.available
  }

  predicate Unavailable(r: Round, v: View) {
    exists a | a in r :: CallsMissing(a, v)
  }

  predicate Expired(r: Round, v: View) {
    exists a | a in r :: a.ToolExeArtifact? && a.exe.ToolUnit? && a.exe.result.Some? && a.exe.id in v.expired
  }

  function InputMessages(input: Input, pieces: seq<Piece>): seq<Projected> {
    if input.event.UserInput? then [User(input, pieces)] else []
  }

  /** The last words of the model in a tool loop, without their tool calls. */
  function FinalWords(r: Round): seq<Projected> {
    if r == [] then []
    else
      var a := r[|r| - 1];
      if a.ToolLlmArtifact? then
        if a.exe.LlmUnit? && a.exe.message.Some? then [Voice(AssistantMessage([]))] else []
      else FinalWords(r[..|r| - 1])
  }

  function AllMessages(r: seq<Artifact>, pieces: seq<Piece>): seq<Projected> {
    if r == [] then []
    else AllMessages(r[..|r| - 1], pieces) +
         var a := r[|r| - 1];
         if a.InputArtifact? then InputMessages(a.input, pieces) else Voices(ArtifactMessages(a))
  }

  predicate Dropped(r: Round, v: View) {
    Unavailable(r, v) && Expired(r, v)
  }

  /** `_build_history_round_llm_messages`. */
  function RoundMessages(r: Round, pieces: seq<Piece>, v: View): seq<Projected>
    requires IsRound(r)
  {
    if Dropped(r, v) then []
    else if Unavailable(r, v) then InputMessages(r[0].input, pieces) + FinalWords(r)
    else AllMessages(r, pieces)
  }

  datatype Told = Told(messages: seq<Projected>, rest: seq<Piece>)

  /** The rounds of one group, the pieces given to the first that says anything. */
  function TellRounds(rounds: seq<Round>, pieces: seq<Piece>, v: View): Told
    requires AreRounds(rounds)
  {
    if rounds == [] then Told([], pieces)
    else
      var t := TellRounds(rounds[..|rounds| - 1], pieces, v);
      var said := RoundMessages(rounds[|rounds| - 1], t.rest, v);
      Told(t.messages + said, if said != [] then [] else t.rest)
  }

  predicate ReceiversOk(receivers: seq<Receiver>) {
    forall x | x in receivers :: AreRounds(x.group.rounds)
  }

  function Tell(receivers: seq<Receiver>, pending: seq<Piece>, v: View): Told
    requires ReceiversOk(receivers)
  {
    if receivers == [] then Told([], pending)
    else
      var before := Tell(receivers[..|receivers| - 1], pending, v);
      var t := TellRounds(receivers[|receivers| - 1].group.rounds, receivers[|receivers| - 1].pieces, v);
      Told(before.messages + t.messages, before.rest + t.rest)
  }

  method BuildHistoryRoundLlmMessages(r: Round, pieces: seq<Piece>, v: View) returns (messages: seq<Projected>)
    requires IsRound(r)
    ensures messages == RoundMessages(r, pieces, v)
  {
    messages := [];
    if Unavailable(r, v) {
      if Expired(r, v) {
        return;
      }
      messages := InputMessages(r[0].input, pieces) + FinalWords(r);
      return;
    }
    for k := 0 to |r|
      invariant messages == AllMessages(r[..k], pieces)
    {
      assert r[..k + 1][..k] == r[..k];
      if r[k].InputArtifact? {
        messages := messages + InputMessages(r[k].input, pieces);
        continue;
      }
      messages := messages + Voices(ArtifactMessages(r[k]));
    }
    assert r[..|r|] == r;
  }

  /** The rounds of one receiver. */
  method TellReceiver(rounds: seq<Round>, pieces: seq<Piece>, v: View) returns (messages: seq<Projected>, groupInput: seq<Piece>)
    requires AreRounds(rounds)
    ensures Told(messages, groupInput) == TellRounds(rounds, pieces, v)
  {
    messages, groupInput := [], pieces;
    for k := 0 to |rounds|
      invariant Told(messages, groupInput) == TellRounds(rounds[..k], pieces, v)
    {
      assert rounds[..k + 1][..k] == rounds[..k];
      var said := BuildHistoryRoundLlmMessages(rounds[k], groupInput, v);
      messages := messages + said;
      if said != [] {
        groupInput := [];
      }
    }
    assert rounds[..|rounds|] == rounds;
  }

  /** Everything before the current input: history messages, and the Group Input the
      current input has to take. */
  ghost function Project(rounds: seq<Round>, current: Option<string>, excluded: Option<nat>, v: View): Told
    requires AreRounds(rounds)
  {
    LatestIsLast(rounds, excluded, 0);
    GroupsPartition(Latest(rounds, excluded), current);
    var m := Merge(Groups(Latest(rounds, excluded), current));
    MergeOk(Groups(Latest(rounds, excluded), current), current);
    Tell(m.receivers, m.pending, v)
  }

  lemma {:induction false} MergeOk(groups: seq<Group>, current: Option<string>)
    requires forall g :: g in groups ==> GroupOk(g, current)
    ensures ReceiversOk(Merge(groups).receivers)
    ensures forall x :: x in Merge(groups).receivers ==> GroupOk(x.group, current)
    ensures forall p :: p in Merge(groups).pending ==> p != []
  {
    if groups != [] {
      assert forall g :: g in groups[..|groups| - 1] ==> g in groups;
      MergeOk(groups[..|groups| - 1], current);
      assert groups[|groups| - 1] in groups;
    }
  }

  /** `_build_history_llm_messages`. */
  method BuildHistoryLlmMessages(history: seq<Artifact>, current: Option<string>, excluded: Option<nat>, v: View)
    returns (messages: seq<Projected>, groupInput: seq<Piece>)
    ensures exists rounds :: AreRounds(rounds) && Flatten(rounds) == FromFirstInput(history)
                             && Told(messages, groupInput) == Project(rounds, current, excluded, v)
  {
    hide AreRounds, FromFirstInput, Flatten, GroupOk, Merge, Groups, Latest, TellRounds;
    var rounds := SplitHistoryRounds(history);
    LatestIsLast(rounds, excluded, 0);
    var latest := FilterLatestHistoryRounds(rounds, excluded);
    GroupsPartition(latest, current);
    var groups := BuildHistoryRoundGroups(latest, current);
    MergeOk(groups, current);
    var receivers, pending := MergeGroupInput(groups);
    messages, groupInput := [], pending;
    for k := 0 to |receivers|
      invariant Told(messages, groupInput) == Tell(receivers[..k], pending, v)
    {
      assert receivers[..k + 1][..k] == receivers[..k];
      assert receivers[k] in receivers;
      var said, rest := TellReceiver(receivers[k].group.rounds, receivers[k].pieces, v);
      messages := messages + said;
      if rest != [] {
        groupInput := groupInput + rest;
      }
      assert rest == [] ==> groupInput + rest == groupInput;
    }
    assert receivers[..|receivers|] == receivers;
  }
}
