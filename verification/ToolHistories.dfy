/** The tool-call protocol over whole histories: what the rounds of an agent, one behind the
    other, say to the model. */
module ToolHistories {
  import opened Common
  import opened KernelModels
  import opened ToolUnits
  import opened KernelSteps
  import opened ToolRounds
  import opened Projection

  // ---- the protocol with user messages ------------------------------------------------------

  /** The protocol across rounds: a user speaks, too, only when all calls have been answered. */
  predicate Talk(messages: seq<ChatMessage>, calls: seq<CallId>, k: nat) {
    if messages == [] then true
    else
      match messages[0]
      case UserMessage => k == |calls| && Talk(messages[1..], [], 0)
      case ToolMessage(id) => k < |calls| && calls[k] == id && Talk(messages[1..], calls, k + 1)
      case AssistantMessage(next) => k == |calls| && Talk(messages[1..], next, 0)
  }

  /** The calls that are waiting at the end, and how many of them have been answered. */
  function Waiting(messages: seq<ChatMessage>, calls: seq<CallId>, k: nat): (seq<CallId>, nat) {
    if messages == [] then (calls, k)
    else
      match messages[0]
      case UserMessage => Waiting(messages[1..], [], 0)
      case ToolMessage(_) => Waiting(messages[1..], calls, k + 1)
      case AssistantMessage(next) => Waiting(messages[1..], next, 0)
  }

  lemma {:induction false} TalkConcat(a: seq<ChatMessage>, b: seq<ChatMessage>, calls: seq<CallId>, k: nat)
    ensures var w := Waiting(a, calls, k);
            && (Talk(a + b, calls, k) <==> Talk(a, calls, k) && Talk(b, w.0, w.1))
            && Waiting(a + b, calls, k) == Waiting(b, w.0, w.1)
  {
    if a == [] {
      assert a + b == b;
    } else {
      assert (a + b)[1..] == a[1..] + b && (a + b)[0] == a[0];
      match a[0] {
        case UserMessage => TalkConcat(a[1..], b, [], 0);
        case ToolMessage(_) => TalkConcat(a[1..], b, calls, k + 1);
        case AssistantMessage(next) => TalkConcat(a[1..], b, next, 0);
      }
    }
  }

  /** Inside a round, where no user speaks, it is the protocol of a tool loop. */
  lemma {:induction false} TalkIsProtocol(messages: seq<ChatMessage>, calls: seq<CallId>, k: nat)
    requires forall m :: m in messages ==> !m.UserMessage?
    ensures (Talk(messages, calls, k) <==> Protocol(messages, calls, k)) && Waiting(messages, calls, k) == Standing(messages, calls, k)
  {
    if messages != [] {
      var rest := messages[1..];
      assert messages[0] in messages && forall m :: m in rest ==> m in messages;
      match messages[0] {
        case UserMessage =>
        case ToolMessage(_) => TalkIsProtocol(rest, calls, k + 1);
        case AssistantMessage(next) => TalkIsProtocol(rest, next, 0);
      }
    }
  }

  // ---- the rounds the runtime writes --------------------------------------------------------------

  predicate AllDone(calls: seq<ToolCall>, units: seq<Unit>) {
    InRounds(calls, 0, units) && Reported(units) && forall u | u in units :: u.IsFinished()
  }

  /** Nothing, a pause or a last word. */
  predicate IsShort(body: seq<Artifact>) {
    body == [] || (|body| == 1 && (body[0].InterruptionArtifact? || (body[0].AssistantArtifact? && body[0].message.calls == [])))
  }

  /** What stands behind the input of a round, a finished tool loop included. */
  ghost predicate IsBody(body: seq<Artifact>) {
    || IsShort(body)
    || exists owner, m: Message, units :: AllDone(m.calls, units) && body == [ToolCallArtifact(owner, m)] + LoopArtifacts(owner, units)
  }

  predicate IsTail(tail: seq<Artifact>) {
    tail == [] || (|tail| == 1 && tail[0].FrameArtifact?)
  }

  /** A round as a paused or closed task leaves it, with the change of control behind it. */
  datatype Made = Made(owner: string, input: Input, body: seq<Artifact>, tail: seq<Artifact>)

  ghost predicate IsMade(r: Made) {
    IsBody(r.body) && IsTail(r.tail)
  }

  function RoundOf(r: Made): Round {
    [InputArtifact(r.owner, r.input)] + r.body + r.tail
  }

  /** Calls of the last turn have no answer. */
  predicate Unanswered(r: Made) {
    var w := Waiting(Messages(r.body), [], 0); w.1 != |w.0|
  }

  /** The change of control has a message of its own. */
  predicate SpeaksOfChange(r: Made) {
    r.tail != [] && r.tail[0].FrameArtifact? && (r.tail[0].change.Push? || r.tail[0].change.byTool)
  }

  lemma {:induction false} NoUserInLoop(owner: string, units: seq<Unit>)
    ensures forall m :: m in Messages(LoopArtifacts(owner, units)) ==> !m.UserMessage?
  {
    hide LoopArtifacts, Messages;
    if units == [] {
      NothingFinished(owner, units);
      NoMessages([], 0);
    } else {
      VoiceFirst(owner, units);
      NoUserInLoop(owner, units[1..]);
    }
  }

  /** What a round says on its own: all is well inside its body. */
  lemma {:induction false} BodyTalks(body: seq<Artifact>)
    requires IsBody(body)
    ensures Talk(Messages(body), [], 0)
  {
    hide LoopArtifacts, Protocol, InRounds, Messages;
    NoMessages([], 0);
    if IsShort(body) {
      ShortBody(body);
    } else {
      var owner, m: Message, units :| AllDone(m.calls, units) && body == [ToolCallArtifact(owner, m)] + LoopArtifacts(owner, units);
      LoopKeepsProtocol(owner, m.calls, 0, units);
      MessagesHead(ToolCallArtifact(owner, m), LoopArtifacts(owner, units));
      NoUserInLoop(owner, units);
      TalkIsProtocol(Messages(LoopArtifacts(owner, units)), CallIds(m.calls), 0);
      TalkConcat([AssistantMessage(CallIds(m.calls))], Messages(LoopArtifacts(owner, units)), [], 0);
      OneAssistant(CallIds(m.calls));
    }
  }

  lemma {:induction false} OneAssistant(next: seq<CallId>)
    ensures Talk([AssistantMessage(next)], [], 0) && Waiting([AssistantMessage(next)], [], 0) == (next, 0)
    ensures forall calls: seq<CallId>, k: nat :: (Talk([AssistantMessage(next)], calls, k) <==> k == |calls|) && Waiting([AssistantMessage(next)], calls, k) == (next, 0)
  {
    assert [AssistantMessage(next)][1..] == [];
  }

  lemma {:induction false} ShortBody(body: seq<Artifact>)
    requires IsShort(body)
    ensures Talk(Messages(body), [], 0)
  {
    if body != [] {
      assert body == [body[0]] + [];
      MessagesHead(body[0], []);
      assert Messages(body) == [AssistantMessage([])] by {
        assert Messages([]) == [];
        assert CallIds([]) == [];
      }
      OneAssistant([]);
    }
  }

  /** A round behind others: it needs all calls before it answered, it breaks the protocol
      itself exactly if its change of control speaks while calls are unanswered, and it
      leaves calls unanswered exactly if it does and no change speaks. */
  lemma {:induction false} RoundTalks(r: Made, calls: seq<CallId>, k: nat)
    requires IsMade(r)
    ensures Talk(Messages(RoundOf(r)), calls, k) <==> k == |calls| && !(Unanswered(r) && SpeaksOfChange(r))
    ensures var w := Waiting(Messages(RoundOf(r)), calls, k); w.1 == |w.0| <==> !Unanswered(r) || SpeaksOfChange(r)
  {
    hide Messages, Talk, Waiting, IsBody;
    var input := InputArtifact(r.owner, r.input);
    assert RoundOf(r) == [input] + (r.body + r.tail);
    MessagesHead(input, r.body + r.tail);
    MessagesConcat(r.body, r.tail);
    BodyTalks(r.body);
    var body, tail := Messages(r.body), Messages(r.tail);
    TalkConcat([UserMessage], body + tail, calls, k);
    OneUser(calls, k);
    TalkConcat(body, tail, [], 0);
    var w := Waiting(body, [], 0);
    TailTalks(r.tail, w.0, w.1);
  }

  lemma {:induction false} OneUser(calls: seq<CallId>, k: nat)
    ensures (Talk([UserMessage], calls, k) <==> k == |calls|) && Waiting([UserMessage], calls, k) == ([], 0)
  {
    assert [UserMessage][1..] == [];
  }

  lemma {:induction false} TailTalks(tail: seq<Artifact>, calls: seq<CallId>, k: nat)
    requires IsTail(tail)
    ensures var says := tail != [] && (tail[0].change.Push? || tail[0].change.byTool);
            && (Talk(Messages(tail), calls, k) <==> !says || k == |calls|)
            && Waiting(Messages(tail), calls, k) == if says then ([], 0) else (calls, k)
  {
    NoMessages(calls, k);
    if tail != [] {
      assert tail == [tail[0]] + [];
      MessagesHead(tail[0], []);
      assert Messages([]) == [];
      if tail[0].change.Push? || tail[0].change.byTool {
        assert Messages(tail) == [AssistantMessage([])];
        OneAssistant([]);
      }
    }
  }

  // ---- whole histories ------------------------------------------------------------------------------

  function RoundsOf(rs: seq<Made>): seq<Artifact> {
    if rs == [] then [] else RoundsOf(rs[..|rs| - 1]) + RoundOf(rs[|rs| - 1])
  }

  /** Unanswered calls are left by the last round at most, with nothing said behind them. */
  predicate AnsweredBut(rs: seq<Made>) {
    forall i | 0 <= i < |rs| :: Unanswered(rs[i]) ==> i == |rs| - 1 && !SpeaksOfChange(rs[i])
  }

  lemma {:induction false} TalkOfRounds(rs: seq<Made>)
    requires forall r :: r in rs ==> IsMade(r)
    ensures Talk(Messages(RoundsOf(rs)), [], 0) <==> AnsweredBut(rs)
    ensures AnsweredBut(rs) ==>
              var w := Waiting(Messages(RoundsOf(rs)), [], 0); w.1 == |w.0| <==> rs == [] || !Unanswered(rs[|rs| - 1])
  {
    hide Messages, Talk, Waiting, RoundOf, Unanswered, SpeaksOfChange, IsMade;
    if rs == [] {
      NoMessages([], 0);
      NothingSaid();
    } else {
      var front, last := rs[..|rs| - 1], rs[|rs| - 1];
      assert last in rs && forall r :: r in front ==> r in rs;
      TalkOfRounds(front);
      MessagesConcat(RoundsOf(front), RoundOf(last));
      var w := Waiting(Messages(RoundsOf(front)), [], 0);
      TalkConcat(Messages(RoundsOf(front)), Messages(RoundOf(last)), [], 0);
      RoundTalks(last, w.0, w.1);
      AnsweredFront(rs);
    }
  }

  lemma {:induction false} NothingSaid()
    ensures Messages([]) == [] && Talk([], [], 0) && Waiting([], [], 0) == ([], 0)
  {
  }

  lemma {:induction false} AnsweredFront(rs: seq<Made>)
    requires rs != []
    ensures var front, last := rs[..|rs| - 1], rs[|rs| - 1];
            AnsweredBut(rs) <==> AnsweredBut(front) && (front == [] || !Unanswered(front[|front| - 1])) && !(Unanswered(last) && SpeaksOfChange(last))
  {
    hide Unanswered, SpeaksOfChange;
    var front := rs[..|rs| - 1];
    assert forall k :: 0 <= k < |front| ==> front[k] == rs[k];
    if front != [] && AnsweredBut(rs) {
      assert !Unanswered(rs[|front| - 1]);
    }
  }

  // ---- a handoff that fails ---------------------------------------------------------------------------

  /** A handoff to an agent that does not exist: control stays, the later call is dropped. */
  const FAILED_UNIT := ToolUnit(0, UnitFailed, "_handoff_agent_b", HANDOFF_CALL, true, None, Some(ToolResult(Failure, None)))
  const FAILED_ROUND := Made("a", Input(0, None, UserInput("ask")),
                             [ToolCallArtifact("a", Message([HANDOFF_CALL, LATER_CALL], [], false))] + LoopArtifacts("a", [FAILED_UNIT]), [])
  const NEXT_ROUND := Made("a", Input(1, None, UserInput("again")), [AssistantArtifact("a", Message([], [], false))], [])

  /** Behind a failed handoff the later calls of its message stay unanswered, and the next
      input meets them. */
  lemma {:induction false} FailedHandoffBlocksNextInput()
    ensures IsMade(FAILED_ROUND) && IsMade(NEXT_ROUND)
    ensures Talk(Messages(RoundsOf([FAILED_ROUND])), [], 0) && !Talk(Messages(RoundsOf([FAILED_ROUND, NEXT_ROUND])), [], 0)
  {
    hide RoundsOf, Talk, Messages, LoopArtifacts, Waiting;
    var calls, m := [HANDOFF_CALL, LATER_CALL], Message([HANDOFF_CALL, LATER_CALL], [], false);
    FailedRoundMade(calls, m);
    FailedRoundWaits(calls, m);
    assert IsShort(NEXT_ROUND.body);
    TalkOfRounds([FAILED_ROUND]);
    TalkOfRounds([FAILED_ROUND, NEXT_ROUND]);
    assert [FAILED_ROUND, NEXT_ROUND][0] == FAILED_ROUND;
  }

  lemma {:induction false} FailedRoundMade(calls: seq<ToolCall>, m: Message)
    requires calls == [HANDOFF_CALL, LATER_CALL] && m == Message(calls, [], false)
    ensures AllDone(m.calls, [FAILED_UNIT]) && IsBody(FAILED_ROUND.body)
  {
    hide LoopArtifacts;
    assert LeavesAgent(FAILED_UNIT) && [FAILED_UNIT][1..] == [];
    assert InRounds(calls, 0, [FAILED_UNIT]);
  }

  lemma {:induction false} FailedRoundWaits(calls: seq<ToolCall>, m: Message)
    requires calls == [HANDOFF_CALL, LATER_CALL] && m == Message(calls, [], false)
    ensures Unanswered(FAILED_ROUND)
  {
    hide LoopArtifacts, Messages;
    FailedRoundMade(calls, m);
    MessagesHead(ToolCallArtifact("a", m), LoopArtifacts("a", [FAILED_UNIT]));
    var loop := Messages(LoopArtifacts("a", [FAILED_UNIT]));
    NoUserInLoop("a", [FAILED_UNIT]);
    TalkIsProtocol(loop, CallIds(calls), 0);
    FinishedLoopEnds("a", calls, 0, [FAILED_UNIT]);
    assert LastTurn(calls, 0, [FAILED_UNIT]) == LastTurn(calls, 1, []) == (calls, 1);
    TalkConcat([AssistantMessage(CallIds(calls))], loop, [], 0);
    OneAssistant(CallIds(calls));
  }
}
