/** The order of a tool loop: which calls its units answer, and the message list the
    projector expands it to. */
module ToolRounds {
  import opened Common
  import opened KernelModels
  import opened ToolUnits
  import opened ToolExecution
  import opened KernelSteps

  // ---- units in rounds -------------------------------------------------------------------

  predicate Answers(u: Unit, call: ToolCall) {
    u.ToolUnit? && u.call.id == call.id && u.call.name == call.name
  }

  /** The units answer `calls` from call `k` on, in order, each once; then the model goes
      on, and a next round answers the calls of its message. Only a call that gives
      control away cuts a round short. */
  predicate InRounds(calls: seq<ToolCall>, k: nat, units: seq<Unit>)
    decreases |units|
  {
    if units == [] then false
    else
      var u, rest := units[0], units[1..];
      if u.LlmUnit? then
        && k == |calls|
        && (if rest == [] then u.message.Some? ==> u.message.value.calls == []
            else u.message.Some? && InRounds(u.message.value.calls, 0, rest))
      else if !u.fromLlm then k < |calls| && InRounds(calls, k, rest)
      else k < |calls| && Answers(u, calls[k]) && if LeavesAgent(u) then rest == [] else InRounds(calls, k + 1, rest)
  }

  /** The units that follow a finished turn of the model. */
  predicate Continues(m: Message, more: seq<Unit>) {
    if m.calls == [] then more == [] else InRounds(m.calls, 0, more)
  }

  lemma {:induction false} BuiltCallsInRounds(tools: seq<ToolMeta>, available: seq<string>, calls: seq<ToolCall>, k: nat, next: nat, tail: seq<Unit>)
    requires k < |calls|
    requires var b := BuildCalls(tools, available, calls[k..], next);
             if b.closed then tail == [] else |tail| == 1 && tail[0].LlmUnit? && tail[0].message.None?
    ensures InRounds(calls, k, BuildCalls(tools, available, calls[k..], next).units + tail)
    decreases |calls| - k
  {
    hide LeavesAgent;
    var own := UnitsOfCall(tools, available, calls[k], next);
    assert calls[k..][0] == calls[k] && calls[k..][1..] == calls[k + 1..];
    var u := own[|own| - 1];
    var after: seq<Unit> := if LeavesAgent(u) then [] else BuildCalls(tools, available, calls[k + 1..], next + |own|).units + tail;
    assert BuildCalls(tools, available, calls[k..], next).units + tail == own + after;
    if !LeavesAgent(u) {
      if k + 1 < |calls| {
        BuiltCallsInRounds(tools, available, calls, k + 1, next + |own|, tail);
      } else {
        assert after == tail;
      }
    }
    OwnInRounds(tools, available, calls, k, next, after);
  }

  lemma {:induction false} OwnInRounds(tools: seq<ToolMeta>, available: seq<string>, calls: seq<ToolCall>, k: nat, next: nat, after: seq<Unit>)
    requires k < |calls|
    requires var own := UnitsOfCall(tools, available, calls[k], next);
             if LeavesAgent(own[|own| - 1]) then after == [] else InRounds(calls, k + 1, after)
    ensures InRounds(calls, k, UnitsOfCall(tools, available, calls[k], next) + after)
  {
    hide LeavesAgent, Resolve;
    var own := UnitsOfCall(tools, available, calls[k], next);
    var u := own[|own| - 1];
    assert ([u] + after)[1..] == after;
    assert InRounds(calls, k, [u] + after);
    if |own| == 2 {
      assert (own + after)[0] == own[0] && (own + after)[1..] == [u] + after;
    } else {
      assert own + after == [u] + after;
    }
  }

  /** A message's units answer exactly its calls. */
  lemma {:induction false} BuiltInRounds(tools: seq<ToolMeta>, message: Message, next: nat)
    requires message.calls != []
    ensures InRounds(message.calls, 0, BuildUnits(tools, message, next).units)
  {
    var b := BuildCalls(tools, message.available, message.calls, next);
    assert message.calls[0..] == message.calls;
    var tail: seq<Unit> := if b.closed then [] else [LlmUnit(b.next, UnitPending, ResumesTask(b.units[|b.units| - 1]), None)];
    BuiltCallsInRounds(tools, message.available, message.calls, 0, next, tail);
    assert b.closed ==> b.units + tail == b.units;
  }

  /** Giving unit `n` its result, and appending the next round if it is a turn of the
      model, keeps the order. */
  lemma {:induction false} RoundAdvances(calls: seq<ToolCall>, k: nat, units: seq<Unit>, n: nat, u: Unit, more: seq<Unit>)
    requires InRounds(calls, k, units) && n < |units| && u.LlmUnit? == units[n].LlmUnit?
    requires u.LlmUnit? ==> units[n].message.None? && u.message.Some? && Continues(u.message.value, more)
    requires u.ToolUnit? ==> more == [] && u.fromLlm == units[n].fromLlm && u.toolId == units[n].toolId && u.call == units[n].call
    ensures InRounds(calls, k, units[n := u] + more)
    decreases |units|
  {
    hide LeavesAgent, Answers;
    var r := units[n := u] + more;
    if n == 0 {
      assert r[1..] == units[1..] + more;
      if u.LlmUnit? {
        assert units[1..] == [];
        assert [] + more == more;
      } else {
        assert units[1..] + [] == units[1..];
        LeavesAlike(u, units[0]);
      }
    } else {
      assert r[0] == units[0] && r[1..] == units[1..][n - 1 := u] + more;
      var next := if units[0].LlmUnit? then 0 else if units[0].fromLlm then k + 1 else k;
      var now := if units[0].LlmUnit? then units[0].message.value.calls else calls;
      RoundAdvances(now, next, units[1..], n - 1, u, more);
    }
  }

  lemma {:induction false} LeavesAlike(u: Unit, v: Unit)
    requires u.ToolUnit? && v.ToolUnit? && u.toolId == v.toolId && u.call == v.call
    ensures LeavesAgent(u) == LeavesAgent(v)
    ensures forall c :: Answers(u, c) == Answers(v, c)
  {
  }

  // ---- the expanded messages ------------------------------------------------------------------

  datatype ChatMessage = UserMessage | AssistantMessage(calls: seq<CallId>) | ToolMessage(id: CallId)

  function CallIds(calls: seq<ToolCall>): (r: seq<CallId>)
    ensures |r| == |calls| && forall k :: 0 <= k < |r| ==> r[k] == calls[k].id
  {
    seq(|calls|, k requires 0 <= k < |calls| => calls[k].id)
  }

  /** `_artifact_to_llm_messages` for the artifacts of a task. */
  function ArtifactMessages(a: Artifact): seq<ChatMessage> {
    match a
    case InputArtifact(_, _) => [UserMessage]
    case AssistantArtifact(_, m) => [AssistantMessage(CallIds(m.calls))]
    case ToolCallArtifact(_, m) => [AssistantMessage(CallIds(m.calls))]
    case ToolExeArtifact(_, u) => if u.ToolUnit? && u.result.Some? then [ToolMessage(u.call.id)] else []
    case ToolLlmArtifact(_, u) => if u.LlmUnit? && u.message.Some? then [AssistantMessage(CallIds(u.message.value.calls))] else []
    case FrameArtifact(_, change) => if change.Push? || change.byTool then [AssistantMessage([])] else []
    case InterruptionArtifact(_, _) => [AssistantMessage([])]
  }

  function Messages(artifacts: seq<Artifact>): seq<ChatMessage> {
    if artifacts == [] then [] else ArtifactMessages(artifacts[0]) + Messages(artifacts[1..])
  }

  /** The tool-call protocol, checked message by message: `calls` are the calls of the
      nearest preceding assistant message, the first `k` of which have been answered.
      A tool message answers the next call; an assistant message speaks only when all
      have been answered. */
  predicate Protocol(messages: seq<ChatMessage>, calls: seq<CallId>, k: nat) {
    if messages == [] then true
    else
      match messages[0]
      case UserMessage => false
      case ToolMessage(id) => k < |calls| && calls[k] == id && Protocol(messages[1..], calls, k + 1)
      case AssistantMessage(next) => k == |calls| && Protocol(messages[1..], next, 0)
  }

  /** The calls and the number of answers at the end of a message list. */
  function Standing(messages: seq<ChatMessage>, calls: seq<CallId>, k: nat): (seq<CallId>, nat) {
    if messages == [] then (calls, k)
    else
      match messages[0]
      case UserMessage => Standing(messages[1..], calls, k)
      case ToolMessage(_) => Standing(messages[1..], calls, k + 1)
      case AssistantMessage(next) => Standing(messages[1..], next, 0)
  }

  lemma {:induction false} LoopArtifactsHead(owner: string, units: seq<Unit>)
    requires units != []
    ensures LoopArtifacts(owner, units) == UnitArtifacts(owner, units[0]) + LoopArtifacts(owner, units[1..])
  {
    hide UnitArtifacts;
    if |units| > 1 {
      var front, last, rest := units[..|units| - 1], units[|units| - 1], units[1..];
      LoopArtifactsHead(owner, front);
      assert front[1..] == rest[..|rest| - 1] && rest[|rest| - 1] == last && front[0] == units[0];
      var middle := LoopArtifacts(owner, front[1..]);
      assert LoopArtifacts(owner, rest) == middle + UnitArtifacts(owner, last);
      assert LoopArtifacts(owner, units) == (UnitArtifacts(owner, units[0]) + middle) + UnitArtifacts(owner, last);
    } else {
      assert units[..0] == [] && units[1..] == [];
    }
  }

  lemma {:induction false} NothingFinished(owner: string, units: seq<Unit>)
    requires forall u :: u in units ==> !u.IsFinished()
    ensures LoopArtifacts(owner, units) == []
  {
    if units != [] {
      NothingFinished(owner, units[..|units| - 1]);
    }
  }

  /** Every unit that has finished carries its result. */
  predicate Reported(units: seq<Unit>) {
    forall u | u in units && u.IsFinished() :: if u.LlmUnit? then u.message.Some? else u.result.Some?
  }

  /** Units execute front to back. */
  predicate InTurn(units: seq<Unit>) {
    forall i, j | 0 <= i < j < |units| :: units[j].IsFinished() ==> units[i].IsFinished()
  }

  /** The message one unit expands to, if any. */
  function Voice(u: Unit): seq<ChatMessage> {
    if !u.IsFinished() then []
    else if u.LlmUnit? then (if u.message.Some? then [AssistantMessage(CallIds(u.message.value.calls))] else [])
    else if u.fromLlm && u.result.Some? then [ToolMessage(u.call.id)]
    else []
  }

  lemma {:induction false} VoiceFirst(owner: string, units: seq<Unit>)
    requires units != []
    ensures Messages(LoopArtifacts(owner, units)) == Voice(units[0]) + Messages(LoopArtifacts(owner, units[1..]))
  {
    hide LoopArtifacts;
    var rest := LoopArtifacts(owner, units[1..]);
    LoopArtifactsHead(owner, units);
    if UnitArtifacts(owner, units[0]) == [] {
      assert [] + rest == rest && [] + Messages(rest) == Messages(rest);
    } else {
      MessagesHead(UnitArtifacts(owner, units[0])[0], rest);
    }
  }

  lemma {:induction false} MessagesHead(a: Artifact, rest: seq<Artifact>)
    ensures Messages([a] + rest) == ArtifactMessages(a) + Messages(rest)
  {
    assert ([a] + rest)[1..] == rest;
  }

  lemma {:induction false} ProtocolHead(m: ChatMessage, rest: seq<ChatMessage>, calls: seq<CallId>, k: nat)
    ensures Protocol([m] + rest, calls, k) <==>
            match m
            case UserMessage => false
            case ToolMessage(id) => k < |calls| && calls[k] == id && Protocol(rest, calls, k + 1)
            case AssistantMessage(next) => k == |calls| && Protocol(rest, next, 0)
    ensures Standing([m] + rest, calls, k) ==
            match m
            case UserMessage => Standing(rest, calls, k)
            case ToolMessage(_) => Standing(rest, calls, k + 1)
            case AssistantMessage(next) => Standing(rest, next, 0)
  {
    assert ([m] + rest)[1..] == rest;
  }

  /** The messages a tool loop expands to keep the protocol, however far it has been
      executed, and approval units leave no trace in them. */
  lemma {:induction false} LoopKeepsProtocol(owner: string, calls: seq<ToolCall>, k: nat, units: seq<Unit>)
    requires InRounds(calls, k, units) && Reported(units) && InTurn(units)
    ensures Protocol(Messages(LoopArtifacts(owner, units)), CallIds(calls), k)
    decreases |units|
  {
    hide LeavesAgent, Messages, LoopArtifacts, Protocol;
    var u, rest := units[0], units[1..];
    assert u in units && forall x :: x in rest ==> x in units;
    var after := Messages(LoopArtifacts(owner, rest));
    if !u.IsFinished() {
      NothingFinished(owner, units);
      NoMessages(CallIds(calls), k);
    } else {
      VoiceFirst(owner, units);
      var now := if u.LlmUnit? then u.message.value.calls else calls;
      var next := if u.LlmUnit? then 0 else if u.fromLlm then k + 1 else k;
      if rest != [] {
        LoopKeepsProtocol(owner, now, next, rest);
      } else {
        NothingFinished(owner, rest);
        NoMessages(CallIds(now), next);
      }
      if u.ToolUnit? && !u.fromLlm {
        assert [] + after == after;
      } else {
        ProtocolHead(Voice(u)[0], after, CallIds(calls), k);
      }
    }
  }

  lemma {:induction false} NoMessages(calls: seq<CallId>, k: nat)
    ensures Messages([]) == [] && Protocol([], calls, k) && Standing([], calls, k) == (calls, k)
  {
  }

  /** The calls of the model's last turn, and how many of them have a unit. */
  function LastTurn(calls: seq<ToolCall>, k: nat, units: seq<Unit>): (seq<ToolCall>, nat)
    decreases |units|
  {
    if units == [] then (calls, k)
    else
      var u := units[0];
      if u.LlmUnit? then LastTurn(if u.message.Some? then u.message.value.calls else [], 0, units[1..])
      else LastTurn(calls, if u.fromLlm then k + 1 else k, units[1..])
  }

  /** When every unit has finished, the loop ends with the model's last words, or with
      the answer to the call that gave control away: only the calls after that one stay
      unanswered. */
  lemma {:induction false} FinishedLoopEnds(owner: string, calls: seq<ToolCall>, k: nat, units: seq<Unit>)
    requires InRounds(calls, k, units) && Reported(units) && forall u :: u in units ==> u.IsFinished()
    ensures var last := units[|units| - 1];
            var end := Standing(Messages(LoopArtifacts(owner, units)), CallIds(calls), k);
            var turn := LastTurn(calls, k, units);
            && end == (CallIds(turn.0), turn.1)
            && (if last.LlmUnit? then turn == ([], 0)
                else LeavesAgent(last) && 0 < turn.1 <= |turn.0| && turn.0[turn.1 - 1].id == last.call.id)
    decreases |units|
  {
    hide LeavesAgent, Messages, LoopArtifacts, Standing;
    var u, rest := units[0], units[1..];
    assert u in units && forall x :: x in rest ==> x in units;
    var after := Messages(LoopArtifacts(owner, rest));
    VoiceFirst(owner, units);
    var now := if u.LlmUnit? then u.message.value.calls else calls;
    var next := if u.LlmUnit? then 0 else if u.fromLlm then k + 1 else k;
    if rest != [] {
      FinishedLoopEnds(owner, now, next, rest);
    } else {
      NothingFinished(owner, rest);
      NoMessages(CallIds(now), next);
    }
    if u.ToolUnit? && !u.fromLlm {
      assert [] + after == after;
    } else {
      ProtocolHead(Voice(u)[0], after, CallIds(calls), k);
    }
  }

  lemma {:induction false} ThenAssistant(messages: seq<ChatMessage>, next: seq<CallId>, calls: seq<CallId>, k: nat)
    requires Protocol(messages, calls, k)
    ensures var end := Standing(messages, calls, k);
            Protocol(messages + [AssistantMessage(next)], calls, k) <==> end.1 == |end.0|
  {
    if messages == [] {
      assert [AssistantMessage(next)][1..] == [];
    } else {
      var m, rest := messages[0], messages[1..];
      assert messages + [AssistantMessage(next)] == [m] + (rest + [AssistantMessage(next)]);
      match m {
        case UserMessage =>
        case ToolMessage(_) => ThenAssistant(rest, next, calls, k + 1);
        case AssistantMessage(own) => ThenAssistant(rest, next, own, 0);
      }
    }
  }

  lemma {:induction false} MessagesConcat(a: seq<Artifact>, b: seq<Artifact>)
    ensures Messages(a + b) == Messages(a) + Messages(b)
  {
    hide ArtifactMessages;
    if a == [] {
      assert a + b == b && Messages(a) + Messages(b) == Messages(b);
    } else {
      MessagesConcat(a[1..], b);
      assert a + b == [a[0]] + (a[1..] + b);
      MessagesHead(a[0], a[1..] + b);
      assert ArtifactMessages(a[0]) + (Messages(a[1..]) + Messages(b)) == Messages(a) + Messages(b);
    }
  }

  /** A finished loop with the change of control behind it keeps the protocol exactly if
      the change says nothing or every call of the last turn has been answered: a call
      that gives control away must be the last of its message. */
  lemma {:induction false} ClosedRoundProtocol(owner: string, calls: seq<ToolCall>, units: seq<Unit>, change: FrameChange)
    requires InRounds(calls, 0, units) && Reported(units) && forall u :: u in units ==> u.IsFinished()
    ensures var turn := LastTurn(calls, 0, units);
            Protocol(Messages(LoopArtifacts(owner, units) + [FrameArtifact(owner, change)]), CallIds(calls), 0) <==>
            (change.Pop? && !change.byTool) || turn.1 == |turn.0|
  {
    hide LeavesAgent, LoopArtifacts, Protocol, Standing, InRounds, LastTurn;
    LoopKeepsProtocol(owner, calls, 0, units);
    FinishedLoopEnds(owner, calls, 0, units);
    var before := Messages(LoopArtifacts(owner, units));
    MessagesConcat(LoopArtifacts(owner, units), [FrameArtifact(owner, change)]);
    MessagesHead(FrameArtifact(owner, change), []);
    assert [FrameArtifact(owner, change)] + [] == [FrameArtifact(owner, change)];
    if change.Push? || change.byTool {
      assert Messages([FrameArtifact(owner, change)]) == [AssistantMessage([])];
      ThenAssistant(before, [], CallIds(calls), 0);
    } else {
      assert before + [] == before;
    }
  }

  const HANDOFF_CALL := ToolCall(FromModel("c1"), Some("_handoff_agent_b"), false)
  const LATER_CALL := ToolCall(FromModel("c2"), Some("search"), false)

  /** The condition is not idle: behind a handoff the later calls of the same message are
      ignored, and the handoff's own message follows unanswered calls. */
  lemma {:induction false} EarlyHandoffBreaksProtocol(owner: string)
    ensures var u := ToolUnit(0, UnitCompleted, "_handoff_agent_b", HANDOFF_CALL, true, None,
                              Some(ToolResult(Success, Some(Push("a", "b")))));
            && InRounds([HANDOFF_CALL, LATER_CALL], 0, [u])
            && !Protocol(Messages(LoopArtifacts(owner, [u]) + [FrameArtifact(owner, Push("a", "b"))]),
                         CallIds([HANDOFF_CALL, LATER_CALL]), 0)
  {
    var u := ToolUnit(0, UnitCompleted, "_handoff_agent_b", HANDOFF_CALL, true, None, Some(ToolResult(Success, Some(Push("a", "b")))));
    var calls := [HANDOFF_CALL, LATER_CALL];
    assert LeavesAgent(u) && [u][1..] == [];
    assert LastTurn(calls, 0, [u]) == LastTurn(calls, 1, []) == (calls, 1);
    ClosedRoundProtocol(owner, calls, [u], Push("a", "b"));
  }
}
