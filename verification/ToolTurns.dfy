/** What the model is shown, which of its calls are taken up, and when a call comes to
    nothing, each on the ids and the calls alone. */
module ToolTurns {
  import opened Common
  import opened KernelModels
  import opened ToolUnits
  import opened ToolExecution

  // ---- what the model is shown ------------------------------------------------------------

  /** Approval tools are never shown, `_resume_task` only while a task is paused, a return
      only where there is an agent beneath, and a handoff only to an agent not in control of
      anything. */
  predicate MayShow(id: string, frames: seq<Frame>, hasPaused: bool) {
    && !("_hitl_" <= id) && (id == "_resume_task" ==> hasPaused) && (id == "_handoff_return" ==> |frames| != 1)
    && (forall f | f in frames :: id != "_handoff_agent_" + f.agent)
  }

  /** The tools shown are those that may be, in the order they are registered. */
  lemma {:induction false} ShownInOrder(tools: seq<ToolMeta>, frames: seq<Frame>, hasPaused: bool)
    ensures var shown, kept := ShownTools(tools, frames, hasPaused), Filter((t: ToolMeta) => MayShow(t.id, frames, hasPaused), tools);
            |shown| == |kept| && forall k :: 0 <= k < |shown| ==> shown[k] == kept[k].id
  {
    hide MayShow, Shown;
    if tools != [] {
      ShownInOrder(tools[..|tools| - 1], frames, hasPaused);
      ShownIs(tools[|tools| - 1].id, frames, hasPaused);
    }
  }

  lemma {:induction false} ShownIs(id: string, frames: seq<Frame>, hasPaused: bool)
    ensures Shown(id, frames, hasPaused) <==> MayShow(id, frames, hasPaused)
  {
    if IsHandoffId(id) {
      assert id == HANDOFF_PREFIX + HandoffTarget(id);
      forall f | f in frames ensures f.agent == HandoffTarget(id) <==> id == HANDOFF_PREFIX + f.agent {
        assert (HANDOFF_PREFIX + f.agent)[|HANDOFF_PREFIX|..] == f.agent;
      }
    } else {
      forall f | f in frames ensures id != HANDOFF_PREFIX + f.agent {
        assert (HANDOFF_PREFIX + f.agent)[..|HANDOFF_PREFIX|] == HANDOFF_PREFIX;
      }
    }
  }

  // ---- which calls are taken up --------------------------------------------------------------

  /** The call names a registered tool that the model was shown. */
  ghost predicate Offered(tools: seq<ToolMeta>, available: seq<string>, call: ToolCall) {
    exists t :: t in tools && t.id in available && call.name == Some(t.id)
  }

  ghost predicate GivesAway(tools: seq<ToolMeta>, available: seq<string>, call: ToolCall) {
    Offered(tools, available, call) && ("_handoff_agent_" <= call.name.value || call.name.value == "_handoff_return")
  }

  /** The units that answer the model's own calls. */
  function ModelUnits(units: seq<Unit>): seq<Unit> {
    Filter((u: Unit) => u.ToolUnit? && u.fromLlm, units)
  }

  lemma {:induction false} OneCall(tools: seq<ToolMeta>, available: seq<string>, call: ToolCall, next: nat)
    requires !call.error
    ensures var own := UnitsOfCall(tools, available, call, next);
            var u := own[|own| - 1];
            && ModelUnits(own) == [u] && u.call.id == call.id && u.call.name == call.name
            && (forall x :: x in own ==> x.ToolUnit?)
            && (LeavesAgent(u) <==> GivesAway(tools, available, call))
            && (ResumesTask(u) <==> Offered(tools, available, call) && call.name == Some("_resume_task"))
  {
    hide Lookup;
    UnitsAnswerCall(tools, available, call, next);
    var own := UnitsOfCall(tools, available, call, next);
    var u := own[|own| - 1];
    OnlyLast(own);
    NotResolved(tools, available, call);
  }

  lemma {:induction false} OnlyLast(own: seq<Unit>)
    requires 1 <= |own| <= 2 && forall k :: 0 <= k < |own| ==> own[k].ToolUnit? && (own[k].fromLlm <==> k == |own| - 1)
    ensures ModelUnits(own) == [own[|own| - 1]]
  {
    var f, front, last := (u: Unit) => u.ToolUnit? && u.fromLlm, own[..|own| - 1], own[|own| - 1];
    FilterAllOrNone(f, front, false);
    assert ModelUnits(own) == [] + [last];
  }

  lemma {:induction false} NotResolved(tools: seq<ToolMeta>, available: seq<string>, call: ToolCall)
    ensures Resolve(tools, available, call).Some? <==> Offered(tools, available, call)
  {
    var r := Resolve(tools, available, call);
    if r.Some? {
      assert r.value in tools && r.value.id in available && call.name == Some(r.value.id);
    }
  }

  /** The calls up to the first that gives control away. */
  ghost predicate TakenUp(tools: seq<ToolMeta>, available: seq<string>, calls: seq<ToolCall>, m: nat) {
    && m <= |calls| && (calls != [] ==> m > 0)
    && (forall j :: 0 <= j < m - 1 ==> !GivesAway(tools, available, calls[j]))
    && (0 < m < |calls| ==> GivesAway(tools, available, calls[m - 1]))
  }

  predicate AnswersCalls(units: seq<Unit>, calls: seq<ToolCall>) {
    && |ModelUnits(units)| == |calls|
    && forall j | 0 <= j < |calls| :: var u := ModelUnits(units)[j]; u.ToolUnit? && u.call.id == calls[j].id && u.call.name == calls[j].name
  }

  lemma {:induction false} AnswersConcat(a: seq<Unit>, first: ToolCall, b: seq<Unit>, calls: seq<ToolCall>)
    requires AnswersCalls(a, [first]) && AnswersCalls(b, calls)
    ensures AnswersCalls(a + b, [first] + calls)
  {
    FilterConcat((u: Unit) => u.ToolUnit? && u.fromLlm, a, b);
    assert ModelUnits(a + b) == ModelUnits(a) + ModelUnits(b);
  }

  /** What is built for the calls taken up. */
  ghost predicate BuiltFor(tools: seq<ToolMeta>, available: seq<string>, calls: seq<ToolCall>, m: nat, b: Built)
    requires m <= |calls|
  {
    && AnswersCalls(b.units, calls[..m]) && (forall u :: u in b.units ==> u.ToolUnit?) && (m > 0 ==> b.units != [])
    && (b.closed <==> m > 0 && GivesAway(tools, available, calls[m - 1]))
    && (m > 0 && !b.closed ==> (ResumesTask(b.units[|b.units| - 1]) <==>
          Offered(tools, available, calls[m - 1]) && calls[m - 1].name == Some("_resume_task")))
  }

  lemma {:induction false} CallsTaken(tools: seq<ToolMeta>, available: seq<string>, calls: seq<ToolCall>, next: nat) returns (m: nat)
    requires forall c :: c in calls ==> !c.error
    ensures TakenUp(tools, available, calls, m) && BuiltFor(tools, available, calls, m, BuildCalls(tools, available, calls, next))
  {
    hide LeavesAgent, GivesAway, Offered, UnitsOfCall, ResumesTask, AnswersCalls;
    if calls == [] {
      NothingAnswered();
      return 0;
    }
    var own := UnitsOfCall(tools, available, calls[0], next);
    OneCall(tools, available, calls[0], next);
    OneAnswered(own, calls[0]);
    assert calls[..1] == [calls[0]];
    if LeavesAgent(own[|own| - 1]) {
      return 1;
    }
    var n := CallsTaken(tools, available, calls[1..], next + |own|);
    m := n + 1;
    var rest := BuildCalls(tools, available, calls[1..], next + |own|);
    AnswersConcat(own, calls[0], rest.units, calls[1..][..n]);
    assert [calls[0]] + calls[1..][..n] == calls[..m];
    assert n > 0 ==> calls[m - 1] == calls[1..][n - 1];
    assert n == 0 ==> calls[1..] == [] && own + rest.units == own;
    TakenBehind(tools, available, calls, n);
  }

  lemma {:induction false} NothingAnswered()
    ensures AnswersCalls([], [])
  {
  }

  lemma {:induction false} OneAnswered(own: seq<Unit>, call: ToolCall)
    requires own != [] && ModelUnits(own) == [own[|own| - 1]] && own[|own| - 1].ToolUnit?
    requires own[|own| - 1].call.id == call.id && own[|own| - 1].call.name == call.name
    ensures AnswersCalls(own, [call])
  {
  }

  lemma {:induction false} TakenBehind(tools: seq<ToolMeta>, available: seq<string>, calls: seq<ToolCall>, n: nat)
    requires calls != [] && !GivesAway(tools, available, calls[0]) && TakenUp(tools, available, calls[1..], n)
    ensures TakenUp(tools, available, calls, n + 1)
  {
    hide GivesAway;
    forall j | 0 <= j < n ensures !GivesAway(tools, available, calls[j]) {
      assert j > 0 ==> calls[j] == calls[1..][j - 1];
    }
  }

  /** The calls of a message are taken up in order to the first that gives control away, and
      each is answered by one unit; then the model goes on, without tools exactly after a
      task was resumed, unless control is given away. */
  lemma {:induction false} MessageUnits(tools: seq<ToolMeta>, message: Message, next: nat) returns (m: nat)
    requires message.calls != [] && forall c :: c in message.calls ==> !c.error
    ensures 0 < m && TakenUp(tools, message.available, message.calls, m)
    ensures var units, last := BuildUnits(tools, message, next).units, message.calls[m - 1];
            && AnswersCalls(units, message.calls[..m]) && units != []
            && (forall j :: 0 <= j < |units| - 1 ==> units[j].ToolUnit?)
            && var end := units[|units| - 1];
               if GivesAway(tools, message.available, last) then end.ToolUnit?
               else end.LlmUnit? && end.status.UnitPending? && end.message.None?
                    && (end.noToolCall <==> Offered(tools, message.available, last) && last.name == Some("_resume_task"))
  {
    hide GivesAway, Offered, ResumesTask, BuildCalls, AnswersCalls;
    m := CallsTaken(tools, message.available, message.calls, next);
    var b := BuildCalls(tools, message.available, message.calls, next);
    assert forall j :: 0 <= j < |b.units| ==> b.units[j] in b.units;
    if !b.closed {
      TurnAnswersNothing(b.units, LlmUnit(b.next, UnitPending, ResumesTask(b.units[|b.units| - 1]), None), message.calls[..m]);
    }
  }

  lemma {:induction false} TurnAnswersNothing(units: seq<Unit>, turn: Unit, calls: seq<ToolCall>)
    requires turn.LlmUnit? && AnswersCalls(units, calls)
    ensures AnswersCalls(units + [turn], calls)
  {
    assert ModelUnits(units + [turn]) == ModelUnits(units);
  }

  // ---- calls that come to nothing ----------------------------------------------------------------

  /** The tool of the unit is there: registered with the agent, or an approval tool that is
      fetched, or was before. */
  ghost predicate IsThere(env: Env, toolId: string) {
    || (exists t :: t in ToolsOf(env.config, env.agent) && t.id == toolId)
    || (env.agent, toolId) in env.registered
    || ("_hitl_" <= toolId && RegisteredHitlId(toolId) == toolId)
  }

  /** The approval unit directly before: it has said yes, no, or nothing at all. */
  predicate Consented(units: seq<Unit>, k: nat) {
    0 < k < |units| && units[k - 1].ToolUnit? && "_hitl_" <= units[k - 1].toolId
    && units[k - 1].result.Some? && units[k - 1].result.value.status == Success
  }

  predicate Declined(units: seq<Unit>, k: nat) {
    0 < k < |units| && units[k - 1].ToolUnit? && "_hitl_" <= units[k - 1].toolId
    && units[k - 1].result.Some? && units[k - 1].result.value.status != Success
  }

  lemma {:induction false} FoundIsThere(env: Env, toolId: string)
    ensures FindTool(AfterFetch(env, toolId), toolId).Some? <==> IsThere(env, toolId)
    ensures Lookup(ToolsOf(env.config, env.agent), toolId).Some? ==>
              FindTool(AfterFetch(env, toolId), toolId) == Lookup(ToolsOf(env.config, env.agent), toolId)
    ensures Lookup(ToolsOf(env.config, env.agent), toolId).None? && IsThere(env, toolId) ==>
              FindTool(AfterFetch(env, toolId), toolId) == Some(ToolMeta(toolId, false, true))
  {
    var t := Lookup(ToolsOf(env.config, env.agent), toolId);
    if t.Some? {
      assert t.value in ToolsOf(env.config, env.agent);
    }
  }

  /** A call that names nothing, or a tool that is not there, fails, and so does one whose
      arguments are not accepted and one that was declined; a confirmed tool without an
      answer from an approval tool that is there breaks the run. */
  lemma {:induction false} CallsThatFail(env: Env, units: seq<Unit>, k: nat, request: Option<Request>, a: Answer)
    requires k < |units| && units[k].ToolUnit?
    ensures var u, e := units[k], ExecuteTool(env, units, k, request, a);
            var failed := Executed(UnitCompleted, ToolResult(Failure, None), None);
            var named := !u.call.error && u.call.name.Some? && u.call.name.value != "";
            var tool := Lookup(ToolsOf(env.config, env.agent), u.toolId);
            var confirmed := tool.Some? && tool.value.requiresConfirmation;
            && (!named || !IsThere(env, u.toolId) ==> e == failed)
            && (!a.accepted ==> e == failed || (confirmed && e == Broken))
            && (named && confirmed && Declined(units, k) && (env.agent, units[k - 1].toolId) in env.registered ==> e == failed)
            && (named && confirmed && !Consented(units, k) && !Declined(units, k) ==> e == Broken)
            && (!confirmed ==> e != Broken)
  {
    FoundIsThere(env, units[k].toolId);
  }

  /** A registered tool that needs no confirmation runs whenever its arguments are accepted,
      and its result is that of its body. */
  lemma {:induction false} PlainToolRuns(env: Env, units: seq<Unit>, k: nat, request: Option<Request>, a: Answer, tool: ToolMeta)
    requires k < |units| && units[k].ToolUnit? && a.accepted
    requires Lookup(ToolsOf(env.config, env.agent), units[k].toolId) == Some(tool) && !tool.requiresConfirmation && !tool.isAsync
    requires var u := units[k]; !u.call.error && u.call.name == Some(u.toolId) && u.toolId != ""
    requires !("_handoff_agent_" <= units[k].toolId) && units[k].toolId != "_handoff_return"
    ensures BodyResult(ExecuteTool(env, units, k, request, a), a.bodyFailed, a.event)
  {
    FoundIsThere(env, units[k].toolId);
    AdmittedEnds(env, units, k, request, a);
  }

  /** A confirmed tool runs if the approval tool of the unit before it has said yes. */
  lemma {:induction false} ApprovedToolRuns(env: Env, units: seq<Unit>, k: nat, request: Option<Request>, a: Answer, tool: ToolMeta)
    requires k < |units| && units[k].ToolUnit? && a.accepted
    requires Lookup(ToolsOf(env.config, env.agent), units[k].toolId) == Some(tool) && tool.requiresConfirmation && !tool.isAsync
    requires Consented(units, k) && (env.agent, units[k - 1].toolId) in env.registered
    requires var u := units[k]; !u.call.error && u.call.name == Some(u.toolId) && u.toolId != ""
    requires !("_handoff_agent_" <= units[k].toolId) && units[k].toolId != "_handoff_return"
    ensures BodyResult(ExecuteTool(env, units, k, request, a), a.bodyFailed, a.event)
  {
    FoundIsThere(env, units[k].toolId);
    AdmittedEnds(env, units, k, request, a);
  }
}
