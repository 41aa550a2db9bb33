/** What holds of every session the runtime can reach: tasks, units and frames. */
module KernelInvariant {
  import opened Common
  import opened KernelModels
  import opened ToolUnits
  import opened ToolExecution
  import opened KernelSteps
  import opened ToolRounds

  // ---- configuration -------------------------------------------------------------------

  /** The root is an agent; the approval prefix is the runtime's own. */
  ghost predicate ConfigOk(config: Config) {
    && config.root in config.agents
    && forall a, t :: a in config.tools && t in config.tools[a] ==> !IsHitl(t.id)
  }

  predicate NeedsApproval(config: Config, agent: string, toolId: string) {
    var t := Lookup(ToolsOf(config, agent), toolId);
    t.Some? && t.value.requiresConfirmation
  }

  // ---- frames ----------------------------------------------------------------------------

  /** The stack begins with the root, never holds it again, and every other frame
      names the agent beneath it. */
  predicate FramesOk(config: Config, frames: seq<Frame>) {
    && frames != [] && frames[0] == Frame(config.root, None)
    && forall k | 1 <= k < |frames| :: frames[k].agent != config.root && frames[k].agent in config.agents
                                       && frames[k].from == Some(frames[k - 1].agent)
  }

  predicate HandoffOk(config: Config, agent: string, change: FrameChange) {
    && change.source == agent
    && (change.Push? ==> change.target != config.root && change.target in config.agents)
    && (change.Pop? ==> agent != config.root)
  }

  // ---- messages and units -----------------------------------------------------------------

  /** A tool the model may have been shown: no approval tool, no way back to the root. */
  predicate ToolIdOk(config: Config, toolId: string) {
    !IsHitl(toolId) && (IsHandoffId(toolId) ==> HandoffTarget(toolId) != config.root)
  }

  predicate MessageOk(config: Config, m: Message) {
    forall id | id in m.available :: ToolIdOk(config, id)
  }

  predicate UnitOk(config: Config, agent: string, log: seq<Entry>, u: Unit) {
    if u.LlmUnit? then (u.IsFinished() <==> u.message.Some?) && (u.message.Some? ==> MessageOk(config, u.message.value))
    else
      && (u.IsFinished() ==> u.result.Some?)
      && (if u.fromLlm then !u.call.error ==> u.call.name == Some(u.toolId) && ToolIdOk(config, u.toolId)
          else IsHitl(u.toolId) && u.call.name == Some(u.toolId) && !u.call.error)
      && (u.result.Some? && u.result.value.handoff.Some? ==> HandoffOk(config, agent, u.result.value.handoff.value))
      && (u.requestId.Some? ==> Raised(u.requestId.value, Some(u.id)) in log)
      && (IsHitl(u.toolId) && !u.fromLlm && u.result.Some? && u.result.value.status == Success ==>
            u.requestId.Some? && Answered(u.requestId.value, AsyncData(APPROVE)) in log)
  }

  /** Executed units first, then units not yet begun; nothing half done. */
  predicate PrefixFinished(units: seq<Unit>) {
    forall k | 0 <= k < |units| :: if k < NextUnit(units) then units[k].IsFinished() else units[k].status.UnitPending?
  }

  /** A tool that needs approval stands directly behind its own approval unit. */
  predicate Gated(config: Config, agent: string, units: seq<Unit>) {
    forall k | 0 <= k < |units| ::
      units[k].ToolUnit? && units[k].fromLlm && !units[k].call.error && NeedsApproval(config, agent, units[k].toolId) ==>
        k > 0 && units[k - 1].ToolUnit? && !units[k - 1].fromLlm && units[k - 1].toolId == HitlId(units[k].toolId)
  }

  predicate UnitsOk(config: Config, agent: string, log: seq<Entry>, units: seq<Unit>) {
    && units != [] && PrefixFinished(units) && Gated(config, agent, units)
    && forall u | u in units :: UnitOk(config, agent, log, u)
  }

  // ---- tasks ---------------------------------------------------------------------------------

  /** The status a task has, or had when it was paused. */
  function WorkStatus(t: Task): TaskStatus {
    if t.state.status.Paused? && t.request.Some? then t.request.value.originStatus else t.state.status
  }

  /** Paused exactly while a request waits unanswered. */
  predicate RequestOk(log: seq<Entry>, next: nat, t: Task) {
    && (t.state.status.Paused? ==> t.request.Some? && t.request.value.response.None? && !t.request.value.originStatus.Paused?)
    && (t.request.Some? ==> t.request.value.id < next)
    && (!t.state.status.Paused? && t.request.Some? ==>
          t.request.value.response.Some? && Answered(t.request.value.id, t.request.value.response.value) in log)
  }

  predicate StateOk(config: Config, agent: string, log: seq<Entry>, t: Task) {
    if t.state.MessageState? then
      && (WorkStatus(t).Completed? <==> t.state.message.Some?)
      && (t.state.message.Some? ==> MessageOk(config, t.state.message.value))
    else
      && UnitsOk(config, agent, log, t.state.units) && InRounds(t.state.callMessage.calls, 0, t.state.units)
      && (WorkStatus(t).Completed? <==> NextUnit(t.state.units) == |t.state.units|)
  }

  predicate TaskOk(config: Config, agent: string, log: seq<Entry>, next: nat, t: Task) {
    t.id < next && t.startInput.id < next && t.startInput.event.UserInput? && RequestOk(log, next, t) && StateOk(config, agent, log, t)
  }

  ghost predicate TasksOk(config: Config, s: State) {
    forall agent, t {:trigger t in TasksOf(s.session, agent)} :: t in TasksOf(s.session, agent) ==> TaskOk(config, agent, s.log, s.next, t)
  }

  /** Registered approval tools carry an id that survives the prefix strip. */
  predicate RegisteredOk(registered: set<(string, string)>) {
    forall p | p in registered :: HITL_PREFIX <= p.1 && DecodableId(p.1[|HITL_PREFIX|..])
  }

  // ---- growth --------------------------------------------------------------------------------

  lemma {:induction false} TaskGrows(config: Config, agent: string, log: seq<Entry>, next: nat, log': seq<Entry>, next': nat, t: Task)
    requires TaskOk(config, agent, log, next, t) && next <= next' && forall e :: e in log ==> e in log'
    ensures TaskOk(config, agent, log', next', t)
  {
    hide IsHitl, ToolIdOk, MessageOk, HandoffOk, PrefixFinished, Gated;
    if t.state.ToolState? {
      forall u | u in t.state.units ensures UnitOk(config, agent, log', u) {
        assert UnitOk(config, agent, log, u);
      }
    }
  }

  /** `s'` has the tasks of `s` except for those listed, and knows at least as much. */
  ghost predicate Extends(s: State, s': State) {
    s.next <= s'.next && forall e :: e in s.log ==> e in s'.log
  }

  /** Replacing, adding or removing tasks: every task of `s'` is an old one or fine. */
  lemma {:induction false} TasksKept(config: Config, s: State, s': State)
    requires TasksOk(config, s) && Extends(s, s')
    requires forall agent, t {:trigger t in TasksOf(s'.session, agent)} :: t in TasksOf(s'.session, agent) ==>
               t in TasksOf(s.session, agent) || TaskOk(config, agent, s'.log, s'.next, t)
    ensures TasksOk(config, s')
  {
    forall agent, t | t in TasksOf(s'.session, agent) ensures TaskOk(config, agent, s'.log, s'.next, t) {
      if t in TasksOf(s.session, agent) {
        TaskGrows(config, agent, s.log, s.next, s'.log, s'.next, t);
      }
    }
  }

  lemma {:induction false} TaskSet(config: Config, s: State, s': State, agent: string, k: nat, t: Task)
    requires TasksOk(config, s) && Extends(s, s')
    requires k < |TasksOf(s.session, agent)| && s'.session.tasks == SetTask(s.session, agent, k, t).tasks
    requires TaskOk(config, agent, s'.log, s'.next, t)
    ensures TasksOk(config, s')
  {
    hide TaskOk;
    forall b, x | x in TasksOf(s'.session, b) ensures x in TasksOf(s.session, b) || TaskOk(config, b, s'.log, s'.next, x) {
    }
    TasksKept(config, s, s');
  }

  lemma {:induction false} TheTask(config: Config, s: State, agent: string, k: nat)
    requires TasksOk(config, s) && k < |TasksOf(s.session, agent)|
    ensures TaskOk(config, agent, s.log, s.next, TasksOf(s.session, agent)[k])
  {
    assert TasksOf(s.session, agent)[k] in TasksOf(s.session, agent);
  }

  // ---- tool ids -----------------------------------------------------------------------------------

  /** The three kinds of reserved ids never meet. */
  lemma {:induction false} PrefixesDiffer(toolId: string)
    ensures IsHitl(toolId) ==> !IsHandoffId(toolId) && toolId != HANDOFF_RETURN && toolId != RESUME_TASK && toolId != ""
  {
    assert HITL_PREFIX[2] == 'i' && HANDOFF_PREFIX[2] == 'a' && HANDOFF_RETURN[2] == 'a' && RESUME_TASK[2] == 'e';
    if IsHitl(toolId) {
      assert toolId[2] == HITL_PREFIX[2];
    }
    if IsHandoffId(toolId) {
      assert toolId[2] == HANDOFF_PREFIX[2];
    }
  }

  /** What the model is shown never names an approval tool nor an agent on the stack. */
  lemma {:induction false} GeneratedOk(config: Config, s: Session, agent: string, noToolCall: bool, a: Answer)
    requires FramesOk(config, s.frames)
    ensures MessageOk(config, Generate(config, s, agent, noToolCall, a))
  {
    var m := Generate(config, s, agent, noToolCall, a);
    forall id | id in m.available ensures ToolIdOk(config, id) {
      ShownToolsAre(ToolsOf(config, agent), s.frames, HasPaused(TasksOf(s, agent)), id);
      assert s.frames[0] in s.frames;
    }
  }

  // ---- building units ---------------------------------------------------------------------------------

  predicate AllPending(units: seq<Unit>) {
    forall u | u in units :: u.status.UnitPending? && (u.ToolUnit? ==> u.requestId.None? && u.result.None?) && (u.LlmUnit? ==> u.message.None?)
  }

  lemma {:induction false} BuiltCallsOk(config: Config, agent: string, log: seq<Entry>, available: seq<string>, calls: seq<ToolCall>, next: nat)
    requires ConfigOk(config) && forall id :: id in available ==> ToolIdOk(config, id)
    ensures var units := BuildCalls(ToolsOf(config, agent), available, calls, next).units;
            && Gated(config, agent, units) && AllPending(units) && (calls != [] ==> units != [])
            && forall u :: u in units ==> UnitOk(config, agent, log, u)
  {
    hide LeavesAgent, ToolIdOk, UnitOk, NeedsApproval, UnitsOfCall, ConfigOk;
    var tools := ToolsOf(config, agent);
    if calls != [] {
      var own := UnitsOfCall(tools, available, calls[0], next);
      OneCallOk(config, agent, log, available, calls[0], next);
      BuiltCallsOk(config, agent, log, available, calls[1..], next + |own|);
      var rest := BuildCalls(tools, available, calls[1..], next + |own|).units;
      GatedConcat(config, agent, own, rest);
    }
  }

  lemma {:induction false} OneCallOk(config: Config, agent: string, log: seq<Entry>, available: seq<string>, call: ToolCall, next: nat)
    requires ConfigOk(config) && forall id :: id in available ==> ToolIdOk(config, id)
    ensures var own := UnitsOfCall(ToolsOf(config, agent), available, call, next);
            Gated(config, agent, own) && AllPending(own) && forall u :: u in own ==> UnitOk(config, agent, log, u)
  {
    var tools := ToolsOf(config, agent);
    var tool := Resolve(tools, available, call);
    if tool.Some? && tool.value.requiresConfirmation {
      assert UnitsOfCall(tools, available, call, next)[1].toolId == tool.value.id;
    }
  }

  lemma {:induction false} GatedConcat(config: Config, agent: string, a: seq<Unit>, b: seq<Unit>)
    requires Gated(config, agent, a) && Gated(config, agent, b)
    ensures Gated(config, agent, a + b)
  {
    hide NeedsApproval, HitlId;
    var both := a + b;
    forall k | 0 <= k < |both| && both[k].ToolUnit? && both[k].fromLlm && !both[k].call.error && NeedsApproval(config, agent, both[k].toolId)
      ensures k > 0 && both[k - 1].ToolUnit? && !both[k - 1].fromLlm && both[k - 1].toolId == HitlId(both[k].toolId)
    {
      if k < |a| {
        assert both[k] == a[k];
      } else {
        assert both[k] == b[k - |a|];
      }
    }
  }

  lemma {:induction false} BuiltOk(config: Config, agent: string, log: seq<Entry>, message: Message, next: nat)
    requires ConfigOk(config) && MessageOk(config, message)
    ensures var units := BuildUnits(ToolsOf(config, agent), message, next).units;
            && Gated(config, agent, units) && AllPending(units) && (message.calls != [] ==> units != [])
            && forall u :: u in units ==> UnitOk(config, agent, log, u)
  {
    hide ToolIdOk, NeedsApproval, IsHitl, BuildCalls, ConfigOk;
    BuiltCallsOk(config, agent, log, message.available, message.calls, next);
    var b := BuildCalls(ToolsOf(config, agent), message.available, message.calls, next);
    if b.units != [] && !b.closed {
      var last := LlmUnit(b.next, UnitPending, ResumesTask(b.units[|b.units| - 1]), None);
      GatedConcat(config, agent, b.units, [last]);
    }
  }

  // ---- lists of units --------------------------------------------------------------------------------------

  lemma {:induction false} PendingFromStart(units: seq<Unit>)
    requires AllPending(units)
    ensures PrefixFinished(units) && NextUnit(units) == 0
  {
    if units != [] {
      assert units[0] in units;
    }
    forall k | 0 <= k < |units| ensures units[k].status.UnitPending? {
      assert units[k] in units;
    }
  }

  /** Finishing the next unit and appending new ones keeps the shape. */
  lemma {:induction false} UnitFinished(units: seq<Unit>, u: Unit, more: seq<Unit>)
    requires PrefixFinished(units) && NextUnit(units) < |units| && u.IsFinished() && AllPending(more)
    ensures var r := units[NextUnit(units) := u] + more;
            PrefixFinished(r) && NextUnit(r) == NextUnit(units) + 1 && (AllFinished(r) <==> NextUnit(r) == |r|)
  {
    var n := NextUnit(units);
    var r := units[n := u] + more;
    forall k | 0 <= k < |r| ensures if k <= n then r[k].IsFinished() else r[k].status.UnitPending? {
      if k >= |units| {
        assert r[k] == more[k - |units|] && more[k - |units|] in more;
      }
    }
    NextAfter(r, n + 1);
    AllFinishedAt(r);
  }

  lemma {:induction false} NextAfter(units: seq<Unit>, n: nat)
    requires n <= |units| && (forall k :: 0 <= k < n ==> !units[k].status.UnitPending?)
    requires n < |units| ==> units[n].status.UnitPending?
    ensures NextUnit(units) == n
  {
  }

  lemma {:induction false} AllFinishedAt(units: seq<Unit>)
    requires PrefixFinished(units)
    ensures AllFinished(units) <==> NextUnit(units) == |units|
  {
    if NextUnit(units) < |units| {
      assert units[NextUnit(units)] in units;
    }
  }

  /** A unit of the same kind in place of another keeps the gates. */
  lemma {:induction false} GatedUpdate(config: Config, agent: string, units: seq<Unit>, n: nat, u: Unit)
    requires Gated(config, agent, units) && n < |units|
    requires u.LlmUnit? == units[n].LlmUnit?
    requires u.ToolUnit? ==> u.fromLlm == units[n].fromLlm && u.toolId == units[n].toolId && u.call == units[n].call
    ensures Gated(config, agent, units[n := u])
  {
    hide NeedsApproval, HitlId;
  }
}
