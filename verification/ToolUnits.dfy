/** `ToolService`: which tools the model is shown, the units built from its tool
    calls, and the approval tools inserted before confirmed ones. */
module ToolUnits {
  import opened Common
  import opened KernelModels

  // ---- lookup ----------------------------------------------------------------------

  function Lookup(tools: seq<ToolMeta>, id: string): (r: Option<ToolMeta>)
    ensures r.Some? ==> r.value.id == id && r.value in tools
    ensures r.None? <==> forall t :: t in tools ==> t.id != id
  {
    if tools == [] then None
    else if tools[0].id == id then Some(tools[0])
    else Lookup(tools[1..], id)
  }

  /** Python's `lstrip`: drops every leading character that is in the set. */
  function LStrip(s: string, chars: string): string {
    if s != "" && s[0] in chars then LStrip(s[1..], chars) else s
  }

  /** The id a fetched approval tool is registered under. */
  function RegisteredHitlId(hitlToolId: string): string {
    HitlId(LStrip(hitlToolId, HITL_PREFIX))
  }

  /** Ids that survive being put behind the prefix and stripped again. */
  predicate DecodableId(toolId: string) {
    toolId == "" || toolId[0] !in HITL_PREFIX
  }

  lemma {:induction false} LStripAll(p: string, s: string, chars: string)
    requires forall k :: 0 <= k < |p| ==> p[k] in chars
    ensures LStrip(p + s, chars) == LStrip(s, chars)
  {
    if p == "" {
      assert p + s == s;
    } else {
      assert (p + s)[1..] == p[1..] + s;
      LStripAll(p[1..], s, chars);
    }
  }

  lemma {:induction false} LStripShort(s: string, chars: string)
    ensures |LStrip(s, chars)| <= |s|
    ensures LStrip(s, chars) == s <==> (s == "" || s[0] !in chars)
    ensures LStrip(s, chars) == "" || LStrip(s, chars)[0] !in chars
  {
    if s != "" && s[0] in chars {
      LStripShort(s[1..], chars);
    }
  }

  /** The tool id is recovered from its approval id exactly if it does not begin
      with a character of the prefix: the prefix is stripped as a set of characters. */
  lemma {:induction false} HitlIdRoundTrip(toolId: string)
    ensures LStrip(HitlId(toolId), HITL_PREFIX) == toolId <==> DecodableId(toolId)
    ensures RegisteredHitlId(HitlId(toolId)) == HitlId(toolId) <==> DecodableId(toolId)
  {
    LStripAll(HITL_PREFIX, toolId, HITL_PREFIX);
    LStripShort(toolId, HITL_PREFIX);
    assert HitlId(toolId)[|HITL_PREFIX|..] == toolId;
    assert RegisteredHitlId(HitlId(toolId))[|HITL_PREFIX|..] == LStrip(toolId, HITL_PREFIX);
  }

  /** The condition is not idle: a tool called `lookup` is approved as `ookup`. */
  lemma {:induction false} LookupLosesItsFirstLetter()
    ensures LStrip(HitlId("lookup"), HITL_PREFIX) == "ookup"
  {
    LStripAll(HITL_PREFIX, "lookup", HITL_PREFIX);
    LStripAll("l", "ookup", HITL_PREFIX);
    assert "l" + "ookup" == "lookup";
    LStripShort("ookup", HITL_PREFIX);
  }

  // ---- tools shown to the model --------------------------------------------------------

  predicate Shown(toolId: string, frames: seq<Frame>, hasPaused: bool) {
    && !IsHitl(toolId)
    && (toolId == RESUME_TASK ==> hasPaused)
    && (toolId == HANDOFF_RETURN ==> |frames| != 1)
    && (IsHandoffId(toolId) ==> forall f :: f in frames ==> f.agent != HandoffTarget(toolId))
  }

  function ShownTools(tools: seq<ToolMeta>, frames: seq<Frame>, hasPaused: bool): seq<string> {
    if tools == [] then []
    else
      var front := ShownTools(tools[..|tools| - 1], frames, hasPaused);
      var last := tools[|tools| - 1].id;
      if Shown(last, frames, hasPaused) then front + [last] else front
  }

  lemma {:induction false} ShownToolsAre(tools: seq<ToolMeta>, frames: seq<Frame>, hasPaused: bool, id: string)
    ensures id in ShownTools(tools, frames, hasPaused) <==> Lookup(tools, id).Some? && Shown(id, frames, hasPaused)
  {
    if tools != [] {
      var front, last := tools[..|tools| - 1], tools[|tools| - 1];
      ShownToolsAre(front, frames, hasPaused, id);
      assert tools == front + [last];
      assert forall t :: t in tools <==> t in front || t == last;
      if Lookup(front, id).Some? {
        assert Lookup(front, id).value in tools;
      }
    }
  }

  /** `_filter_runtime_available_tools`. */
  method FilterRuntimeAvailableTools(tools: seq<ToolMeta>, frames: seq<Frame>, hasPaused: bool)
    returns (available: seq<string>)
    ensures available == ShownTools(tools, frames, hasPaused)
  {
    var frameAgents := set f | f in frames :: f.agent;
    available := [];
    for k := 0 to |tools|
      invariant available == ShownTools(tools[..k], frames, hasPaused)
    {
      assert tools[..k + 1][..k] == tools[..k];
      var id := tools[k].id;
      if IsHitl(id) {
        continue;
      }
      if !hasPaused && id == RESUME_TASK {
        continue;
      }
      if |frames| == 1 && id == HANDOFF_RETURN {
        continue;
      }
      if IsHandoffId(id) && HandoffTarget(id) in frameAgents {
        continue;
      }
      available := available + [id];
    }
    assert tools[..|tools|] == tools;
  }

  // ---- units of one assistant message -----------------------------------------------------

  /** The tool a call resolves to, if the runtime accepts the call at all. */
  function Resolve(tools: seq<ToolMeta>, available: seq<string>, call: ToolCall): (r: Option<ToolMeta>)
    ensures r.Some? ==> call.name == Some(r.value.id) && r.value.id in available && r.value in tools
  {
    if call.name.None? || call.name.value !in available then None
    else Lookup(tools, call.name.value)
  }

  function HitlUnit(id: nat, toolId: string): Unit {
    ToolUnit(id, UnitPending, HitlId(toolId), ToolCall(Generated(id), Some(HitlId(toolId)), false), false, None, None)
  }

  function CallUnit(id: nat, toolId: string, call: ToolCall): Unit {
    ToolUnit(id, UnitPending, toolId, call, true, None, None)
  }

  /** The units of one call: an approval unit first if the tool asks for one. */
  function UnitsOfCall(tools: seq<ToolMeta>, available: seq<string>, call: ToolCall, next: nat): (r: seq<Unit>)
    ensures 1 <= |r| <= 2
  {
    var tool := Resolve(tools, available, call);
    if tool.None? then [CallUnit(next, "", call.(error := true))]
    else if tool.value.requiresConfirmation
    then [HitlUnit(next, tool.value.id), CallUnit(next + 1, tool.value.id, call)]
    else [CallUnit(next, tool.value.id, call)]
  }

  /** Every call is answered by exactly one unit, the last of its units; it is marked as an
      error exactly if the call names no registered tool the model was shown. A unit before
      it asks for its approval, exactly if its tool requires confirmation. */
  lemma {:induction false} UnitsAnswerCall(tools: seq<ToolMeta>, available: seq<string>, call: ToolCall, next: nat)
    requires !call.error
    ensures var units := UnitsOfCall(tools, available, call, next);
            var last := units[|units| - 1];
            && last.ToolUnit? && last.call.id == call.id && last.call.name == call.name
            && (forall k :: 0 <= k < |units| ==> units[k].ToolUnit? && units[k].id == next + k && (units[k].fromLlm <==> k == |units| - 1))
            && (last.call.error <==> !exists t :: t in tools && t.id in available && call.name == Some(t.id))
            && (!last.call.error ==> call.name == Some(last.toolId))
            && (|units| > 1 <==> !last.call.error && Lookup(tools, last.toolId).Some? && Lookup(tools, last.toolId).value.requiresConfirmation)
            && (|units| > 1 ==> var asks := "_hitl_" + last.toolId;
                  units[|units| - 2].toolId == asks && units[|units| - 2].call == ToolCall(Generated(next), Some(asks), false))
  {
    var tool := Resolve(tools, available, call);
    if tool.Some? {
      assert tool.value in tools && tool.value.id in available && call.name == Some(tool.value.id);
    }
  }

  predicate IsHandoff(u: Unit) {
    u.ToolUnit? && u.call.name.Some? && !u.call.error && IsHandoffId(u.call.name.value)
  }

  predicate IsHandoffReturn(u: Unit) {
    u.ToolUnit? && u.toolId == HANDOFF_RETURN && !u.call.error
  }

  /** A call that gives control away: later calls of the message are dropped. */
  predicate LeavesAgent(u: Unit) {
    IsHandoff(u) || IsHandoffReturn(u)
  }

  /** Units of all calls; `closed` if one of them gives control away. */
  datatype Built = Built(units: seq<Unit>, next: nat, closed: bool)

  function BuildCalls(tools: seq<ToolMeta>, available: seq<string>, calls: seq<ToolCall>, next: nat): Built {
    if calls == [] then Built([], next, false)
    else
      var own := UnitsOfCall(tools, available, calls[0], next);
      if LeavesAgent(own[|own| - 1]) then Built(own, next + |own|, true)
      else
        var rest := BuildCalls(tools, available, calls[1..], next + |own|);
        rest.(units := own + rest.units)
  }

  predicate ResumesTask(u: Unit) {
    u.ToolUnit? && u.toolId == RESUME_TASK
  }

  /** A continuation of the model closes the round, unless control was given away. */
  function BuildUnits(tools: seq<ToolMeta>, message: Message, next: nat): (r: Built)
    ensures r.next >= next
  {
    NextGrows(tools, message.available, message.calls, next);
    var b := BuildCalls(tools, message.available, message.calls, next);
    if b.units == [] || b.closed then b
    else Built(b.units + [LlmUnit(b.next, UnitPending, ResumesTask(b.units[|b.units| - 1]), None)], b.next + 1, false)
  }

  lemma {:induction false} NextGrows(tools: seq<ToolMeta>, available: seq<string>, calls: seq<ToolCall>, next: nat)
    ensures BuildCalls(tools, available, calls, next).next >= next
  {
    if calls != [] {
      NextGrows(tools, available, calls[1..], next + |UnitsOfCall(tools, available, calls[0], next)|);
    }
  }

  /** One turn of the loop over the tool calls. */
  method BuildUnitsOfCall(tools: seq<ToolMeta>, available: seq<string>, call: ToolCall, next: nat)
    returns (units: seq<Unit>, next': nat)
    ensures units == UnitsOfCall(tools, available, call, next) && next' == next + |units|
  {
    units, next' := [], next;
    var unit := CallUnit(next', "", call.(error := true));
    if call.name.Some? && call.name.value in available {
      var tool := Lookup(tools, call.name.value);
      if tool.Some? {
        if tool.value.requiresConfirmation {
          units := units + [HitlUnit(next', tool.value.id)];
          next' := next' + 1;
        }
        unit := CallUnit(next', tool.value.id, call);
      }
    }
    units := units + [unit];
    next' := next' + 1;
  }

  /** `build_tool_execution_units`. */
  method BuildToolExecutionUnits(tools: seq<ToolMeta>, message: Message, next: nat) returns (units: seq<Unit>, next': nat)
    ensures Built(units, next', BuildUnits(tools, message, next).closed) == BuildUnits(tools, message, next)
  {
    hide UnitsOfCall, LeavesAgent, ResumesTask, Lookup;
    ghost var whole := BuildCalls(tools, message.available, message.calls, next);
    var shouldAddLlm := true;
    units, next' := [], next;
    var k := 0;
    assert message.calls[0..] == message.calls && [] + whole.units == whole.units;
    while k < |message.calls| && shouldAddLlm
      invariant 0 <= k <= |message.calls|
      invariant shouldAddLlm ==>
        whole == Joined(units, BuildCalls(tools, message.available, message.calls[k..], next'))
      invariant !shouldAddLlm ==> whole == Built(units, next', true)
      decreases |message.calls| - k, shouldAddLlm
    {
      assert message.calls[k..][0] == message.calls[k] && message.calls[k..][1..] == message.calls[k + 1..];
      ghost var rest := BuildCalls(tools, message.available, message.calls[k + 1..], next' + |UnitsOfCall(tools, message.available, message.calls[k], next')|);
      var own, after := BuildUnitsOfCall(tools, message.available, message.calls[k], next');
      assert units + (own + rest.units) == units + own + rest.units;
      units := units + own;
      next' := after;
      if LeavesAgent(own[|own| - 1]) {
        shouldAddLlm := false;
      }
      k := k + 1;
    }
    assert shouldAddLlm ==> whole == Built(units, next', false) by {
      assert shouldAddLlm ==> message.calls[k..] == [];
      assert units + [] == units;
    }
    if units != [] && shouldAddLlm {
      units := units + [LlmUnit(next', UnitPending, ResumesTask(units[|units| - 1]), None)];
      next' := next' + 1;
    }
  }

  function Joined(units: seq<Unit>, rest: Built): Built {
    rest.(units := units + rest.units)
  }
}
