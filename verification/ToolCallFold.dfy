/** Putting the fragments of streamed tool calls together: the tool calls of the choices in
    `MessageEvent.create_final_event_from_events`. */
module ToolCallFold {
  import opened Common

  /** One fragment of the call with this index; an empty text is one that is not sent. */
  datatype Fragment = Fragment(index: int, id: string, kind: string, name: string, arguments: string)

  /** What one chunk brings for one choice. */
  datatype Part = Part(choice: int, fragments: seq<Fragment>)

  datatype Call = Call(id: string, kind: string, name: string, arguments: string)

  /** The prefix of ids the runtime makes up. */
  const OWN_PREFIX := "tool_call_id"

  predicate MadeUp(id: string) {
    OWN_PREFIX <= id
  }

  function Begun(id: string): Call {
    Call(id, "", "", "")
  }

  /** An id made up gives way to one that is sent; kind and name stay once they are there;
      arguments are appended. */
  function AddFragment(c: Call, f: Fragment): Call {
    Call(if f.id != "" && MadeUp(c.id) then f.id else c.id,
         if f.kind != "" && c.kind == "" then f.kind else c.kind,
         if f.name != "" && c.name == "" then f.name else c.name,
         c.arguments + f.arguments)
  }

  /** The calls of one choice by index, and those of all choices. */
  type Calls = map<int, Call>
  type AllCalls = map<int, Calls>

  // ---- what the loops compute ------------------------------------------------------------------

  function CallAt(calls: Calls, i: int, id: string): Call {
    if i in calls then calls[i] else Begun(id)
  }

  function CallsAt(all: AllCalls, choice: int): Calls {
    if choice in all then all[choice] else map[]
  }

  function AddFragments(c: Call, fragments: seq<Fragment>, i: int): Call {
    if fragments == [] then c
    else
      var before, last := AddFragments(c, fragments[..|fragments| - 1], i), fragments[|fragments| - 1];
      if last.index == i then AddFragment(before, last) else before
  }

  function IndicesOf(fragments: seq<Fragment>): set<int> {
    set f | f in fragments :: f.index
  }

  /** The ids the runtime makes up, one for each choice and index. */
  type Ids = (int, int) -> string

  function AddParts(parts: seq<Part>, choice: int, i: int, ids: Ids): Call {
    if parts == [] then Begun(ids(choice, i))
    else
      var before, last := AddParts(parts[..|parts| - 1], choice, i, ids), parts[|parts| - 1];
      if last.choice == choice then AddFragments(before, last.fragments, i) else before
  }

  function Named(parts: seq<Part>, choice: int): set<int> {
    if parts == [] then {}
    else
      var last := parts[|parts| - 1];
      Named(parts[..|parts| - 1], choice) + if last.choice == choice then IndicesOf(last.fragments) else {}
  }

  /** The inner loop: the fragments of one choice in one chunk. */
  method AddPart(before: Calls, part: Part, ids: Ids) returns (calls: Calls)
    ensures calls.Keys == before.Keys + IndicesOf(part.fragments)
    ensures forall i :: CallAt(calls, i, ids(part.choice, i)) == AddFragments(CallAt(before, i, ids(part.choice, i)), part.fragments, i)
  {
    calls := before;
    for k := 0 to |part.fragments|
      invariant calls.Keys == before.Keys + IndicesOf(part.fragments[..k])
      invariant forall i :: CallAt(calls, i, ids(part.choice, i)) == AddFragments(CallAt(before, i, ids(part.choice, i)), part.fragments[..k], i)
    {
      var f := part.fragments[k];
      assert part.fragments[..k + 1][..k] == part.fragments[..k];
      assert IndicesOf(part.fragments[..k + 1]) == IndicesOf(part.fragments[..k]) + {f.index};
      calls := calls[f.index := AddFragment(CallAt(calls, f.index, ids(part.choice, f.index)), f)];
    }
    assert part.fragments[..|part.fragments|] == part.fragments;
  }

  /** The outer loop, over all that the chunks bring. */
  method FoldToolCalls(parts: seq<Part>, ids: Ids) returns (all: AllCalls)
    ensures forall choice :: CallsAt(all, choice).Keys == Named(parts, choice)
    ensures forall choice, i :: CallAt(CallsAt(all, choice), i, ids(choice, i)) == AddParts(parts, choice, i, ids)
  {
    hide AddFragments;
    all := map[];
    for k := 0 to |parts|
      invariant forall choice :: CallsAt(all, choice).Keys == Named(parts[..k], choice)
      invariant forall choice, i :: CallAt(CallsAt(all, choice), i, ids(choice, i)) == AddParts(parts[..k], choice, i, ids)
    {
      var part := parts[k];
      assert parts[..k + 1][..k] == parts[..k];
      var calls := AddPart(CallsAt(all, part.choice), part, ids);
      all := all[part.choice := calls];
    }
    assert parts[..|parts|] == parts;
  }

  /** `sorted`: an index put where it belongs. */
  function Insert(sorted: seq<int>, i: int): seq<int> {
    if sorted == [] || i < sorted[0] then [i] + sorted
    else if sorted[0] == i then sorted
    else [sorted[0]] + Insert(sorted[1..], i)
  }

  predicate Ascending(s: seq<int>) {
    forall j, k | 0 <= j < k < |s| :: s[j] < s[k]
  }

  lemma {:induction false} InsertSorts(sorted: seq<int>, i: int)
    requires Ascending(sorted)
    ensures Ascending(Insert(sorted, i)) && forall x :: x in Insert(sorted, i) <==> x in sorted || x == i
  {
    if sorted != [] && i > sorted[0] {
      var rest := sorted[1..];
      assert sorted == [sorted[0]] + rest;
      InsertSorts(rest, i);
      var after := Insert(rest, i);
      forall k | 0 <= k < |after| ensures sorted[0] < after[k] {
        assert after[k] in after;
      }
    }
  }

  /** The calls of a choice in the order of their indices. */
  method SortCalls(calls: Calls, indices: seq<int>) returns (sorted: seq<int>, r: seq<Call>)
    requires forall i :: i in indices <==> i in calls
    ensures Ascending(sorted) && (forall i :: i in sorted <==> i in calls)
    ensures |r| == |sorted| && forall k :: 0 <= k < |r| ==> sorted[k] in calls && r[k] == calls[sorted[k]]
  {
    sorted := [];
    for k := 0 to |indices|
      invariant Ascending(sorted) && forall i :: i in sorted <==> i in indices[..k]
    {
      InsertSorts(sorted, indices[k]);
      sorted := Insert(sorted, indices[k]);
    }
    assert indices[..|indices|] == indices;
    r := [];
    for k := 0 to |sorted|
      invariant |r| == k && forall j :: 0 <= j < k ==> sorted[j] in calls && r[j] == calls[sorted[j]]
    {
      assert sorted[k] in sorted;
      r := r + [calls[sorted[k]]];
    }
  }

  // ---- what a call says ---------------------------------------------------------------------------

  /** The fragments of one call of one choice, in the order they came. */
  function FragmentsOf(parts: seq<Part>, choice: int, i: int): seq<Fragment> {
    if parts == [] then []
    else
      var front, last := FragmentsOf(parts[..|parts| - 1], choice, i), parts[|parts| - 1];
      if last.choice == choice then front + Filter((f: Fragment) => f.index == i, last.fragments) else front
  }

  /** All arguments, one after the other. */
  function Arguments(fragments: seq<Fragment>): string {
    if fragments == [] then "" else Arguments(fragments[..|fragments| - 1]) + fragments[|fragments| - 1].arguments
  }

  /** The first text of a kind that was sent. */
  function FirstSent(fragments: seq<Fragment>, text: Fragment -> string): string {
    if fragments == [] then ""
    else
      var before := FirstSent(fragments[..|fragments| - 1], text);
      if before != "" then before else text(fragments[|fragments| - 1])
  }

  /** The first id sent that does not look made up; without one, the last id sent, or the
      one made up. */
  function IdOf(fragments: seq<Fragment>, madeUp: string): string {
    if fragments == [] then madeUp
    else
      var before, f := IdOf(fragments[..|fragments| - 1], madeUp), fragments[|fragments| - 1];
      if f.id != "" && "tool_call_id" <= before then f.id else before
  }

  predicate Says(c: Call, fragments: seq<Fragment>, madeUp: string) {
    && c.arguments == Arguments(fragments) && c.name == FirstSent(fragments, (f: Fragment) => f.name)
    && c.kind == FirstSent(fragments, (f: Fragment) => f.kind) && c.id == IdOf(fragments, madeUp)
  }

  lemma {:induction false} OneSays(c: Call, fragments: seq<Fragment>, f: Fragment, madeUp: string)
    requires Says(c, fragments, madeUp)
    ensures Says(AddFragment(c, f), fragments + [f], madeUp)
  {
    assert (fragments + [f])[..|fragments|] == fragments;
  }

  lemma {:induction false} PartSays(c: Call, before: seq<Fragment>, fragments: seq<Fragment>, i: int, madeUp: string)
    requires Says(c, before, madeUp)
    ensures Says(AddFragments(c, fragments, i), before + Filter((f: Fragment) => f.index == i, fragments), madeUp)
  {
    hide Says, AddFragment;
    if fragments == [] {
      assert before + [] == before;
    } else {
      var front, last := fragments[..|fragments| - 1], fragments[|fragments| - 1];
      PartSays(c, before, front, i, madeUp);
      if last.index == i {
        var own := Filter((f: Fragment) => f.index == i, front);
        OneSays(AddFragments(c, front, i), before + own, last, madeUp);
        assert before + (own + [last]) == (before + own) + [last];
      }
    }
  }

  /** For every stream, whatever comes between the fragments of a call and however its texts
      are cut: its arguments are those of its own fragments in order, its name and kind the
      first that were sent, its id the first sent that does not look made up. */
  lemma {:induction false} CallSays(parts: seq<Part>, choice: int, i: int, ids: Ids)
    ensures Says(AddParts(parts, choice, i, ids), FragmentsOf(parts, choice, i), ids(choice, i))
    ensures i in Named(parts, choice) <==> FragmentsOf(parts, choice, i) != []
  {
    hide Says, AddFragments, Filter;
    if parts == [] {
      NothingSays(ids(choice, i));
    } else {
      var front, last := parts[..|parts| - 1], parts[|parts| - 1];
      CallSays(front, choice, i, ids);
      if last.choice == choice {
        PartSays(AddParts(front, choice, i, ids), FragmentsOf(front, choice, i), last.fragments, i, ids(choice, i));
        FilterHolds((f: Fragment) => f.index == i, last.fragments);
        var own := Filter((f: Fragment) => f.index == i, last.fragments);
        if i in IndicesOf(last.fragments) {
          var f :| f in last.fragments && f.index == i;
          assert f in own;
        }
        if own != [] {
          assert own[0] in own;
        }
      }
    }
  }

  lemma {:induction false} NothingSays(madeUp: string)
    ensures Says(Begun(madeUp), [], madeUp)
  {
  }

  // ---- ids -----------------------------------------------------------------------------------------

  /** The ids that were sent, in order. */
  function SentIds(fragments: seq<Fragment>): seq<string> {
    if fragments == [] then []
    else SentIds(fragments[..|fragments| - 1]) + if fragments[|fragments| - 1].id == "" then [] else [fragments[|fragments| - 1].id]
  }

  /** A call has the first id sent that does not look made up; if all do, the last one sent;
      and the made-up one only if none was sent. */
  lemma {:induction false} IdIsSent(fragments: seq<Fragment>, madeUp: string)
    requires MadeUp(madeUp)
    ensures var sent, id := SentIds(fragments), IdOf(fragments, madeUp);
            && (sent == [] ==> id == madeUp)
            && (sent != [] && (forall x :: x in sent ==> MadeUp(x)) ==> id == sent[|sent| - 1])
            && (forall k :: 0 <= k < |sent| && !MadeUp(sent[k]) && (forall j :: 0 <= j < k ==> MadeUp(sent[j])) ==> id == sent[k])
            && (MadeUp(id) <==> forall x :: x in sent ==> MadeUp(x))
  {
    hide MadeUp;
    if fragments != [] {
      var front, f := fragments[..|fragments| - 1], fragments[|fragments| - 1];
      IdIsSent(front, madeUp);
      SameTest(IdOf(front, madeUp));
      var before, sent := SentIds(front), SentIds(fragments);
      assert forall k :: 0 <= k < |before| ==> sent[k] == before[k];
      assert forall x :: x in sent <==> x in before || (f.id != "" && x == f.id);
    }
  }

  lemma {:induction false} SameTest(id: string)
    ensures MadeUp(id) <==> "tool_call_id" <= id
  {
  }

  /** The test is made on the id, whoever made it: a sent id that begins like the runtime's
      own is replaced by the next. */
  lemma {:induction false} LookalikeIdIsReplaced(madeUp: string)
    requires MadeUp(madeUp)
    ensures IdOf([Fragment(0, "tool_call_id_a", "", "", ""), Fragment(0, "tool_call_id_b", "", "", "")], madeUp) == "tool_call_id_b"
  {
    var f, g := Fragment(0, "tool_call_id_a", "", "", ""), Fragment(0, "tool_call_id_b", "", "", "");
    var sent := SentIds([f, g]);
    assert [f, g][..1] == [f] && [f][..0] == [];
    assert SentIds([f]) == [] + [f.id];
    assert sent == [f.id, g.id];
    IdIsSent([f, g], madeUp);
  }
}
