/** Background compression: summaries of old snapshots merged into a history that kept
    growing. */
module Compression {
  import opened Common

  /** A history artifact, as far as compression looks at it. */
  datatype Item = Item(id: nat, isInput: bool)

  datatype Level = Normal | DiscardMidTermMemory | DropHistory

  datatype Result = Result(
    success: bool, level: Level, originHistory: seq<Item>, originMemory: string, history: seq<Item>, memory: string)

  const FAILED := Result(false, Normal, [], "", [], "")

  // ---- what is kept --------------------------------------------------------------------

  /** Where the rounds of a history begin. */
  function RoundStarts(history: seq<Item>): seq<nat> {
    if history == [] then []
    else
      var front := RoundStarts(history[..|history| - 1]);
      if history[|history| - 1].isInput then front + [|history| - 1] else front
  }

  function CountRounds(history: seq<Item>): nat {
    |RoundStarts(history)|
  }

  function RetainedStart(history: seq<Item>, keep: nat): nat {
    var starts := RoundStarts(history);
    if keep == 0 then |history|
    else if |starts| <= keep then 0
    else starts[|starts| - keep]
  }

  /** `_find_retained_history_start_index`. */
  method FindRetainedHistoryStartIndex(history: seq<Item>, keep: nat) returns (start: nat)
    ensures start == RetainedStart(history, keep)
  {
    if keep == 0 {
      return |history|;
    }
    var starts: seq<nat> := [];
    for k := 0 to |history|
      invariant starts == RoundStarts(history[..k])
    {
      assert history[..k + 1][..k] == history[..k];
      if history[k].isInput {
        starts := starts + [k];
      }
    }
    assert history[..|history|] == history;
    return if |starts| <= keep then 0 else starts[|starts| - keep];
  }

  /** How many rounds are kept: none if there are too few to compress otherwise. */
  function KeptRounds(history: seq<Item>, keep: nat): nat {
    if CountRounds(history) <= keep then 0 else keep
  }

  /** The part that goes into the summary; an empty part is an error. */
  function Compressible(history: seq<Item>, keep: nat): (r: Option<seq<Item>>)
    ensures r.Some? ==> r.value <= history
  {
    RetainedBound(history, KeptRounds(history, keep));
    var part := history[..RetainedStart(history, KeptRounds(history, keep))];
    if part == [] then None else Some(part)
  }

  lemma {:induction false} StartsAre(history: seq<Item>)
    ensures forall k :: 0 <= k < |RoundStarts(history)| ==> RoundStarts(history)[k] < |history| && history[RoundStarts(history)[k]].isInput
  {
    if history != [] {
      StartsAre(history[..|history| - 1]);
    }
  }

  lemma {:induction false} RetainedBound(history: seq<Item>, keep: nat)
    ensures RetainedStart(history, keep) <= |history|
  {
    StartsAre(history);
  }

  function Shift(starts: seq<nat>, n: nat): (r: seq<nat>)
    ensures |r| == |starts|
  {
    seq(|starts|, k requires 0 <= k < |starts| => starts[k] + n)
  }

  lemma {:induction false} StartsConcat(a: seq<Item>, b: seq<Item>)
    ensures RoundStarts(a + b) == RoundStarts(a) + Shift(RoundStarts(b), |a|)
  {
    if b == [] {
      assert a + b == a;
    } else {
      var front, last := b[..|b| - 1], b[|b| - 1];
      assert (a + b)[..|a + b| - 1] == a + front && (a + b)[|a + b| - 1] == last;
      StartsConcat(a, front);
      if last.isInput {
        assert RoundStarts(b) == RoundStarts(front) + [|b| - 1];
        assert Shift(RoundStarts(b), |a|) == Shift(RoundStarts(front), |a|) + [|a + b| - 1];
      }
    }
  }

  lemma {:induction false} StartsBefore(history: seq<Item>, j: nat)
    requires j < CountRounds(history)
    ensures RoundStarts(history)[j] <= |history|
    ensures CountRounds(history[..RoundStarts(history)[j]]) == j
  {
    StartsAre(history);
    var front := history[..|history| - 1];
    if j < CountRounds(front) {
      StartsBefore(front, j);
      assert front[..RoundStarts(front)[j]] == history[..RoundStarts(history)[j]];
    }
  }

  /** Cutting at the start of round `j` leaves the rounds from `j` on. */
  lemma {:induction false} RoundsFrom(history: seq<Item>, j: nat)
    requires j < CountRounds(history)
    ensures RoundStarts(history)[j] < |history| && history[RoundStarts(history)[j]].isInput
    ensures CountRounds(history[RoundStarts(history)[j]..]) == CountRounds(history) - j
  {
    hide RoundStarts;
    StartsAre(history);
    StartsBefore(history, j);
    var n := RoundStarts(history)[j];
    assert history[..n] + history[n..] == history;
    StartsConcat(history[..n], history[n..]);
  }

  /** The cut is at the start of a round, with exactly the configured rounds behind it, or
      at the end of the snapshot, with none. */
  lemma {:induction false} CutAtRound(history: seq<Item>, keep: nat)
    requires Compressible(history, keep).Some?
    ensures var part := Compressible(history, keep).value;
            var rest := history[|part|..];
            && part != [] && part + rest == history
            && (if 0 < keep < CountRounds(history) then rest != [] && rest[0].isInput && CountRounds(rest) == keep
                else rest == [])
  {
    RetainedBound(history, KeptRounds(history, keep));
    if 0 < keep < CountRounds(history) {
      RoundsFrom(history, CountRounds(history) - keep);
    }
  }

  /** Compression is refused only for a history with nothing before its kept rounds. */
  lemma {:induction false} RefusedWhenNothingOld(history: seq<Item>, keep: nat)
    ensures Compressible(history, keep).None? <==>
            history == [] || (0 < keep < CountRounds(history) && RetainedStart(history, keep) == 0)
  {
    RetainedBound(history, KeptRounds(history, keep));
  }

  // ---- merging -----------------------------------------------------------------------------

  function Ids(history: seq<Item>): (r: seq<nat>)
    ensures |r| == |history| && forall k :: 0 <= k < |r| ==> r[k] == history[k].id
  {
    seq(|history|, k requires 0 <= k < |history| => history[k].id)
  }

  predicate PrefixMatched(current: seq<Item>, origin: seq<Item>) {
    |origin| <= |current| && Ids(current)[..|origin|] == Ids(origin)
  }

  /** The history and the summary of a session. */
  datatype Memo = Memo(history: seq<Item>, memory: string)

  predicate Accepts(m: Memo, r: Result) {
    r.success && (r.level.Normal? ==> PrefixMatched(m.history, r.originHistory) && m.memory == r.originMemory)
  }

  function Merged(m: Memo, r: Result): Memo {
    if !Accepts(m, r) then m
    else if !r.level.Normal? then Memo(r.history, r.memory)
    else Memo(r.history + m.history[|r.originHistory|..], r.memory)
  }

  /** `_compact_history_into_mid_term_memory` on a snapshot, with the text the model
      writes for it. */
  function Compact(m: Memo, level: Level, keep: nat, summary: string): Result {
    match level
    case DropHistory => Result(m.history != [], level, m.history, m.memory, [], "")
    case DiscardMidTermMemory => Result(m.memory != "", level, m.history, m.memory, m.history, "")
    case Normal =>
      var part := Compressible(m.history, keep);
      if part.None? then FAILED
      else CutAtRound(m.history, keep); Result(true, level, m.history, m.memory, m.history[|part.value|..], summary)
  }

  class SessionMemory {
    var history: seq<Item>
    var midTermMemory: string

    constructor (history: seq<Item>, midTermMemory: string)
      ensures Current() == Memo(history, midTermMemory)
    {
      this.history := history;
      this.midTermMemory := midTermMemory;
    }

    ghost function Current(): Memo
      reads this
    {
      Memo(history, midTermMemory)
    }

    method Append(items: seq<Item>)
      modifies `history
      ensures history == old(history) + items
    {
      history := history + items;
    }

    /** `merge_compacted_result`. */
    method MergeCompactedResult(r: Result) returns (merged: bool)
      modifies this
      ensures Current() == Merged(old(Current()), r) && merged == Accepts(old(Current()), r)
    {
      if !r.success {
        return false;
      }
      if !r.level.Normal? {
        history := r.history;
        midTermMemory := r.memory;
        return true;
      }
      if !PrefixMatched(history, r.originHistory) {
        return false;
      }
      if midTermMemory != r.originMemory {
        return false;
      }
      var appended := history[|r.originHistory|..];
      midTermMemory := r.memory;
      history := r.history + appended;
      return true;
    }

    /** `_compact_history_into_mid_term_memory`: compresses this session in place. */
    method CompactHistoryIntoMidTermMemory(keep: nat, summary: string) returns (r: Result)
      modifies this
      ensures r == Compact(old(Current()), Normal, keep, summary)
      ensures Current() == Merged(old(Current()), r)
    {
      RetainedBound(history, KeptRounds(history, keep));
      ghost var before := Current();
      var start := FindRetainedHistoryStartIndex(history, KeptRounds(history, keep));
      var part := history[..start];
      if part == [] {
        return FAILED;
      }
      var origin, originMemory := history, midTermMemory;
      midTermMemory := summary;
      history := history[|part|..];
      r := Result(true, Normal, origin, originMemory, history, summary);
      assert Ids(origin)[..|origin|] == Ids(origin);
      assert Merged(before, r).history == r.history + [];
    }
  }

  // ---- runs of one session -------------------------------------------------------------------

  /** New artifacts, a compression that starts from the present state, or the merge of a
      compression that started earlier. */
  datatype Step = Append(items: seq<Item>) | Start(summary: string) | Finish(k: nat)

  /** The session, everything ever appended, the compressions started, and those merged,
      in order. */
  datatype World = World(memo: Memo, log: seq<Item>, results: seq<Result>, merges: seq<Result>)

  function Apply(w: World, keep: nat, step: Step): World {
    match step
    case Append(items) => w.(memo := w.memo.(history := w.memo.history + items), log := w.log + items)
    case Start(summary) => w.(results := w.results + [Compact(w.memo, Normal, keep, summary)])
    case Finish(k) =>
      if k < |w.results| && Accepts(w.memo, w.results[k])
      then w.(memo := Merged(w.memo, w.results[k]), merges := w.merges + [w.results[k]])
      else w
  }

  function Run(keep: nat, steps: seq<Step>): World {
    if steps == [] then World(Memo([], ""), [], [], [])
    else Apply(Run(keep, steps[..|steps| - 1]), keep, steps[|steps| - 1])
  }

  predicate DistinctItems(s: seq<Item>) {
    forall i, j | 0 <= i < j < |s| :: s[i].id != s[j].id
  }

  /** What a compression took out of the history. */
  function PartOf(r: Result): seq<Item> {
    if |r.history| <= |r.originHistory| then r.originHistory[..|r.originHistory| - |r.history|] else []
  }

  function Parts(merges: seq<Result>): seq<Item> {
    if merges == [] then [] else Parts(merges[..|merges| - 1]) + PartOf(merges[|merges| - 1])
  }

  predicate SliceAt(s: seq<Item>, log: seq<Item>, p: int) {
    0 <= p <= |log| - |s| && log[p..p + |s|] == s
  }

  ghost predicate IsSlice(s: seq<Item>, log: seq<Item>) {
    exists p :: SliceAt(s, log, p)
  }

  /** A successful compression took something, cut at a round start or at the end of its
      snapshot, and kept the configured rounds or none. */
  predicate CutOk(keep: nat, r: Result) {
    && r.level.Normal? && PartOf(r) != [] && r.originHistory == PartOf(r) + r.history
    && (r.history == [] || (r.history[0].isInput && CountRounds(r.history) == keep))
    && (r.history == [] <==> !(0 < keep < CountRounds(r.originHistory)))
  }

  /** Each merged summary was written over the one in force. */
  predicate Chained(merges: seq<Result>, memory: string) {
    if merges == [] then memory == ""
    else merges[|merges| - 1].memory == memory && Chained(merges[..|merges| - 1], merges[|merges| - 1].originMemory)
  }

  ghost predicate Sound(keep: nat, w: World) {
    && w.log == Parts(w.merges) + w.memo.history
    && (forall r :: r in w.results && r.success ==> CutOk(keep, r) && IsSlice(r.originHistory, w.log))
    && (forall r :: r in w.merges ==> r.success && CutOk(keep, r))
    && Chained(w.merges, w.memo.memory)
  }

  lemma {:induction false} SliceGrows(s: seq<Item>, log: seq<Item>, more: seq<Item>)
    requires IsSlice(s, log)
    ensures IsSlice(s, log + more)
  {
    var p :| SliceAt(s, log, p);
    assert (log + more)[p..p + |s|] == s;
    assert SliceAt(s, log + more, p);
  }

  lemma {:induction false} PartsAppend(merges: seq<Result>, r: Result)
    ensures Parts(merges + [r]) == Parts(merges) + PartOf(r)
  {
    assert (merges + [r])[..|merges|] == merges;
  }

  lemma {:induction false} CompactCut(m: Memo, keep: nat, summary: string)
    ensures Compact(m, Normal, keep, summary).success ==> CutOk(keep, Compact(m, Normal, keep, summary))
    ensures Compact(m, Normal, keep, summary).success ==> Compact(m, Normal, keep, summary).originHistory == m.history
  {
    var part := Compressible(m.history, keep);
    if part.Some? {
      CutAtRound(m.history, keep);
      var r := Compact(m, Normal, keep, summary);
      assert PartOf(r) == part.value;
    }
  }

  lemma {:induction false} SuffixIsSlice(front: seq<Item>, back: seq<Item>)
    ensures IsSlice(back, front + back)
  {
    assert (front + back)[|front|..|front| + |back|] == back;
    assert SliceAt(back, front + back, |front|);
  }

  /** Artifacts are known by their ids: a snapshot whose ids are a prefix of the history is
      a prefix of it. */
  lemma {:induction false} PrefixById(log: seq<Item>, front: seq<Item>, history: seq<Item>, origin: seq<Item>)
    requires DistinctItems(log) && log == front + history && IsSlice(origin, log) && PrefixMatched(history, origin)
    ensures history[..|origin|] == origin
  {
    var p :| SliceAt(origin, log, p);
    forall k | 0 <= k < |origin| ensures history[k] == origin[k] {
      assert Ids(history)[..|origin|][k] == Ids(origin)[k];
      assert origin[k] == log[p + k] && history[k] == log[|front| + k];
    }
  }

  /** What a merge leaves is the history without the part that was compressed. */
  lemma {:induction false} MergeTakesPart(w: World, r: Result)
    requires w.log == Parts(w.merges) + w.memo.history && DistinctItems(w.log)
    requires Accepts(w.memo, r) && r.level.Normal? && r.originHistory == PartOf(r) + r.history && IsSlice(r.originHistory, w.log)
    ensures w.log == Parts(w.merges + [r]) + Merged(w.memo, r).history
  {
    hide DistinctItems, Parts, IsSlice, Ids;
    PrefixById(w.log, Parts(w.merges), w.memo.history, r.originHistory);
    PartsAppend(w.merges, r);
    var tail := w.memo.history[|r.originHistory|..];
    assert w.memo.history == r.originHistory + tail;
    assert PartOf(r) + r.history + tail == PartOf(r) + (r.history + tail);
    assert Parts(w.merges) + (PartOf(r) + (r.history + tail)) == Parts(w.merges) + PartOf(r) + (r.history + tail);
  }

  lemma {:induction false} ChainGrows(merges: seq<Result>, memory: string, r: Result)
    requires Chained(merges, memory) && r.originMemory == memory
    ensures Chained(merges + [r], r.memory)
  {
    assert (merges + [r])[..|merges|] == merges;
  }

  lemma {:induction false} ChainAt(merges: seq<Result>, memory: string, k: nat)
    requires Chained(merges, memory) && k < |merges|
    ensures merges[k].originMemory == if k == 0 then "" else merges[k - 1].memory
    decreases |merges|
  {
    var front := merges[..|merges| - 1];
    if k < |front| {
      ChainAt(front, merges[|merges| - 1].originMemory, k);
    }
  }

  lemma {:induction false} FinishSound(keep: nat, w: World, k: nat)
    requires Sound(keep, w) && DistinctItems(w.log)
    ensures Sound(keep, Apply(w, keep, Finish(k)))
  {
    hide CountRounds, DistinctItems, Chained, IsSlice, Parts, PartOf, PrefixMatched;
    if k < |w.results| && Accepts(w.memo, w.results[k]) {
      var r := w.results[k];
      assert r in w.results;
      MergeTakesPart(w, r);
      ChainGrows(w.merges, w.memo.memory, r);
    }
  }

  lemma {:induction false} AppendSound(keep: nat, w: World, items: seq<Item>)
    requires Sound(keep, w)
    ensures Sound(keep, Apply(w, keep, Append(items)))
  {
    hide IsSlice, CutOk, Chained, Parts;
    assert w.log + items == Parts(w.merges) + (w.memo.history + items);
    forall r | r in w.results && r.success ensures IsSlice(r.originHistory, w.log + items) {
      SliceGrows(r.originHistory, w.log, items);
    }
  }

  lemma {:induction false} StartSound(keep: nat, w: World, summary: string)
    requires Sound(keep, w)
    ensures Sound(keep, Apply(w, keep, Start(summary)))
  {
    hide IsSlice, CutOk, Compact, Chained, Parts;
    CompactCut(w.memo, keep, summary);
    SuffixIsSlice(Parts(w.merges), w.memo.history);
    var r := Compact(w.memo, Normal, keep, summary);
    forall x | x in w.results + [r] && x.success ensures CutOk(keep, x) && IsSlice(x.originHistory, w.log) {
      assert x in w.results || x == r;
    }
  }

  lemma {:induction false} ApplySound(keep: nat, w: World, step: Step)
    requires Sound(keep, w) && DistinctItems(Apply(w, keep, step).log)
    ensures Sound(keep, Apply(w, keep, step))
  {
    hide Sound, Compact, Merged, Accepts, DistinctItems;
    match step {
      case Append(items) => AppendSound(keep, w, items);
      case Start(summary) => StartSound(keep, w, summary);
      case Finish(k) => FinishSound(keep, w, k);
    }
  }

  lemma {:induction false} LogGrows(w: World, keep: nat, step: Step)
    ensures w.log <= Apply(w, keep, step).log
  {
  }

  lemma {:induction false} AlwaysSound(keep: nat, steps: seq<Step>)
    requires DistinctItems(Run(keep, steps).log)
    ensures Sound(keep, Run(keep, steps))
  {
    hide Apply, CutOk;
    if steps != [] {
      var before := Run(keep, steps[..|steps| - 1]);
      LogGrows(before, keep, steps[|steps| - 1]);
      AlwaysSound(keep, steps[..|steps| - 1]);
      ApplySound(keep, before, steps[|steps| - 1]);
    }
  }

  // ---- the main results -----------------------------------------------------------------------

  /** Under every interleaving of appends and compressions nothing is lost: everything ever
      appended is in exactly one merged summary, in order, or still in the history. */
  lemma {:induction false} NothingLost(keep: nat, steps: seq<Step>)
    requires DistinctItems(Run(keep, steps).log)
    ensures var w := Run(keep, steps); w.log == Parts(w.merges) + w.memo.history
  {
    AlwaysSound(keep, steps);
  }

  /** Every merge cut at the start of a round, with exactly the configured number of rounds
      behind it in its snapshot, or at the end of its snapshot; and each summary was
      written over the one it replaced. */
  lemma {:induction false} MergesCutAtRounds(keep: nat, steps: seq<Step>, k: nat)
    requires DistinctItems(Run(keep, steps).log) && k < |Run(keep, steps).merges|
    ensures var r := Run(keep, steps).merges[k];
            && r.success && PartOf(r) != [] && r.originHistory == PartOf(r) + r.history
            && (r.history == [] || (r.history[0].isInput && CountRounds(r.history) == keep))
    ensures var m := Run(keep, steps).merges; m[k].originMemory == if k == 0 then "" else m[k - 1].memory
  {
    hide Run, CountRounds, Chained;
    AlwaysSound(keep, steps);
    var w := Run(keep, steps);
    assert w.merges[k] in w.merges;
    ChainAt(w.merges, w.memo.memory, k);
  }

  lemma {:induction false} PartsHold(merges: seq<Result>, k: nat)
    requires k < |merges|
    ensures |Parts(merges[..k])| + |PartOf(merges[k])| <= |Parts(merges)|
    ensures Parts(merges)[|Parts(merges[..k])|..|Parts(merges[..k])| + |PartOf(merges[k])|] == PartOf(merges[k])
    decreases |merges|
  {
    var front := merges[..|merges| - 1];
    if k < |front| {
      PartsHold(front, k);
      assert front[..k] == merges[..k];
    } else {
      assert merges[..k] == front;
    }
  }

  lemma {:induction false} PartsPrefix(merges: seq<Result>, k: nat)
    requires k <= |merges|
    ensures |Parts(merges[..k])| <= |Parts(merges)|
  {
    if k < |merges| {
      assert merges[..|merges| - 1][..k] == merges[..k];
      PartsPrefix(merges[..|merges| - 1], k);
    } else {
      assert merges[..k] == merges;
    }
  }

  /** Of two compressions that began at the same artifact at most one is merged: two merges
      never take the same first artifact. */
  lemma {:induction false} OneMergePerStart(keep: nat, steps: seq<Step>, i: nat, j: nat)
    requires DistinctItems(Run(keep, steps).log) && i < j < |Run(keep, steps).merges|
    ensures var m := Run(keep, steps).merges;
            m[i].originHistory != [] && m[j].originHistory != [] && m[i].originHistory[0].id != m[j].originHistory[0].id
  {
    hide Run, CountRounds, DistinctItems, Parts, Chained, IsSlice;
    AlwaysSound(keep, steps);
    var w := Run(keep, steps);
    var m := w.merges;
    assert m[i] in m && m[j] in m;
    PartsHold(m, i);
    PartsHold(m, j);
    PartsPrefix(m[..j], i + 1);
    assert m[..j][..i + 1] == m[..i + 1] && m[..i + 1] == m[..i] + [m[i]];
    PartsAppend(m[..i], m[i]);
    FirstsDiffer(w.log, Parts(m), w.memo.history, PartOf(m[i]), |Parts(m[..i])|, PartOf(m[j]), |Parts(m[..j])|);
    assert m[i].originHistory[0] == PartOf(m[i])[0] && m[j].originHistory[0] == PartOf(m[j])[0];
  }

  lemma {:induction false} FirstsDiffer(log: seq<Item>, taken: seq<Item>, rest: seq<Item>, p: seq<Item>, a: nat, q: seq<Item>, b: nat)
    requires DistinctItems(log) && log == taken + rest && p != [] && q != [] && a < b
    requires a + |p| <= |taken| && b + |q| <= |taken| && taken[a..a + |p|] == p && taken[b..b + |q|] == q
    ensures p[0].id != q[0].id
  {
    assert log[a] == p[0] && log[b] == q[0];
  }

  // ---- which compressions take effect -------------------------------------------------------------

  /** The number of merges, and the history since the last of them, of two points in time. */
  lemma {:induction false} SinceStart(keep: nat, early: seq<Step>, late: seq<Step>)
    ensures var w, v := Run(keep, early), Run(keep, early + late);
            && |w.merges| <= |v.merges| && |w.results| <= |v.results| && w.results <= v.results && w.merges <= v.merges && w.log <= v.log
            && (|v.merges| == |w.merges| ==> v.memo.memory == w.memo.memory && w.memo.history <= v.memo.history
                                             && v.memo.history[|w.memo.history|..] == v.log[|w.log|..])
    decreases |late|
  {
    hide Accepts, Merged, Compact;
    if late == [] {
      assert early + late == early;
    } else {
      var front, step := late[..|late| - 1], late[|late| - 1];
      SinceStart(keep, early, front);
      var all := early + late;
      assert all[..|all| - 1] == early + front && all[|all| - 1] == step;
      var w, u := Run(keep, early), Run(keep, early + front);
      if step.Append? {
        assert (u.log + step.items)[|w.log|..] == u.log[|w.log|..] + step.items;
        if |u.merges| == |w.merges| {
          assert (u.memo.history + step.items)[|w.memo.history|..] == u.memo.history[|w.memo.history|..] + step.items;
        }
      }
    }
  }

  /** With a merge in between, the first artifact of the snapshot is no longer in the history. */
  lemma {:induction false} OvertakenIsRefused(keep: nat, early: seq<Step>, late: seq<Step>, r: Result)
    requires DistinctItems(Run(keep, early + late).log) && |Run(keep, early).merges| < |Run(keep, early + late).merges|
    requires r.originHistory == Run(keep, early).memo.history && r.originHistory != []
    ensures !PrefixMatched(Run(keep, early + late).memo.history, r.originHistory)
  {
    hide Run, CountRounds, Chained, IsSlice, DistinctItems, Parts, PartOf;
    SinceStart(keep, early, late);
    var w, v := Run(keep, early), Run(keep, early + late);
    DistinctBefore(w.log, v.log);
    AlwaysSound(keep, early);
    AlwaysSound(keep, early + late);
    var n := |w.merges|;
    assert v.merges[..n] == w.merges && v.merges[n] in v.merges;
    PartsHold(v.merges, n);
    if PrefixMatched(v.memo.history, r.originHistory) {
      var p := |Parts(w.merges)|;
      assert Ids(v.memo.history)[..|r.originHistory|][0] == Ids(r.originHistory)[0];
      assert w.log[p] == r.originHistory[0] && v.log[p] == w.log[p];
      LaterDiffers(v.log, Parts(v.merges), v.memo.history, p);
    }
  }

  lemma {:induction false} DistinctBefore(a: seq<Item>, b: seq<Item>)
    requires a <= b && DistinctItems(b)
    ensures DistinctItems(a)
  {
  }

  lemma {:induction false} LaterDiffers(log: seq<Item>, taken: seq<Item>, rest: seq<Item>, p: nat)
    requires DistinctItems(log) && log == taken + rest && p < |taken| && rest != []
    ensures rest[0].id != log[p].id
  {
    assert rest[0] == log[|taken|];
  }

  /** A compression takes effect exactly if there was something to compress and no other was
      merged since it began; then its summary is the memory, and of the history the kept
      rounds stay, with all that was appended since. */
  lemma {:induction false} MergedIffFirst(keep: nat, early: seq<Step>, summary: string, late: seq<Step>)
    requires DistinctItems(Run(keep, early + [Start(summary)] + late).log)
    ensures var w, v := Run(keep, early), Run(keep, early + [Start(summary)] + late);
            var after := Run(keep, early + [Start(summary)] + late + [Finish(|w.results|)]);
            var n := RetainedStart(w.memo.history, if CountRounds(w.memo.history) <= keep then 0 else keep);
            && (after.merges != v.merges <==> n > 0 && |v.merges| == |w.merges|)
            && (after.merges == v.merges ==> after.memo == v.memo)
            && (after.merges != v.merges ==>
                  n <= |w.memo.history| && |w.log| <= |v.log|
                  && after.memo == Memo(w.memo.history[n..] + v.log[|w.log|..], summary))
  {
    hide Run, RetainedStart, CountRounds, PrefixMatched, DistinctItems;
    var w, started, steps := Run(keep, early), early + [Start(summary)], early + [Start(summary)] + late;
    var v, r := Run(keep, steps), Compact(w.memo, Normal, keep, summary);
    StartRun(keep, early, summary);
    SinceStart(keep, started, late);
    assert v.results[|w.results|] == r;
    FinishRun(keep, steps, |w.results|);
    RetainedBound(w.memo.history, KeptRounds(w.memo.history, keep));
    CompactIs(w.memo, keep, summary);
    if r.success {
      if |v.merges| == |w.merges| {
        StillMatches(w.memo.history, v.memo.history);
        MergeGives(w.memo, v, r, |w.log|);
      } else {
        OvertakenIsRefused(keep, started, late, r);
      }
    }
  }

  lemma {:induction false} StartRun(keep: nat, early: seq<Step>, summary: string)
    ensures var w := Run(keep, early);
            Run(keep, early + [Start(summary)]) == World(w.memo, w.log, w.results + [Compact(w.memo, Normal, keep, summary)], w.merges)
  {
    hide Compact;
    assert (early + [Start(summary)])[..|early|] == early;
  }

  lemma {:induction false} FinishRun(keep: nat, steps: seq<Step>, k: nat)
    ensures Run(keep, steps + [Finish(k)]) == Apply(Run(keep, steps), keep, Finish(k))
  {
    hide Apply;
    assert (steps + [Finish(k)])[..|steps|] == steps;
  }

  lemma {:induction false} CompactIs(m: Memo, keep: nat, summary: string)
    ensures var r, n := Compact(m, Normal, keep, summary), RetainedStart(m.history, KeptRounds(m.history, keep));
            && n <= |m.history| && (r.success <==> n > 0)
            && (r.success ==> r == Result(true, Normal, m.history, m.memory, m.history[n..], summary))
  {
    RetainedBound(m.history, KeptRounds(m.history, keep));
  }

  lemma {:induction false} StillMatches(origin: seq<Item>, history: seq<Item>)
    requires origin <= history
    ensures PrefixMatched(history, origin)
  {
    assert Ids(history)[..|origin|] == Ids(origin);
  }

  lemma {:induction false} MergeGives(m: Memo, v: World, r: Result, logged: nat)
    requires m.history <= v.memo.history && v.memo.memory == m.memory && logged <= |v.log|
    requires v.memo.history[|m.history|..] == v.log[logged..] && PrefixMatched(v.memo.history, m.history)
    requires r.success && r.level.Normal? && r.originHistory == m.history && r.originMemory == m.memory
    ensures Accepts(v.memo, r) && Merged(v.memo, r) == Memo(r.history + v.log[logged..], r.memory)
  {
  }

  /** The forced levels: dropping the history leaves nothing, discarding the memory keeps the
      history of the snapshot, each whatever came in between, and each only if there was
      something to drop. */
  lemma {:induction false} ForcedLevels(snapshot: Memo, now: Memo, keep: nat, summary: string)
    ensures Merged(now, Compact(snapshot, DropHistory, keep, summary)) == if snapshot.history == [] then now else Memo([], "")
    ensures Merged(now, Compact(snapshot, DiscardMidTermMemory, keep, summary)) == if snapshot.memory == "" then now else Memo(snapshot.history, "")
  {
  }
}
