/** When the incremental rewrite is the whole-text rewrite: always, except that a
    marker cut by a forced release is missed. */
module StreamResults {
  import opened Common
  import opened Messages
  import opened Interceptors
  import opened MessageFold
  import opened MessagePublishing
  import opened StreamViews
  import opened StreamTheorems
  import Text

  // ---- the snapshots of every obeying chain ------------------------------------------

  /** For every obeying chain and every interleaving, the snapshots kept for a
      choice of an open stream are what its published events rebuild. */
  lemma {:induction false} SnapshotsMatchFold(chain: seq<Interceptor>, depths: string -> nat, events: seq<MessageEvent>, eventId: string, i: int)
    requires ChainObeys(chain) && FromProvider(events) && Open(OfStream(events, eventId)) && Once(OfStream(events, eventId), i)
    ensures Synced(ViewOf(PublishAll(chain, depths, events), eventId, i))
  {
    hide Synced, PublishAll, RunView, ProviderEvent;
    OfStreamAll(events, eventId);
    ViewsAreIndependent(chain, depths, events, eventId, i);
    SyncedRun(chain, depths(eventId), OfStream(events, eventId), eventId, i);
  }

  /** With the default interceptor nothing is ever lost on the way: the context text
      a reader has rebuilt, followed by the text still held, is all the raw text. */
  lemma {:induction false} ContextPlusHeldIsRaw(depths: string -> nat, events: seq<MessageEvent>, eventId: string, i: int)
    requires FromProvider(events) && Open(OfStream(events, eventId)) && Once(OfStream(events, eventId), i)
    ensures var v := ViewOf(PublishAll(DEFAULT_CHAIN, depths, events), eventId, i);
            && Read(ReceivedContext(v).content) + Held(v) == RawText(OfStream(events, eventId), i)
            && Read(v.message.contextContent) + Held(v) == RawText(OfStream(events, eventId), i)
            && (v.ctx.Some? ==> v.ctx.value.heldContext == v.ctx.value.heldDisplay)
  {
    hide PublishAll, RunView, ProviderEvent, SegmentsOf, CleanSegments;
    OfStreamAll(events, eventId);
    ViewsAreIndependent(DEFAULT_CHAIN, depths, events, eventId, i);
    GoodRun(depths(eventId), OfStream(events, eventId), eventId, i, false);
  }

  // ---- counting what a rewrite removes -------------------------------------------------

  /** A marker begins before position `b` of `s` and ends after it. */
  ghost predicate CutAt(s: string, b: nat) {
    exists j :: j < b < j + |CONTINUE_MARKER| && Text.OccursAt(CONTINUE_MARKER, s, j)
  }

  function Remove(s: string): string {
    Text.Replace(s, CONTINUE_MARKER, "")
  }

  /** Two markers never overlap, so the text around one has no marker reaching into it. */
  lemma {:induction false} NoOverlap(a: string, u: string, b: string)
    requires u != "" && u <= CONTINUE_MARKER
    ensures Text.NoStraddle(a, u + b, CONTINUE_MARKER)
  {
    MarkerHead();
    forall j | 0 <= j < |a| < j + |CONTINUE_MARKER| ensures !Text.OccursAt(CONTINUE_MARKER, a + (u + b), j) {
      assert (a + (u + b))[|a|] == CONTINUE_MARKER[0];
      Text.NotHere(CONTINUE_MARKER, a + (u + b), j, |a| - j);
    }
  }

  /** The rest of a marker cannot begin one. */
  lemma {:induction false} NoRestart(v: string, b: string, k: nat)
    requires 0 < k < |CONTINUE_MARKER| && v == CONTINUE_MARKER[k..]
    ensures Text.NoStraddle(v, b, CONTINUE_MARKER) && !Text.Contains(v, CONTINUE_MARKER)
  {
    MarkerHead();
    forall j | 0 <= j < |v| < j + |CONTINUE_MARKER| ensures !Text.OccursAt(CONTINUE_MARKER, v + b, j) {
      assert (v + b)[j] == CONTINUE_MARKER[k + j];
      Text.NotHere(CONTINUE_MARKER, v + b, j, 0);
    }
  }

  /** Removing the markers of two pieces removes those of the whole, except one
      that the cut runs through. */
  lemma {:induction false} RemoveSplit(a: string, b: string)
    ensures !CutAt(a + b, |a|) ==> Remove(a + b) == Remove(a) + Remove(b)
    ensures CutAt(a + b, |a|) ==> |Remove(a + b)| + |CONTINUE_MARKER| == |Remove(a)| + |Remove(b)|
  {
    if !CutAt(a + b, |a|) {
      Text.ReplaceConcat(a, b, CONTINUE_MARKER, "");
    } else {
      var j :| j < |a| < j + |CONTINUE_MARKER| && Text.OccursAt(CONTINUE_MARKER, a + b, j);
      RemoveAround(a, b, j);
    }
  }

  lemma {:induction false} RemoveAround(a: string, b: string, j: nat)
    requires j < |a| < j + |CONTINUE_MARKER| && Text.OccursAt(CONTINUE_MARKER, a + b, j)
    ensures |Remove(a + b)| + |CONTINUE_MARKER| == |Remove(a)| + |Remove(b)|
  {
    hide Remove, Text.Contains;
    var k := |a| - j;
    var a1, u, v, b2 := a[..j], a[j..], b[..|CONTINUE_MARKER| - k], b[|CONTINUE_MARKER| - k..];
    assert (a + b)[j..j + |CONTINUE_MARKER|] == u + v;
    assert u == CONTINUE_MARKER[..k] && v == CONTINUE_MARKER[k..];
    assert a == a1 + u && b == v + b2 && a + b == a1 + (CONTINUE_MARKER + b2);
    RemoveUpTo(a1, u, "");
    assert u + "" == u;
    RemoveShort(u);
    RemoveRest(v, b2, k);
    RemoveUpTo(a1, CONTINUE_MARKER, b2);
    RemoveMarker(b2);
  }

  /** What stands before a marker, or before the beginning of one, is on its own. */
  lemma {:induction false} RemoveUpTo(a: string, u: string, b: string)
    requires u != "" && u <= CONTINUE_MARKER
    ensures Remove(a + (u + b)) == Remove(a) + Remove(u + b)
  {
    hide Text.Replace;
    NoOverlap(a, u, b);
    Text.ReplaceConcat(a, u + b, CONTINUE_MARKER, "");
  }

  /** The rest of a marker stays, and so does what stands behind it. */
  lemma {:induction false} RemoveRest(v: string, b: string, k: nat)
    requires 0 < k < |CONTINUE_MARKER| && v == CONTINUE_MARKER[k..]
    ensures Remove(v + b) == v + Remove(b)
  {
    hide Text.Replace;
    NoRestart(v, b, k);
    Text.ReplaceConcat(v, b, CONTINUE_MARKER, "");
    Text.ReplaceAbsent(v, CONTINUE_MARKER, "");
  }

  lemma {:induction false} RemoveMarker(b: string)
    ensures Remove(CONTINUE_MARKER + b) == Remove(b)
  {
    assert (CONTINUE_MARKER + b)[|CONTINUE_MARKER|..] == b;
    assert CONTINUE_MARKER <= CONTINUE_MARKER + b;
    assert "" + Remove(b) == Remove(b);
  }

  lemma {:induction false} RemoveShort(u: string)
    requires |u| < |CONTINUE_MARKER|
    ensures Remove(u) == u
  {
    assert !Text.Contains(u, CONTINUE_MARKER);
    Text.ReplaceAbsent(u, CONTINUE_MARKER, "");
  }

  function Occurrences(s: string): nat {
    Text.Count(s, NIN)
  }

  lemma {:induction false} RemoveKeepsNin(s: string)
    ensures Occurrences(Remove(s)) == Occurrences(s)
  {
    assert NIN !in CONTINUE_MARKER;
    Text.RemoveKeepsCount(s, CONTINUE_MARKER, NIN);
  }

  /** Every rewritten character makes the text longer by the same amount. */
  lemma {:induction false} ReplaceNinLength(s: string)
    ensures |Text.Replace(s, [NIN], NING)| == |s| + (|NING| - 1) * Occurrences(s)
  {
    if s != "" {
      assert s == [s[0]] + s[1..];
      ReplaceNinLength(s[1..]);
      Text.CountConcat([s[0]], s[1..], NIN);
    }
  }

  // ---- the forced boundaries of a stream --------------------------------------------------

  /** Lengths of the raw text at which a chunk with usage forced a release. */
  function Boundaries(s: seq<MessageEvent>, i: int): set<nat> {
    if s == [] then {}
    else Boundaries(s[..|s| - 1], i) + if Forces(s[|s| - 1], i) then {|RawText(s, i)|} else {}
  }

  /** The last forced boundary, 0 if there is none. */
  function ClosedLength(s: seq<MessageEvent>, i: int): (n: nat)
    ensures n <= |RawText(s, i)|
  {
    if s == [] then 0
    else if Forces(s[|s| - 1], i) then |RawText(s, i)|
    else ClosedLength(s[..|s| - 1], i)
  }

  /** No marker runs across a forced boundary. */
  ghost predicate Uncut(raw: string, boundaries: set<nat>) {
    forall b :: b in boundaries ==> !CutAt(raw, b)
  }

  /** The whole-text rewrite. */
  function Rewrite(depth: nat, raw: string): string {
    Text.Replace(Strip(depth, raw), [NIN], NING)
  }

  /** What is known of a text stripped piece by piece: the same text if no marker is
      cut, else a strictly longer one with the same rest. */
  ghost predicate Pieced(pieces: string, raw: string, uncut: bool) {
    && Occurrences(pieces) == Occurrences(raw)
    && (if uncut then pieces == Remove(raw) else |pieces| > |Remove(raw)|)
  }

  /** Adding the last piece. */
  lemma {:induction false} PiecedExtend(closed: string, a: string, b: string, boundaries: set<nat>)
    requires Pieced(closed, a, Uncut(a, boundaries))
    requires forall n :: n in boundaries ==> n <= |a|
    requires |a| in boundaries || a == ""
    ensures Pieced(closed + Remove(b), a + b, Uncut(a + b, boundaries))
  {
    RemoveSplit(a, b);
    RemoveKeepsNin(a);
    RemoveKeepsNin(b);
    Text.CountConcat(a, b, NIN);
    Text.CountConcat(closed, Remove(b), NIN);
    UncutSplit(a, b, boundaries);
  }

  lemma {:induction false} UncutSplit(a: string, b: string, boundaries: set<nat>)
    requires forall n :: n in boundaries ==> n <= |a|
    requires |a| in boundaries || a == ""
    ensures Uncut(a + b, boundaries) <==> Uncut(a, boundaries) && !CutAt(a + b, |a|)
  {
    if !Uncut(a, boundaries) {
      var n :| n in boundaries && CutAt(a, n);
      var j :| j < n < j + |CONTINUE_MARKER| && Text.OccursAt(CONTINUE_MARKER, a, j);
      assert (a + b)[j..j + |CONTINUE_MARKER|] == a[j..j + |CONTINUE_MARKER|];
      assert Text.OccursAt(CONTINUE_MARKER, a + b, j);
      assert CutAt(a + b, n);
    } else if !Uncut(a + b, boundaries) {
      var n :| n in boundaries && CutAt(a + b, n);
      var j :| j < n < j + |CONTINUE_MARKER| && Text.OccursAt(CONTINUE_MARKER, a + b, j);
      if j + |CONTINUE_MARKER| <= |a| {
        assert (a + b)[j..j + |CONTINUE_MARKER|] == a[j..j + |CONTINUE_MARKER|];
        assert Text.OccursAt(CONTINUE_MARKER, a, j);
      } else {
        assert j < |a| < j + |CONTINUE_MARKER|;
      }
    }
  }

  lemma {:induction false} BoundariesInside(s: seq<MessageEvent>, i: int)
    ensures forall n :: n in Boundaries(s, i) ==> n <= ClosedLength(s, i)
    ensures ClosedLength(s, i) in Boundaries(s, i) || ClosedLength(s, i) == 0
  {
    if s != [] {
      BoundariesInside(s[..|s| - 1], i);
      assert |RawText(s, i)| >= |RawText(s[..|s| - 1], i)|;
    }
  }

  /** How the segments of a subagent's stream relate to its raw text. */
  lemma {:induction false} SegmentsArePieces(depth: nat, s: seq<MessageEvent>, i: int)
    requires IsSubagent(depth)
    ensures var g, raw, n := SegmentsOf(depth, s, i), RawText(s, i), ClosedLength(s, i);
            g.open == raw[n..] && Pieced(g.closed, raw[..n], Uncut(raw[..n], Boundaries(s, i)))
  {
    hide Uncut, CutAt, Pieced, TextIn, Forces;
    if s == [] {
      EmptyPieced();
    } else {
      var front, last := s[..|s| - 1], s[|s| - 1];
      SegmentsArePieces(depth, front, i);
      BoundariesInside(front, i);
      var g, before, n := SegmentsOf(depth, front, i), RawText(front, i), ClosedLength(front, i);
      var text := TextIn(last, i);
      assert RawText(s, i) == before + text;
      assert before[..n] + (before[n..] + text) == RawText(s, i);
      if Forces(last, i) {
        PiecedExtend(g.closed, before[..n], before[n..] + text, Boundaries(front, i));
        assert RawText(s, i)[..|RawText(s, i)|] == RawText(s, i);
        UncutEnd(RawText(s, i), Boundaries(front, i));
        assert Boundaries(s, i) == Boundaries(front, i) + {|RawText(s, i)|};
      } else {
        assert RawText(s, i)[..n] == before[..n] && RawText(s, i)[n..] == before[n..] + text;
        assert Boundaries(s, i) == Boundaries(front, i);
      }
    }
  }

  lemma {:induction false} EmptyPieced()
    ensures Pieced("", "", Uncut("", {}))
  {
  }

  lemma {:induction false} UncutEnd(raw: string, boundaries: set<nat>)
    ensures Uncut(raw, boundaries + {|raw|}) <==> Uncut(raw, boundaries)
  {
    assert !CutAt(raw, |raw|);
  }

  /** The segment-wise rewrite is the whole rewrite exactly if no marker is cut. */
  lemma {:induction false} SegmentsRewrite(depth: nat, s: seq<MessageEvent>, i: int)
    ensures (CleanSegments(depth, SegmentsOf(depth, s, i)) == Rewrite(depth, RawText(s, i))) <==>
            (!IsSubagent(depth) || Uncut(RawText(s, i), Boundaries(s, i)))
  {
    hide Uncut, CutAt;
    var g, raw, n := SegmentsOf(depth, s, i), RawText(s, i), ClosedLength(s, i);
    if IsSubagent(depth) {
      SegmentsArePieces(depth, s, i);
      BoundariesInside(s, i);
      PiecedExtend(g.closed, raw[..n], raw[n..], Boundaries(s, i));
      assert raw[..n] + raw[n..] == raw;
      var pieces := g.closed + Remove(g.open);
      RemoveKeepsNin(raw);
      ReplaceNinLength(pieces);
      ReplaceNinLength(Remove(raw));
    } else {
      PlainSegments(depth, s, i);
    }
  }

  lemma {:induction false} PlainSegments(depth: nat, s: seq<MessageEvent>, i: int)
    requires !IsSubagent(depth)
    ensures var g := SegmentsOf(depth, s, i); g.closed + g.open == RawText(s, i)
  {
    if s != [] {
      PlainSegments(depth, s[..|s| - 1], i);
    }
  }

  /** Some marker of `raw` runs across no boundary. */
  ghost predicate WholeMarker(raw: string, boundaries: set<nat>) {
    exists j :: Text.OccursAt(CONTINUE_MARKER, raw, j)
                && forall b :: b in boundaries ==> !(j < b < j + |CONTINUE_MARKER|)
  }

  /** The tag says that the raw text holds an uncut marker. */
  ghost predicate TagFits(tagged: bool, a: string, boundaries: set<nat>) {
    tagged <==> WholeMarker(a, boundaries)
  }

  lemma {:induction false} TagExtend(tagged: bool, a: string, b: string, boundaries: set<nat>)
    requires TagFits(tagged, a, boundaries)
    requires forall n :: n in boundaries ==> n <= |a|
    requires |a| in boundaries || a == ""
    ensures TagFits(tagged || Text.Contains(b, CONTINUE_MARKER), a + b, boundaries)
  {
    MarkersMove(a, b);
    if WholeMarker(a + b, boundaries) {
      var j :| Text.OccursAt(CONTINUE_MARKER, a + b, j) && forall n :: n in boundaries ==> !(j < n < j + |CONTINUE_MARKER|);
      assert j + |CONTINUE_MARKER| <= |a| || |a| <= j;
      assert Text.OccursAt(CONTINUE_MARKER, a, j) || Text.OccursAt(CONTINUE_MARKER, b, j - |a|);
    }
    if WholeMarker(a, boundaries) {
      var j :| Text.OccursAt(CONTINUE_MARKER, a, j) && forall n :: n in boundaries ==> !(j < n < j + |CONTINUE_MARKER|);
      assert Text.OccursAt(CONTINUE_MARKER, a + b, j);
    }
    if Text.Contains(b, CONTINUE_MARKER) {
      var j :| 0 <= j <= |b| - |CONTINUE_MARKER| && Text.OccursAt(CONTINUE_MARKER, b, j);
      assert Text.OccursAt(CONTINUE_MARKER, a + b, |a| + j);
    }
  }

  lemma {:induction false} MarkersMove(a: string, b: string)
    ensures forall j :: 0 <= j <= |a| - |CONTINUE_MARKER| ==>
              (Text.OccursAt(CONTINUE_MARKER, a + b, j) <==> Text.OccursAt(CONTINUE_MARKER, a, j))
    ensures forall j :: 0 <= j <= |b| - |CONTINUE_MARKER| ==>
              (Text.OccursAt(CONTINUE_MARKER, a + b, |a| + j) <==> Text.OccursAt(CONTINUE_MARKER, b, j))
  {
    forall j | 0 <= j <= |a| - |CONTINUE_MARKER|
      ensures Text.OccursAt(CONTINUE_MARKER, a + b, j) <==> Text.OccursAt(CONTINUE_MARKER, a, j)
    {
      assert (a + b)[j..j + |CONTINUE_MARKER|] == a[j..j + |CONTINUE_MARKER|];
    }
    forall j | 0 <= j <= |b| - |CONTINUE_MARKER|
      ensures Text.OccursAt(CONTINUE_MARKER, a + b, |a| + j) <==> Text.OccursAt(CONTINUE_MARKER, b, j)
    {
      assert (a + b)[|a| + j..|a| + j + |CONTINUE_MARKER|] == b[j..j + |CONTINUE_MARKER|];
    }
  }

  /** A forced release closes the open segment `before[n..] + text`. */
  lemma {:induction false} TagForced(tagged: bool, before: string, n: nat, text: string, boundaries: set<nat>)
    requires n <= |before| && TagFits(tagged, before[..n], boundaries)
    requires (forall b :: b in boundaries ==> b <= n) && (n in boundaries || n == 0)
    ensures TagFits(tagged || Text.Contains(before[n..] + text, CONTINUE_MARKER), before + text,
                    boundaries + {|before + text|})
  {
    hide TagFits, Text.Contains;
    TagExtend(tagged, before[..n], before[n..] + text, boundaries);
    assert before[..n] + (before[n..] + text) == before + text;
    EndCutsNothing(tagged || Text.Contains(before[n..] + text, CONTINUE_MARKER), before + text, boundaries);
  }

  lemma {:induction false} EndCutsNothing(tagged: bool, raw: string, boundaries: set<nat>)
    requires TagFits(tagged, raw, boundaries)
    ensures TagFits(tagged, raw, boundaries + {|raw|})
  {
  }

  /** A marker found in a segment is a marker of the raw text; all are found if none
      is cut. */
  lemma {:induction false} SegmentTags(depth: nat, s: seq<MessageEvent>, i: int)
    requires IsSubagent(depth)
    ensures TagFits(SegmentsOf(depth, s, i).tagged, RawText(s, i)[..ClosedLength(s, i)], Boundaries(s, i))
  {
    hide Uncut, CutAt, TextIn, Forces, Text.Contains, Text.Replace, Strip;
    if s == [] {
      assert !Text.OccursAt(CONTINUE_MARKER, "", 0);
    } else {
      hide TagFits;
      var front, last := s[..|s| - 1], s[|s| - 1];
      SegmentTags(depth, front, i);
      SegmentsArePieces(depth, front, i);
      BoundariesInside(front, i);
      var before, n := RawText(front, i), ClosedLength(front, i);
      if Forces(last, i) {
        TagForced(SegmentsOf(depth, front, i).tagged, before, n, TextIn(last, i), Boundaries(front, i));
        assert RawText(s, i)[..|RawText(s, i)|] == RawText(s, i);
      } else {
        assert RawText(s, i)[..n] == before[..n];
        assert Boundaries(s, i) == Boundaries(front, i);
      }
    }
  }

  // ---- the main results ----------------------------------------------------------------------

  /** No marker of the raw text of choice `i` runs across a chunk with usage. */
  ghost predicate NoMarkerCut(s: seq<MessageEvent>, i: int) {
    Uncut(RawText(s, i), Boundaries(s, i))
  }

  /** For every way of cutting the text into chunks: the display text rebuilt from
      the published events is the raw text with every marker removed and then every
      NIN rewritten, exactly if no marker is cut by a chunk with usage. */
  lemma {:induction false} DisplayIsWholeRewrite(depths: string -> nat, events: seq<MessageEvent>, eventId: string, i: int)
    requires FromProvider(events) && ValidStream(OfStream(events, eventId)) && Once(OfStream(events, eventId), i)
    ensures var s := OfStream(events, eventId);
            var m := Stored(PublishAll(DEFAULT_CHAIN, depths, events).channel, eventId, i);
            (DisplayText(m) == Rewrite(depths(eventId), RawText(s, i))) <==> (!IsSubagent(depths(eventId)) || NoMarkerCut(s, i))
  {
    hide CleanSegments, Rewrite, Uncut, PublishAll, SegmentsOf, RawText, Boundaries, Stored, ValidStream, FromProvider;
    DisplayIsRewrite(depths, events, eventId, i);
    SegmentsRewrite(depths(eventId), OfStream(events, eventId), i);
  }

  /** Without reasoning text, a subagent's message is tagged exactly if its raw text holds
      a marker that no chunk with usage cuts; so, if no marker is cut, exactly if it holds
      a marker. */
  lemma {:induction false} TagMarksMarker(depths: string -> nat, events: seq<MessageEvent>, eventId: string, i: int)
    requires FromProvider(events) && ValidStream(OfStream(events, eventId)) && IsSubagent(depths(eventId))
    requires NoReasoning(OfStream(events, eventId), i) && Once(OfStream(events, eventId), i)
    ensures var s := OfStream(events, eventId);
            var tagged := HAS_CONTINUE_TAG in Stored(PublishAll(DEFAULT_CHAIN, depths, events).channel, eventId, i).params;
            && (tagged <==> WholeMarker(RawText(s, i), Boundaries(s, i)))
            && (NoMarkerCut(s, i) ==> (tagged <==> Text.Contains(RawText(s, i), CONTINUE_MARKER)))
  {
    hide CleanSegments, PublishAll, Stored, ValidStream, FromProvider, NoReasoning, Text.Contains, WholeMarker, Uncut;
    var s := OfStream(events, eventId);
    DisplayIsRewrite(depths, events, eventId, i);
    SegmentsWhole(depths(eventId), s, i);
    if NoMarkerCut(s, i) {
      UncutAreWhole(RawText(s, i), Boundaries(s, i));
    }
  }

  /** The segments hold a marker exactly if the raw text holds one that is not cut. */
  lemma {:induction false} SegmentsWhole(depth: nat, s: seq<MessageEvent>, i: int)
    requires IsSubagent(depth)
    ensures var g := SegmentsOf(depth, s, i); g.tagged || Tagging(depth, g.open) <==> WholeMarker(RawText(s, i), Boundaries(s, i))
  {
    hide Text.Contains, WholeMarker;
    SegmentTags(depth, s, i);
    SegmentsArePieces(depth, s, i);
    BoundariesInside(s, i);
    var raw, n := RawText(s, i), ClosedLength(s, i);
    assert raw == raw[..n] + raw[n..];
    TagExtend(SegmentsOf(depth, s, i).tagged, raw[..n], raw[n..], Boundaries(s, i));
  }

  lemma {:induction false} UncutAreWhole(raw: string, boundaries: set<nat>)
    requires Uncut(raw, boundaries)
    ensures WholeMarker(raw, boundaries) <==> Text.Contains(raw, CONTINUE_MARKER)
  {
    if Text.Contains(raw, CONTINUE_MARKER) {
      var j :| 0 <= j <= |raw| - |CONTINUE_MARKER| && Text.OccursAt(CONTINUE_MARKER, raw, j);
      assert forall b :: b in boundaries ==> !CutAt(raw, b);
    }
  }

  /** No text of choice `i` comes after a chunk that carries it together with usage. */
  predicate UsageIsLast(s: seq<MessageEvent>, i: int) {
    forall j, k | 0 <= j < k < |s| :: Forces(s[j], i) ==> TextIn(s[k], i) == ""
  }

  lemma {:induction false} UsageLastUncut(s: seq<MessageEvent>, i: int)
    requires UsageIsLast(s, i)
    ensures NoMarkerCut(s, i)
    ensures forall n :: n in Boundaries(s, i) ==> n == |RawText(s, i)|
    ensures Boundaries(s, i) != {} ==> exists j :: 0 <= j < |s| && Forces(s[j], i)
  {
    if s != [] {
      var front, last := s[..|s| - 1], s[|s| - 1];
      assert forall k :: 0 <= k < |front| ==> front[k] == s[k];
      UsageLastUncut(front, i);
      if Boundaries(front, i) != {} {
        var j :| 0 <= j < |front| && Forces(front[j], i);
        assert Forces(s[j], i) && s[|s| - 1] == last;
        assert RawText(s, i) == RawText(front, i);
      }
      assert !CutAt(RawText(s, i), |RawText(s, i)|);
    }
  }

  /** Two runs that cut the same text differently, mixed with whatever other streams,
      give the same display text and the same context text. */
  lemma {:induction false} ChunkingDoesNotShow(depths: string -> nat, depths': string -> nat, events: seq<MessageEvent>, events': seq<MessageEvent>, eventId: string, i: int)
    requires FromProvider(events) && ValidStream(OfStream(events, eventId)) && UsageIsLast(OfStream(events, eventId), i)
    requires FromProvider(events') && ValidStream(OfStream(events', eventId)) && UsageIsLast(OfStream(events', eventId), i)
    requires RawText(OfStream(events, eventId), i) == RawText(OfStream(events', eventId), i)
    requires depths(eventId) == depths'(eventId) && Once(OfStream(events, eventId), i) && Once(OfStream(events', eventId), i)
    ensures var m := Stored(PublishAll(DEFAULT_CHAIN, depths, events).channel, eventId, i);
            var m' := Stored(PublishAll(DEFAULT_CHAIN, depths', events').channel, eventId, i);
            DisplayText(m) == DisplayText(m') && ContextText(m) == ContextText(m')
  {
    hide CleanSegments, Rewrite, Uncut, PublishAll, SegmentsOf, RawText, Boundaries, Stored, ValidStream, FromProvider, UsageIsLast;
    DisplayIsRewrite(depths, events, eventId, i);
    DisplayIsRewrite(depths', events', eventId, i);
    UsageLastUncut(OfStream(events, eventId), i);
    UsageLastUncut(OfStream(events', eventId), i);
    DisplayIsWholeRewrite(depths, events, eventId, i);
    DisplayIsWholeRewrite(depths', events', eventId, i);
  }

  /** The stream that cuts a marker in two with a chunk that carries usage. */
  function CutStream(): seq<MessageEvent> {
    [MessageEvent("e", Started, None, None),
     MessageEvent("e", InProgress, Some(Chunk("c", [ChunkChoice(0, EMPTY_DELTA.(content := Some("<#CON")), None)], 0, "m", true)), None),
     MessageEvent("e", InProgress, Some(Chunk("c", [ChunkChoice(0, EMPTY_DELTA.(content := Some("TINUE#>")), None)], 0, "m", false)), None),
     MessageEvent("e", End, None, None)]
  }

  /** The condition matters: text after a usage chunk can leave a marker on display, and
      the message untagged. */
  lemma {:induction false} CutMarkerStays()
    ensures var m := Stored(PublishAll(DEFAULT_CHAIN, _ => 2, CutStream()).channel, "e", 0);
            FromProvider(CutStream()) && DisplayText(m) != Rewrite(2, CONTINUE_MARKER)
            && HAS_CONTINUE_TAG !in m.params && RawText(CutStream(), 0) == CONTINUE_MARKER
  {
    hide PublishAll, Stored, Rewrite, Boundaries, RawText, OfStream, Text.Replace, Own, NamedOnce, ProviderEvent, CutStream;
    var s := CutStream();
    CutStreamValid(s);
    CutStreamText(s);
    OfStreamAll(s, "e");
    DisplayIsWholeRewrite(_ => 2, s, "e", 0);
    TagMarksMarker(_ => 2, s, "e", 0);
    assert Text.OccursAt(CONTINUE_MARKER, CONTINUE_MARKER, 0);
    assert CutAt(CONTINUE_MARKER, 5);
  }

  lemma {:induction false} OneChoice(e: MessageEvent, i: int)
    requires |ChoicesOf(e)| <= 1
    ensures Own(ChoicesOf(e), i) == if ChoicesOf(e) != [] && ChoicesOf(e)[0].index == i then ChoicesOf(e) else []
  {
    if ChoicesOf(e) != [] {
      assert ChoicesOf(e)[..0] == [];
    }
  }

  lemma {:induction false} CutStreamEvents(s: seq<MessageEvent>, k: nat)
    requires s == CutStream() && k < 4
    ensures NamedOnce(s[k], 0) && ReasoningIn(s[k], 0) == "" && (Forces(s[k], 0) <==> k == 1)
    ensures TextIn(s[k], 0) == if k == 1 then "<#CON" else if k == 2 then "TINUE#>" else ""
  {
    hide Own;
    OneChoice(s[k], 0);
    var choices := ChoicesOf(s[k]);
    if choices != [] {
      OneText(choices[0]);
      assert choices == [choices[0]];
    }
  }

  lemma {:induction false} CutStreamValid(s: seq<MessageEvent>)
    requires s == CutStream()
    ensures ValidStream(s) && FromProvider(s) && NoReasoning(s, 0) && Once(s, 0) && forall e :: e in s ==> e.eventId == "e"
  {
    hide NamedOnce, ReasoningIn;
    forall k | 0 <= k < |s| ensures NamedOnce(s[k], 0) && ReasoningIn(s[k], 0) == "" {
      CutStreamEvents(s, k);
    }
  }

  lemma {:induction false} CutStreamText(s: seq<MessageEvent>)
    requires s == CutStream()
    ensures RawText(s, 0) == CONTINUE_MARKER && 5 in Boundaries(s, 0)
  {
    hide TextIn, Forces;
    var s3, s2, s1 := s[..3], s[..2], s[..1];
    assert s3[..2] == s2 && s2[..1] == s1 && s1[..0] == [];
    CutStreamEvents(s, 0);
    CutStreamEvents(s, 1);
    CutStreamEvents(s, 2);
    CutStreamEvents(s, 3);
    assert RawText(s1, 0) == "" + TextIn(s[0], 0) == "";
    assert RawText(s2, 0) == "" + TextIn(s[1], 0) == "<#CON";
    assert RawText(s3, 0) == "<#CON" + TextIn(s[2], 0) == CONTINUE_MARKER;
    assert RawText(s, 0) == RawText(s3, 0) + TextIn(s[3], 0);
    assert 5 in Boundaries(s2, 0);
    assert 5 in Boundaries(s3, 0);
  }
}
