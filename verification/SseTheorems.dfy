/** What is printed is what arrives: the frames of a transcript, for every chunking. */
module SseTheorems {
  import opened Common
  import opened SseStream

  // ---- text without line ends ---------------------------------------------------------------

  predicate OneLine(s: string) {
    forall c | c in s :: c != '\r' && c != '\n'
  }

  /** What `format_sse` is given: an id, an event name and data of one line each. */
  predicate SingleLine(f: Frame) {
    (f.id.Some? ==> OneLine(f.id.value)) && OneLine(f.event) && OneLine(f.data)
  }

  lemma {:induction false} LineThenFrameEnd(line: string, rest: string)
    requires OneLine(line)
    ensures NextFrameEnd(line + rest) == |line| + NextFrameEnd(rest)
  {
    if line == "" {
      assert line + rest == rest;
    } else {
      assert line[0] in line && forall c :: c in line[1..] ==> c in line;
      assert (line + rest)[1..] == line[1..] + rest;
      LineThenFrameEnd(line[1..], rest);
    }
  }

  /** A single line end ends no frame. */
  lemma {:induction false} BreakThenFrameEnd(rest: string)
    requires rest != "" && rest[0] != '\n' && rest[0] != '\r'
    ensures NextFrameEnd("\n" + rest) == 1 + NextFrameEnd(rest)
  {
    assert ("\n" + rest)[1..] == rest;
  }

  lemma {:induction false} LineThenLineEnd(line: string, rest: string)
    requires OneLine(line)
    ensures NextLineEnd(line + rest) == |line| + NextLineEnd(rest)
  {
    if line == "" {
      assert line + rest == rest;
    } else {
      assert line[0] in line && forall c :: c in line[1..] ==> c in line;
      assert (line + rest)[1..] == line[1..] + rest;
      LineThenLineEnd(line[1..], rest);
    }
  }

  lemma {:induction false} LinesAt(text: string, n: nat)
    requires NextLineEnd(text) == n
    ensures n == |text| ==> SplitLines(text) == [text]
    ensures n < |text| && text[n] == '\n' ==> SplitLines(text) == [text[..n]] + SplitLines(text[n + 1..])
  {
    hide NextLineEnd;
    if n < |text| && text[n] == '\n' {
      assert LineEnd(text[n..]) == 1;
    }
  }

  /** Splitting off a first line. */
  lemma {:induction false} FirstLine(line: string, rest: string)
    requires OneLine(line)
    ensures SplitLines(line + "\n" + rest) == [line] + SplitLines(rest)
    ensures SplitLines(line) == [line]
  {
    hide SplitLines;
    var text := line + "\n" + rest;
    assert text == line + ("\n" + rest);
    LineThenLineEnd(line, "\n" + rest);
    LineThenLineEnd(line, "");
    assert line + "" == line;
    LinesAt(line, |line|);
    LinesAt(text, |line|);
    assert text[..|line|] == line && text[|line| + 1..] == rest;
  }

  // ---- one frame ------------------------------------------------------------------------------

  function IdLine(f: Frame): string
    requires f.id.Some?
  {
    "id: " + f.id.value
  }

  lemma {:induction false} OneLines(f: Frame)
    requires SingleLine(f)
    ensures SendsId(f.id) ==> OneLine(IdLine(f))
    ensures OneLine("event: " + f.event) && OneLine("data: " + f.data)
  {
    assert OneLine("id: ") && OneLine("event: ") && OneLine("data: ");
  }

  /** Two lines and a blank one. */
  lemma {:induction false} TwoLinesEnd(event: string, data: string, rest: string)
    requires OneLine(event) && OneLine(data) && data != ""
    ensures NextFrameEnd(event + ("\n" + (data + ("\n\n" + rest)))) == |event| + 1 + |data|
  {
    hide NextFrameEnd;
    var end := "\n\n" + rest;
    EndAtOnce(rest);
    LineThenFrameEnd(data, end);
    assert (data + end)[0] == data[0] && data[0] in data;
    BreakThenFrameEnd(data + end);
    LineThenFrameEnd(event, "\n" + (data + end));
  }

  lemma {:induction false} ThreeLinesEnd(id: string, event: string, data: string, rest: string)
    requires OneLine(id) && OneLine(event) && OneLine(data) && event != "" && data != ""
    ensures NextFrameEnd(id + ("\n" + (event + ("\n" + (data + ("\n\n" + rest)))))) == |id| + 1 + |event| + 1 + |data|
  {
    hide NextFrameEnd;
    TwoLinesEnd(event, data, rest);
    var two := event + ("\n" + (data + ("\n\n" + rest)));
    assert two[0] == event[0] && event[0] in event;
    BreakThenFrameEnd(two);
    LineThenFrameEnd(id, "\n" + two);
  }

  lemma {:induction false} AfterIs(text: string, n: nat, rest: string)
    requires NextFrameEnd(text) == n < |text| && text[n..] == "\n\n" + rest
    ensures AfterFrame(text) == rest
  {
    hide NextFrameEnd;
    EndAtOnce(rest);
    assert text[n + 2..] == text[n..][2..] == rest;
  }

  lemma {:induction false} BodyIs(f: Frame)
    ensures var two := ("event: " + f.event) + ("\n" + ("data: " + f.data));
            Body(f) == if SendsId(f.id) then IdLine(f) + ("\n" + two) else two
  {
    var head := if SendsId(f.id) then "id: " + f.id.value + "\n" else "";
  }

  lemma {:induction false} TwoLineBody(event: string, data: string, rest: string)
    requires OneLine(event) && OneLine(data) && data != ""
    ensures var body := event + ("\n" + data);
            var text := body + "\n\n" + rest;
            NextFrameEnd(text) == |body| < |text| && AfterFrame(text) == rest
  {
    hide NextFrameEnd, AfterFrame, OneLine;
    var body := event + ("\n" + data);
    var text := body + "\n\n" + rest;
    TwoLinesEnd(event, data, rest);
    assert text == event + ("\n" + (data + ("\n\n" + rest)));
    AfterIs(text, |body|, rest);
  }

  lemma {:induction false} ThreeLineBody(id: string, event: string, data: string, rest: string)
    requires OneLine(id) && OneLine(event) && OneLine(data) && event != "" && data != ""
    ensures var body := id + ("\n" + (event + ("\n" + data)));
            var text := body + "\n\n" + rest;
            NextFrameEnd(text) == |body| < |text| && AfterFrame(text) == rest
  {
    hide NextFrameEnd, AfterFrame, OneLine;
    var body := id + ("\n" + (event + ("\n" + data)));
    var text := body + "\n\n" + rest;
    ThreeLinesEnd(id, event, data, rest);
    assert text == id + ("\n" + (event + ("\n" + (data + ("\n\n" + rest)))));
    AfterIs(text, |body|, rest);
  }

  /** The first frame end behind a printed frame is its own. */
  lemma {:induction false} BodyEnds(f: Frame, rest: string)
    requires SingleLine(f)
    ensures var text := Body(f) + "\n\n" + rest;
            NextFrameEnd(text) == |Body(f)| < |text| && AfterFrame(text) == rest
  {
    hide NextFrameEnd, AfterFrame, OneLine, Body;
    OneLines(f);
    BodyIs(f);
    if SendsId(f.id) {
      ThreeLineBody(IdLine(f), "event: " + f.event, "data: " + f.data, rest);
    } else {
      TwoLineBody("event: " + f.event, "data: " + f.data, rest);
    }
  }

  lemma {:induction false} EndAtOnce(rest: string)
    ensures FrameEnd("\n\n" + rest) == 2 && NextFrameEnd("\n\n" + rest) == 0
  {
    assert ("\n\n" + rest)[1..] == "\n" + rest;
  }

  lemma {:induction false} BodyLines(f: Frame)
    requires SingleLine(f)
    ensures SplitLines(Body(f)) == (if SendsId(f.id) then [IdLine(f)] else []) + ["event: " + f.event, "data: " + f.data]
  {
    hide SplitLines, OneLine;
    OneLines(f);
    var two := "event: " + f.event + "\n" + ("data: " + f.data);
    FirstLine("event: " + f.event, "data: " + f.data);
    FirstLine("data: " + f.data, "");
    if SendsId(f.id) {
      FirstLine(IdLine(f), two);
      assert Body(f) == IdLine(f) + "\n" + two;
    } else {
      assert Body(f) == two;
    }
  }

  /** What the client makes of a printed frame. */
  function Received(f: Frame): Frame {
    Frame(if SendsId(f.id) then Some(Trim(f.id.value)) else None, Trim(f.event), TrimStart(f.data))
  }

  lemma {:induction false} ReadIdLine(fields: Fields, id: string)
    ensures ReadLine(fields, "id: " + id) == fields.(id := Some(Trim(id)))
  {
    assert ("id: " + id)[..3] == "id:";
    assert ("id: " + id)[3..] == " " + id;
    assert (" " + id)[1..] == id;
  }

  lemma {:induction false} ReadEventLine(fields: Fields, event: string)
    ensures ReadLine(fields, "event: " + event) == fields.(event := Trim(event))
  {
    var line := "event: " + event;
    assert line[..6] == "event:" && line[0] == 'e';
    assert line[6..] == " " + event;
    assert (" " + event)[1..] == event;
  }

  lemma {:induction false} ReadDataLine(fields: Fields, data: string)
    ensures ReadLine(fields, "data: " + data) == fields.(data := fields.data + [TrimStart(data)])
  {
    var line := "data: " + data;
    assert line[..5] == "data:" && line[0] == 'd';
    assert line[5..] == " " + data;
    assert (" " + data)[1..] == data;
  }

  lemma {:induction false} ReadAppend(fields: Fields, lines: seq<string>, line: string)
    ensures ReadLines(fields, lines + [line]) == ReadLine(ReadLines(fields, lines), line)
  {
    assert (lines + [line])[..|lines|] == lines;
  }

  lemma {:induction false} BodyParses(f: Frame)
    requires SingleLine(f)
    ensures Parsed(Body(f)) == Some(Received(f))
  {
    hide ReadLine, SplitLines, Trim, TrimStart, OneLine;
    BodyLines(f);
    var first: seq<string> := if SendsId(f.id) then [IdLine(f)] else [];
    var event, data := "event: " + f.event, "data: " + f.data;
    if SendsId(f.id) {
      ReadAppend(NO_FIELDS, [], IdLine(f));
      assert [] + [IdLine(f)] == first;
      ReadIdLine(NO_FIELDS, f.id.value);
    }
    ReadAppend(NO_FIELDS, first, event);
    ReadEventLine(ReadLines(NO_FIELDS, first), f.event);
    ReadAppend(NO_FIELDS, first + [event], data);
    ReadDataLine(ReadLines(NO_FIELDS, first + [event]), f.data);
    assert first + [event, data] == first + [event] + [data];
    assert [] + [TrimStart(f.data)] == [TrimStart(f.data)];
  }

  // ---- a whole transcript -------------------------------------------------------------------------

  function Bodies(frames: seq<Frame>): (r: seq<string>)
    ensures |r| == |frames|
  {
    seq(|frames|, k requires 0 <= k < |frames| => Body(frames[k]))
  }

  function AllReceived(frames: seq<Frame>): (r: seq<Frame>)
    ensures |r| == |frames|
  {
    seq(|frames|, k requires 0 <= k < |frames| => Received(frames[k]))
  }

  lemma {:induction false} SplitAt(text: string, body: string, rest: string)
    requires NextFrameEnd(text) == |body| < |text| && AfterFrame(text) == rest && text[..|body|] == body
    ensures SplitFrames(text) == [body] + SplitFrames(rest)
  {
    hide NextFrameEnd, AfterFrame;
  }

  lemma {:induction false} TranscriptSplits(frames: seq<Frame>)
    requires forall f :: f in frames ==> SingleLine(f)
    ensures SplitFrames(Transcript(frames)) == Bodies(frames) + [""]
  {
    hide NextFrameEnd, Body, SingleLine, AfterFrame, SplitFrames;
    if frames == [] {
      NothingSplit();
      assert Bodies(frames) + [""] == [""];
    } else {
      var rest := Transcript(frames[1..]);
      assert frames[0] in frames && forall f :: f in frames[1..] ==> f in frames;
      TranscriptSplits(frames[1..]);
      BodyEnds(frames[0], rest);
      var text := Body(frames[0]) + "\n\n" + rest;
      assert text[..|Body(frames[0])|] == Body(frames[0]);
      SplitAt(text, Body(frames[0]), rest);
      assert [Body(frames[0])] + (Bodies(frames[1..]) + [""]) == Bodies(frames) + [""];
    }
  }

  lemma {:induction false} BodiesParse(frames: seq<Frame>)
    requires forall f :: f in frames ==> SingleLine(f)
    ensures ParseAll(Bodies(frames)) == AllReceived(frames)
  {
    hide Parsed, Body, SingleLine, Received;
    if frames != [] {
      var front, last := frames[..|frames| - 1], frames[|frames| - 1];
      assert last in frames && forall f :: f in front ==> f in frames;
      BodiesParse(front);
      BodyParses(last);
      assert Bodies(frames)[..|frames| - 1] == Bodies(front);
      assert AllReceived(frames) == AllReceived(front) + [Received(last)];
    }
  }

  /** For every list of single-line frames the whole transcript delivers each of them,
      trimmed, in order; with `StreamPost` this holds for every chunking. */
  lemma {:induction false} TranscriptArrives(frames: seq<Frame>)
    requires forall f :: f in frames ==> SingleLine(f)
    ensures DeliveredOf(Transcript(frames)) == AllReceived(frames)
  {
    hide ParseAll, SplitFrames, Bodies, AllReceived, SingleLine, Transcript;
    TranscriptSplits(frames);
    BodiesParse(frames);
    var parts := Bodies(frames) + [""];
    assert parts[..|parts| - 1] == Bodies(frames);
    assert parts[|parts| - 1] == "" && Trim("") == "";
    assert AllReceived(frames) + [] == AllReceived(frames);
  }

  // ---- when nothing is changed on the way -------------------------------------------------------------

  lemma {:induction false} TrimStartKeeps(s: string)
    ensures |TrimStart(s)| <= |s|
    ensures TrimStart(s) == s <==> (s == "" || !IsBlank(s[0]))
    ensures TrimStart(s) != s ==> |TrimStart(s)| < |s|
    ensures TrimStart(s) == "" || !IsBlank(TrimStart(s)[0])
  {
    if s != "" && IsBlank(s[0]) {
      TrimStartKeeps(s[1..]);
    }
  }

  lemma {:induction false} TrimEndKeeps(s: string)
    ensures |TrimEnd(s)| <= |s|
    ensures TrimEnd(s) == s <==> (s == "" || !IsBlank(s[|s| - 1]))
  {
    if s != "" && IsBlank(s[|s| - 1]) {
      TrimEndKeeps(s[..|s| - 1]);
    }
  }

  predicate Tight(s: string) {
    s == "" || (!IsBlank(s[0]) && !IsBlank(s[|s| - 1]))
  }

  lemma {:induction false} TrimKeeps(s: string)
    ensures Trim(s) == s <==> Tight(s)
  {
    TrimStartKeeps(s);
    TrimEndKeeps(TrimStart(s));
  }

  /** A frame arrives as it was sent exactly if its id and event have no blanks at their
      ends and its data none at its start; an id that is not sent arrives as none. */
  lemma {:induction false} ArrivesUnchanged(f: Frame)
    ensures Received(f) == f.(id := if SendsId(f.id) then f.id else None) <==>
            (SendsId(f.id) ==> Tight(f.id.value)) && Tight(f.event) && (f.data == "" || !IsBlank(f.data[0]))
  {
    if SendsId(f.id) {
      TrimKeeps(f.id.value);
    }
    TrimKeeps(f.event);
    TrimStartKeeps(f.data);
  }

  /** The client reports a lost connection exactly if no frame ended the stream. */
  lemma {:induction false} LostIffUnended(frames: seq<Frame>)
    requires forall f :: f in frames ==> SingleLine(f) && Tight(f.event)
    ensures (forall x :: x in DeliveredOf(Transcript(frames)) ==> !IsTerminal(x)) <==> (forall f :: f in frames ==> !IsTerminal(f))
  {
    hide DeliveredOf, SingleLine, Tight;
    TranscriptArrives(frames);
    var r := AllReceived(frames);
    forall k | 0 <= k < |frames| ensures IsTerminal(r[k]) == IsTerminal(frames[k]) && r[k] in r && frames[k] in frames {
      assert frames[k] in frames;
      TrimKeeps(frames[k].event);
    }
  }
}
