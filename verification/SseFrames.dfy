/** Event streams of any origin: frames of many lines, with either line end, for every
    chunking. */
module SseFrames {
  import opened Common
  import opened SseStream
  import opened SseTheorems

  // ---- frames as they may be written ------------------------------------------------------

  /** A line and how it ends. */
  datatype Line = Line(text: string, crlf: bool)

  function End(crlf: bool): string {
    if crlf then "\r\n" else "\n"
  }

  predicate LinesOk(lines: seq<Line>) {
    lines != [] && forall l | l in lines :: OneLine(l.text) && l.text != ""
  }

  /** A frame: its lines, how the last of them ends, and how the blank line behind them
      does. */
  datatype Written = Written(lines: seq<Line>, last: bool, blank: bool)

  /** The lines with their ends, but for the last end. */
  function BodyOf(lines: seq<Line>): string {
    if lines == [] then ""
    else if |lines| == 1 then lines[0].text
    else lines[0].text + (End(lines[0].crlf) + BodyOf(lines[1..]))
  }

  function FrameText(w: Written): string {
    BodyOf(w.lines) + (End(w.last) + End(w.blank))
  }

  function Stream(frames: seq<Written>): string {
    if frames == [] then "" else FrameText(frames[0]) + Stream(frames[1..])
  }

  // ---- splitting ------------------------------------------------------------------------------

  lemma {:induction false} EndIsEnd(crlf: bool, rest: string)
    ensures LineEnd(End(crlf) + rest) == |End(crlf)| > 0
  {
  }

  lemma {:induction false} TwoEnds(c: bool, d: bool, rest: string)
    ensures var text := End(c) + End(d) + rest;
            FrameEnd(text) == |End(c)| + |End(d)| && NextFrameEnd(text) == 0 && AfterFrame(text) == rest
  {
    var text := End(c) + End(d) + rest;
    assert text == End(c) + (End(d) + rest);
    EndIsEnd(c, End(d) + rest);
    EndIsEnd(d, rest);
    assert text[|End(c)|..] == End(d) + rest;
    assert text[0..] == text && text[|End(c)| + |End(d)|..] == rest;
  }

  /** One line end alone ends no frame. */
  lemma {:induction false} OneEnd(crlf: bool, rest: string)
    requires rest != "" && rest[0] != '\n' && rest[0] != '\r'
    ensures NextFrameEnd(End(crlf) + rest) == |End(crlf)| + NextFrameEnd(rest)
  {
    hide FrameEnd;
    BreakThenFrameEnd(rest);
    if crlf {
      var text := "\r\n" + rest;
      CrlfIsNone(rest);
      assert text[1..] == "\n" + rest;
    }
  }

  lemma {:induction false} CrlfIsNone(rest: string)
    requires rest != "" && rest[0] != '\n' && rest[0] != '\r'
    ensures FrameEnd("\r\n" + rest) == 0
  {
    assert ("\r\n" + rest)[2..] == rest;
  }

  lemma {:induction false} BodyStarts(lines: seq<Line>)
    requires LinesOk(lines)
    ensures BodyOf(lines) != "" && BodyOf(lines)[0] != '\r' && BodyOf(lines)[0] != '\n'
  {
    var text := lines[0].text;
    assert lines[0] in lines && text[0] in text;
  }

  /** In a body there is no frame end. */
  lemma {:induction false} BodyThen(lines: seq<Line>, after: string)
    requires LinesOk(lines) && NextFrameEnd(after) == 0
    ensures NextFrameEnd(BodyOf(lines) + after) == |BodyOf(lines)|
    decreases |lines|
  {
    hide NextFrameEnd, OneLine, End;
    var first := lines[0];
    assert first in lines;
    if |lines| == 1 {
      LineThenFrameEnd(first.text, after);
    } else {
      var more := lines[1..];
      assert forall l :: l in more ==> l in lines;
      BodyThen(more, after);
      BodyStarts(more);
      var tail := BodyOf(more) + after;
      assert tail[0] == BodyOf(more)[0];
      OneEnd(first.crlf, tail);
      LineThenFrameEnd(first.text, End(first.crlf) + tail);
      Regroup(first.text, End(first.crlf), BodyOf(more), after);
    }
  }

  lemma {:induction false} Regroup(a: string, b: string, c: string, d: string)
    ensures (a + (b + c)) + d == a + (b + (c + d))
  {
  }

  lemma {:induction false} FrameSplits(w: Written, rest: string)
    requires LinesOk(w.lines)
    ensures SplitFrames(FrameText(w) + rest) == [BodyOf(w.lines)] + SplitFrames(rest)
  {
    hide NextFrameEnd, SplitFrames, End, LinesOk, BodyOf, AfterFrame, FrameEnd;
    var body := BodyOf(w.lines);
    var ends := End(w.last) + End(w.blank) + rest;
    var text := FrameText(w) + rest;
    assert text == body + ends;
    TwoEnds(w.last, w.blank, rest);
    EndIsEnd(w.last, "");
    BodyThen(w.lines, ends);
    AfterBody(text, body, ends);
    SplitAt(text, body, rest);
  }

  lemma {:induction false} AfterBody(text: string, body: string, ends: string)
    requires text == body + ends && NextFrameEnd(text) == |body| && FrameEnd(ends) > 0 && NextFrameEnd(ends) == 0
    ensures |body| < |text| && text[..|body|] == body && AfterFrame(text) == AfterFrame(ends)
  {
    hide NextFrameEnd, FrameEnd;
    assert text[|body|..] == ends && ends[0..] == ends;
  }

  /** A body is read line by line. */
  lemma {:induction false} BodySplits(lines: seq<Line>)
    requires LinesOk(lines)
    ensures SplitLines(BodyOf(lines)) == Texts(lines)
    decreases |lines|
  {
    hide SplitLines, OneLine;
    assert lines[0] in lines;
    if |lines| == 1 {
      FirstLine(lines[0].text, "");
      assert Texts(lines) == [lines[0].text];
    } else {
      var more := lines[1..];
      assert forall l :: l in more ==> l in lines;
      BodySplits(more);
      LineOff(lines[0].text, lines[0].crlf, BodyOf(more));
      assert Texts(lines) == [lines[0].text] + Texts(more);
    }
  }

  function Texts(lines: seq<Line>): (r: seq<string>)
    ensures |r| == |lines|
  {
    seq(|lines|, k requires 0 <= k < |lines| => lines[k].text)
  }

  lemma {:induction false} LineOff(line: string, crlf: bool, rest: string)
    requires OneLine(line)
    ensures SplitLines(line + (End(crlf) + rest)) == [line] + SplitLines(rest)
  {
    hide SplitLines, OneLine;
    if crlf {
      LineThenLineEnd(line, End(crlf) + rest);
      EndIsEnd(crlf, rest);
      AtLineEnd(line, End(crlf), rest);
    } else {
      FirstLine(line, rest);
      assert line + (End(crlf) + rest) == line + "\n" + rest;
    }
  }

  lemma {:induction false} AtLineEnd(line: string, end: string, rest: string)
    requires NextLineEnd(line + (end + rest)) == |line| + NextLineEnd(end + rest) && LineEnd(end + rest) == |end| > 0
    ensures SplitLines(line + (end + rest)) == [line] + SplitLines(rest)
  {
    hide LineEnd;
    var text := line + (end + rest);
    assert text[|line|..] == end + rest && text[..|line|] == line && text[|line| + |end|..] == rest;
  }

  // ---- what a frame says -----------------------------------------------------------------------

  /** What stands behind the prefix on the last line that has it. */
  function LastAfter(prefix: string, lines: seq<string>): Option<string> {
    if lines == [] then None
    else
      var line := lines[|lines| - 1];
      if prefix <= line then Some(line[|prefix|..]) else LastAfter(prefix, lines[..|lines| - 1])
  }

  predicate IsData(line: string) {
    "data:" <= line
  }

  /** The data of the lines, blanks at their starts taken off. */
  predicate DataAre(data: seq<string>, lines: seq<string>) {
    var kept := Filter(IsData, lines);
    |data| == |kept| && forall k | 0 <= k < |data| :: "data:" <= kept[k] && data[k] == TrimStart(kept[k][5..])
  }

  /** The fields of a frame, each from the lines with its own name: the last id and the last
      event count, and all data; an event that is not named is a `message`. */
  lemma {:induction false} LinesSay(lines: seq<string>)
    ensures var f := ReadLines(NO_FIELDS, lines);
            && f.id == (if LastAfter("id:", lines).None? then None else Some(Trim(LastAfter("id:", lines).value)))
            && f.event == (if LastAfter("event:", lines).None? then "message" else Trim(LastAfter("event:", lines).value))
            && DataAre(f.data, lines)
  {
    hide Trim, TrimStart;
    if lines != [] {
      var line := lines[|lines| - 1];
      LinesSay(lines[..|lines| - 1]);
      OneName(line);
    }
  }

  lemma {:induction false} OneName(line: string)
    ensures "id:" <= line ==> !("event:" <= line) && !("data:" <= line)
    ensures "event:" <= line ==> !("data:" <= line)
  {
    assert "id:" <= line ==> line[0] == 'i';
    assert "event:" <= line ==> line[0] == 'e';
    assert "data:" <= line ==> line[0] == 'd';
  }

  /** What is delivered of the lines of a frame, its data joined by line ends; nothing if the
      event is named emptily and there is no data. */
  ghost predicate Says(lines: seq<string>, frame: Option<Frame>) {
    exists data :: DataAre(data, lines) &&
      var event := if LastAfter("event:", lines).None? then "message" else Trim(LastAfter("event:", lines).value);
      var id := if LastAfter("id:", lines).None? then None else Some(Trim(LastAfter("id:", lines).value));
      frame == if event == "" && data == [] then None else Some(Frame(id, event, JoinLines(data)))
  }

  lemma {:induction false} BodySays(lines: seq<Line>)
    requires LinesOk(lines)
    ensures Says(Texts(lines), Parsed(BodyOf(lines)))
  {
    hide Trim, LastAfter, DataAre, LinesOk, JoinLines;
    BodySplits(lines);
    LinesSay(Texts(lines));
    assert DataAre(ReadLines(NO_FIELDS, Texts(lines)).data, Texts(lines));
  }

  // ---- whole streams ------------------------------------------------------------------------------

  function BodiesOf(frames: seq<Written>): (r: seq<string>)
    ensures |r| == |frames|
  {
    seq(|frames|, k requires 0 <= k < |frames| => BodyOf(frames[k].lines))
  }

  lemma {:induction false} StreamSplits(frames: seq<Written>)
    requires forall w :: w in frames ==> LinesOk(w.lines)
    ensures SplitFrames(Stream(frames)) == BodiesOf(frames) + [""]
  {
    hide SplitFrames, FrameText, BodyOf;
    if frames == [] {
      NothingSplit();
      assert BodiesOf(frames) + [""] == [""];
    } else {
      assert frames[0] in frames && forall w :: w in frames[1..] ==> w in frames;
      StreamSplits(frames[1..]);
      FrameSplits(frames[0], Stream(frames[1..]));
      assert [BodyOf(frames[0].lines)] + (BodiesOf(frames[1..]) + [""]) == BodiesOf(frames) + [""];
    }
  }

  /** The frames of the bodies, in order, each what its lines say; those that say nothing are
      left out. */
  ghost predicate Delivers(frames: seq<Written>, delivered: seq<Frame>)
    decreases |frames|
  {
    if frames == [] then delivered == []
    else
      var front, texts := frames[..|frames| - 1], Texts(frames[|frames| - 1].lines);
      || (Says(texts, None) && Delivers(front, delivered))
      || (delivered != [] && Says(texts, Some(delivered[|delivered| - 1])) && Delivers(front, delivered[..|delivered| - 1]))
  }

  lemma {:induction false} BodiesDeliver(frames: seq<Written>)
    requires forall w :: w in frames ==> LinesOk(w.lines)
    ensures Delivers(frames, ParseAll(BodiesOf(frames)))
  {
    hide Parsed, BodyOf, Says;
    if frames != [] {
      var front, last := frames[..|frames| - 1], frames[|frames| - 1];
      assert last in frames && forall w :: w in front ==> w in frames;
      BodiesDeliver(front);
      BodySays(last.lines);
      assert BodiesOf(frames)[..|frames| - 1] == BodiesOf(front);
      var delivered := ParseAll(BodiesOf(frames));
      if Parsed(BodyOf(last.lines)).Some? {
        assert delivered[..|delivered| - 1] == ParseAll(BodiesOf(front));
      } else {
        assert delivered == ParseAll(BodiesOf(front));
      }
    }
  }

  /** For every stream of frames, of any number of lines and with either line end everywhere:
      delivered is, in order, what the lines of each say. With `StreamPost` this holds for
      every chunking. */
  lemma {:induction false} AnyStreamArrives(frames: seq<Written>)
    requires forall w :: w in frames ==> LinesOk(w.lines)
    ensures Delivers(frames, DeliveredOf(Stream(frames)))
  {
    hide ParseAll, SplitFrames, BodiesOf, Stream, Delivers;
    StreamSplits(frames);
    BodiesDeliver(frames);
    var parts := BodiesOf(frames) + [""];
    assert parts[..|parts| - 1] == BodiesOf(frames) && parts[|parts| - 1] == "" && Trim("") == "";
    assert ParseAll(BodiesOf(frames)) + [] == ParseAll(BodiesOf(frames));
  }
}
