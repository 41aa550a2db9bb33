/** Server-sent events from the printer on the server to the client's reading loop, per
    section 9.2 of the WHATWG HTML Living Standard. */
module SseStream {
  import opened Common

  // ---- the printer ----------------------------------------------------------------------

  datatype Frame = Frame(id: Option<string>, event: string, data: string)

  /** An id that is empty or the text "null" is not sent. */
  predicate SendsId(id: Option<string>) {
    id.Some? && id.value != "" && id.value != "null"
  }

  /** What is printed of a frame, without the blank line that ends it. */
  function Body(f: Frame): string {
    (if SendsId(f.id) then "id: " + f.id.value + "\n" else "") + "event: " + f.event + "\n" + "data: " + f.data
  }

  function JoinLines(lines: seq<string>): string {
    if lines == [] then ""
    else if |lines| == 1 then lines[0]
    else lines[0] + "\n" + JoinLines(lines[1..])
  }

  /** `format_sse`. */
  method FormatSse(f: Frame) returns (text: string)
    ensures text == Body(f) + "\n\n"
  {
    var lines: seq<string> := [];
    if SendsId(f.id) {
      lines := lines + ["id: " + f.id.value];
    }
    lines := lines + ["event: " + f.event];
    lines := lines + ["data: " + f.data];
    text := JoinLines(lines) + "\n\n";
    assert lines[|lines| - 2..] == ["event: " + f.event, "data: " + f.data];
    JoinTwo("event: " + f.event, "data: " + f.data);
    if SendsId(f.id) {
      assert lines == ["id: " + f.id.value] + ["event: " + f.event, "data: " + f.data];
      assert lines[1..] == ["event: " + f.event, "data: " + f.data];
    } else {
      assert lines == ["event: " + f.event, "data: " + f.data];
    }
  }

  lemma {:induction false} JoinTwo(a: string, b: string)
    ensures JoinLines([a, b]) == a + "\n" + b
  {
    assert [a, b][1..] == [b];
  }

  function Transcript(frames: seq<Frame>): string {
    if frames == [] then "" else Body(frames[0]) + "\n\n" + Transcript(frames[1..])
  }

  // ---- splitting ---------------------------------------------------------------------------

  /** Length of a line end `\r?\n` at the head of a text, 0 if there is none. */
  function LineEnd(text: string): (n: nat)
    ensures n <= 2 && n <= |text|
  {
    if |text| >= 1 && text[0] == '\n' then 1
    else if |text| >= 2 && text[0] == '\r' && text[1] == '\n' then 2
    else 0
  }

  /** Length of a frame end `\r?\n\r?\n` at the head of a text, 0 if there is none. */
  function FrameEnd(text: string): (n: nat)
    ensures n <= |text|
  {
    var a := LineEnd(text);
    if a == 0 then 0
    else
      var b := LineEnd(text[a..]);
      if b == 0 then 0 else a + b
  }

  /** The first position of a frame end, or the length. */
  function NextFrameEnd(text: string): (i: nat)
    ensures i <= |text|
    ensures i < |text| ==> FrameEnd(text[i..]) > 0
    ensures forall j :: 0 <= j < i ==> FrameEnd(text[j..]) == 0
  {
    if text == "" || FrameEnd(text) > 0 then 0
    else
      var i := 1 + NextFrameEnd(text[1..]);
      assert forall j :: 0 < j < |text| ==> text[j..] == text[1..][j - 1..];
      i
  }

  /** The text behind the first frame end. */
  function AfterFrame(text: string): (r: string)
    requires NextFrameEnd(text) < |text|
    ensures |r| < |text|
  {
    var i := NextFrameEnd(text);
    text[i + FrameEnd(text[i..])..]
  }

  /** `split(/\r?\n\r?\n/)`. */
  function SplitFrames(text: string): (r: seq<string>)
    ensures r != []
    decreases |text|
  {
    if NextFrameEnd(text) == |text| then [text]
    else [text[..NextFrameEnd(text)]] + SplitFrames(AfterFrame(text))
  }

  function NextLineEnd(text: string): (i: nat)
    ensures i <= |text|
    ensures i < |text| ==> LineEnd(text[i..]) > 0
  {
    if text == "" || LineEnd(text) > 0 then 0 else 1 + NextLineEnd(text[1..])
  }

  /** `split(/\r?\n/)`. */
  function SplitLines(text: string): (r: seq<string>)
    ensures r != []
    decreases |text|
  {
    var i := NextLineEnd(text);
    if i == |text| then [text]
    else [text[..i]] + SplitLines(text[i + LineEnd(text[i..])..])
  }

  // ---- the client ------------------------------------------------------------------------------

  /** White space and line terminators of ECMAScript. */
  predicate IsBlank(c: char) {
    || c == ' ' || ('\t' <= c <= '\r') || c == '\U{00A0}' || c == '\U{1680}' || ('\U{2000}' <= c <= '\U{200A}')
    || c == '\U{2028}' || c == '\U{2029}' || c == '\U{202F}' || c == '\U{205F}' || c == '\U{3000}' || c == '\U{FEFF}'
  }

  function TrimStart(s: string): string {
    if s == "" then s else if IsBlank(s[0]) then TrimStart(s[1..]) else s
  }

  function TrimEnd(s: string): string {
    if s == "" then s else if IsBlank(s[|s| - 1]) then TrimEnd(s[..|s| - 1]) else s
  }

  function Trim(s: string): string {
    TrimEnd(TrimStart(s))
  }

  /** The fields collected from the lines read so far. */
  datatype Fields = Fields(id: Option<string>, event: string, data: seq<string>)

  function ReadLine(f: Fields, line: string): Fields {
    if "id:" <= line then f.(id := Some(Trim(line[3..])))
    else if "event:" <= line then f.(event := Trim(line[6..]))
    else if "data:" <= line then f.(data := f.data + [TrimStart(line[5..])])
    else f
  }

  function ReadLines(f: Fields, lines: seq<string>): Fields {
    if lines == [] then f else ReadLine(ReadLines(f, lines[..|lines| - 1]), lines[|lines| - 1])
  }

  const NO_FIELDS := Fields(None, "message", [])

  function FrameOf(f: Fields): Option<Frame> {
    if f.event == "" && f.data == [] then None else Some(Frame(f.id, f.event, JoinLines(f.data)))
  }

  function Parsed(rawFrame: string): Option<Frame> {
    FrameOf(ReadLines(NO_FIELDS, SplitLines(rawFrame)))
  }

  /** `parseSseFrame`. */
  method ParseSseFrame(rawFrame: string) returns (frame: Option<Frame>)
    ensures frame == Parsed(rawFrame)
  {
    var lines := SplitLines(rawFrame);
    var id: Option<string>, event, dataLines: seq<string> := None, "message", [];
    for k := 0 to |lines|
      invariant Fields(id, event, dataLines) == ReadLines(NO_FIELDS, lines[..k])
    {
      assert lines[..k + 1][..k] == lines[..k];
      var line := lines[k];
      if "id:" <= line {
        id := Some(Trim(line[3..]));
      } else if "event:" <= line {
        event := Trim(line[6..]);
      } else if "data:" <= line {
        dataLines := dataLines + [TrimStart(line[5..])];
      }
    }
    assert lines[..|lines|] == lines;
    if event == "" && dataLines == [] {
      return None;
    }
    return Some(Frame(id, event, JoinLines(dataLines)));
  }

  predicate IsTerminal(f: Frame) {
    f.event == "end" || f.event == "error"
  }

  function ParseAll(rawFrames: seq<string>): seq<Frame> {
    if rawFrames == [] then []
    else
      var f := Parsed(rawFrames[|rawFrames| - 1]);
      ParseAll(rawFrames[..|rawFrames| - 1]) + if f.Some? then [f.value] else []
  }

  function Concat(chunks: seq<string>): string {
    if chunks == [] then "" else Concat(chunks[..|chunks| - 1]) + chunks[|chunks| - 1]
  }

  /** What is delivered of a whole text: every frame that was ended, then the rest unless
      it is blank. */
  function DeliveredOf(text: string): seq<Frame> {
    var parts := SplitFrames(text);
    var rest := Trim(parts[|parts| - 1]);
    ParseAll(parts[..|parts| - 1]) + if rest != "" && Parsed(rest).Some? then [Parsed(rest).value] else []
  }

  /** The frames of one turn of the loop. */
  method DeliverFrames(rawFrames: seq<string>) returns (frames: seq<Frame>)
    ensures frames == ParseAll(rawFrames)
  {
    frames := [];
    for k := 0 to |rawFrames|
      invariant frames == ParseAll(rawFrames[..k])
    {
      assert rawFrames[..k + 1][..k] == rawFrames[..k];
      var frame := ParseSseFrame(rawFrames[k]);
      if frame.Some? {
        frames := frames + [frame.value];
      }
    }
    assert rawFrames[..|rawFrames|] == rawFrames;
  }

  /** One chunk: the frames it completes are delivered, the rest is kept. */
  method TakeChunk(buffer: string, chunk: string) returns (frames: seq<Frame>, rest: string)
    ensures var parts := SplitFrames(buffer + chunk);
            frames == ParseAll(parts[..|parts| - 1]) && rest == parts[|parts| - 1]
  {
    hide SplitFrames, ParseAll;
    var rawFrames := SplitFrames(buffer + chunk);
    rest := rawFrames[|rawFrames| - 1];
    rawFrames := rawFrames[..|rawFrames| - 1];
    frames := DeliverFrames(rawFrames);
  }

  /** `streamPost`: the buffering loop over the chunks of the response. However the text
      is cut, the frames are those of the whole text. */
  method StreamPost(chunks: seq<string>) returns (delivered: seq<Frame>, lost: bool)
    ensures delivered == DeliveredOf(Concat(chunks))
    ensures lost <==> forall f :: f in delivered ==> !IsTerminal(f)
  {
    hide SplitFrames, Parsed, ParseAll;
    var buffer := "";
    delivered := [];
    ghost var seen: seq<string> := [];
    NothingSplit();
    for k := 0 to |chunks|
      invariant SplitFrames(Concat(chunks[..k])) == seen + [buffer]
      invariant delivered == ParseAll(seen)
    {
      assert chunks[..k + 1][..k] == chunks[..k];
      SplitResumes(Concat(chunks[..k]), seen, buffer, chunks[k]);
      ghost var parts := SplitFrames(buffer + chunks[k]);
      ghost var ended := parts[..|parts| - 1];
      var frames;
      frames, buffer := TakeChunk(buffer, chunks[k]);
      assert parts == ended + [buffer];
      ParseAllConcat(seen, ended);
      assert seen + (ended + [buffer]) == (seen + ended) + [buffer];
      seen := seen + ended;
      delivered := delivered + frames;
    }
    assert chunks[..|chunks|] == chunks;
    assert (seen + [buffer])[..|seen|] == seen;
    var rest := Trim(buffer);
    if rest != "" {
      var frame := ParseSseFrame(rest);
      if frame.Some? {
        delivered := delivered + [frame.value];
      }
    }
    lost := CheckLost(delivered);
  }

  lemma {:induction false} NothingSplit()
    ensures SplitFrames("") == [""] && ParseAll([]) == []
  {
  }

  method CheckLost(frames: seq<Frame>) returns (lost: bool)
    ensures lost <==> forall f :: f in frames ==> !IsTerminal(f)
  {
    var received := false;
    for k := 0 to |frames|
      invariant received <==> exists j :: 0 <= j < k && IsTerminal(frames[j])
    {
      received := received || IsTerminal(frames[k]);
    }
    lost := !received;
  }

  lemma {:induction false} ParseAllConcat(a: seq<string>, b: seq<string>)
    ensures ParseAll(a + b) == ParseAll(a) + ParseAll(b)
  {
    hide Parsed;
    if b == [] {
      assert a + b == a;
    } else {
      assert (a + b)[..|a + b| - 1] == a + b[..|b| - 1];
      ParseAllConcat(a, b[..|b| - 1]);
    }
  }

  // ---- splitting does not depend on the chunks ---------------------------------------------------

  lemma {:induction false} EndStays(a: string, b: string)
    ensures FrameEnd(a) > 0 ==> FrameEnd(a + b) == FrameEnd(a)
    ensures FrameEnd(a + b) > 0 && FrameEnd(a + b) <= |a| ==> FrameEnd(a) == FrameEnd(a + b)
  {
    var n := LineEnd(a);
    var m := LineEnd(a + b);
    if n > 0 {
      assert m == n;
      assert (a + b)[n..] == a[n..] + b;
    } else if m > 0 && m <= |a| {
      assert false;
    }
  }

  /** A frame end that lies inside the text so far is the first of the longer text too. */
  lemma {:induction false} NextStays(a: string, b: string)
    requires NextFrameEnd(a) < |a|
    ensures NextFrameEnd(a + b) == NextFrameEnd(a)
    ensures FrameEnd((a + b)[NextFrameEnd(a)..]) == FrameEnd(a[NextFrameEnd(a)..])
    decreases |a|
  {
    var i := NextFrameEnd(a);
    if i == 0 {
      EndStays(a, b);
      assert (a + b)[0..] == a + b && a[0..] == a;
    } else {
      assert (a + b)[1..] == a[1..] + b;
      NextStays(a[1..], b);
      NotYet(a, b);
      assert (a + b)[i..] == (a[1..] + b)[i - 1..] && a[i..] == a[1..][i - 1..];
    }
  }

  /** No frame end begins one place before another and outlasts it. */
  lemma {:induction false} NotYet(a: string, b: string)
    requires a != "" && FrameEnd(a) == 0 && NextFrameEnd(a[1..]) < |a[1..]|
    ensures FrameEnd(a + b) == 0
  {
    hide NextFrameEnd;
    var i := 1 + NextFrameEnd(a[1..]);
    EndStays(a, b);
    assert a[1..][i - 1..] == a[i..];
    var n := FrameEnd(a[i..]);
    assert n >= 2 && i + n <= |a|;
    if i >= 2 {
      assert |a| >= 4;
    } else {
      assert a[i..] == a[1..];
    }
  }

  lemma {:induction false} HeadAndTail(head: string, tail: seq<string>, ended: seq<string>, rest: string)
    requires [head] + tail == ended + [rest] && tail != []
    ensures ended != [] && ended[0] == head && tail == ended[1..] + [rest]
  {
    assert |ended| == |tail|;
    assert ([head] + tail)[0] == ended[0];
    assert ([head] + tail)[1..] == tail && (ended + [rest])[1..] == ended[1..] + [rest];
  }

  lemma {:induction false} AfterStays(a: string, b: string)
    requires NextFrameEnd(a) < |a|
    ensures NextFrameEnd(a + b) == NextFrameEnd(a) && AfterFrame(a + b) == AfterFrame(a) + b
  {
    hide FrameEnd, NextFrameEnd;
    NextStays(a, b);
  }

  /** Splitting a longer text splits what was left over. */
  lemma {:induction false} SplitResumes(text: string, ended: seq<string>, rest: string, more: string)
    requires SplitFrames(text) == ended + [rest]
    ensures SplitFrames(text + more) == ended + SplitFrames(rest + more)
    decreases |text|
  {
    hide FrameEnd, NextFrameEnd, AfterFrame;
    var i := NextFrameEnd(text);
    if i == |text| {
      assert |ended + [rest]| == 1;
      assert ended == [] && (ended + [rest])[0] == rest;
      assert [] + SplitFrames(rest + more) == SplitFrames(rest + more);
    } else {
      HeadAndTail(text[..i], SplitFrames(AfterFrame(text)), ended, rest);
      SplitResumes(AfterFrame(text), ended[1..], rest, more);
      AfterStays(text, more);
      assert (text + more)[..i] == text[..i];
      assert [ended[0]] + (ended[1..] + SplitFrames(rest + more)) == ended + SplitFrames(rest + more);
    }
  }
}
