/** The scanner that finds the first JSON object or array in a text, against the printer
    of static JSON. Strings follow section 7 of RFC 8259. */
module JsonScanner {
  import opened Common

  // ---- the printer ------------------------------------------------------------------------

  /** `Number` holds the printed digits. */
  datatype Json =
    | Null
    | Bool(b: bool)
    | Number(digits: string)
    | String(text: string)
    | Array(items: seq<Json>)
    | Object(fields: seq<Field>)

  datatype Field = Field(name: string, value: Json)

  predicate IsBracket(c: char) {
    c == '{' || c == '}' || c == '[' || c == ']'
  }

  /** Digits hold no quote and no bracket. */
  predicate Printable(v: Json) {
    match v
    case Number(digits) => forall c | c in digits :: c != '"' && !IsBracket(c)
    case Array(items) => forall x | x in items :: Printable(x)
    case Object(fields) => forall f | f in fields :: Printable(f.value)
    case _ => true
  }

  function HexDigit(n: nat): char
    requires n < 16
  {
    if n < 10 then '0' + n as char else 'a' + (n - 10) as char
  }

  /** One character inside a string, escaped as section 7 of RFC 8259 demands; characters
      outside ASCII are kept. */
  function EscapeChar(c: char): string {
    if c == '"' then "\\\""
    else if c == '\\' then "\\\\"
    else if c == '\n' then "\\n"
    else if c == '\r' then "\\r"
    else if c == '\t' then "\\t"
    else if c == '\U{0008}' then "\\b"
    else if c == '\U{000C}' then "\\f"
    else if c < ' ' then "\\u00" + [HexDigit(c as nat / 16), HexDigit(c as nat % 16)]
    else [c]
  }

  function Escape(s: string): string {
    if s == "" then "" else EscapeChar(s[0]) + Escape(s[1..])
  }

  function PrintString(s: string): string {
    "\"" + Escape(s) + "\""
  }

  /** `dump_to_static_json`: no blanks, the fields in the order given. */
  function Print(v: Json): string {
    match v
    case Null => "null"
    case Bool(b) => if b then "true" else "false"
    case Number(digits) => digits
    case String(text) => PrintString(text)
    case Array(items) => "[" + PrintItems(items) + "]"
    case Object(fields) => "{" + PrintFields(fields) + "}"
  }

  function PrintItems(items: seq<Json>): string {
    if items == [] then ""
    else if |items| == 1 then Print(items[0])
    else Print(items[0]) + "," + PrintItems(items[1..])
  }

  function PrintField(f: Field): string {
    PrintString(f.name) + ":" + Print(f.value)
  }

  function PrintFields(fields: seq<Field>): string {
    if fields == [] then ""
    else if |fields| == 1 then PrintField(fields[0])
    else PrintField(fields[0]) + "," + PrintFields(fields[1..])
  }

  // ---- the scanner --------------------------------------------------------------------------

  datatype Brackets = Brackets(open: char, close: char)

  const CURLY := Brackets('{', '}')
  const SQUARE := Brackets('[', ']')

  predicate Known(k: Brackets) {
    k == CURLY || k == SQUARE
  }

  datatype Cursor = Cursor(depth: int, inString: bool, escapeNext: bool)

  const OUTSIDE := Cursor(0, false, false)

  function Move(k: Brackets, s: Cursor, c: char): Cursor {
    if s.escapeNext then s.(escapeNext := false)
    else if c == '\\' && s.inString then s.(escapeNext := true)
    else if c == '"' then s.(inString := !s.inString)
    else if s.inString then s
    else if c == k.open then s.(depth := s.depth + 1)
    else if c == k.close then s.(depth := s.depth - 1)
    else s
  }

  /** The character closes the bracket the fragment opened with. */
  predicate Closes(k: Brackets, s: Cursor, c: char) {
    !s.escapeNext && !s.inString && c == k.close && s.depth == 1
  }

  /** How many characters it takes until the first bracket is closed. */
  function Scan(k: Brackets, s: Cursor, text: string): (r: Option<nat>)
    ensures r.Some? ==> 1 <= r.value <= |text|
    decreases |text|
  {
    if text == "" then None
    else if Closes(k, s, text[0]) then Some(1)
    else
      var rest := Scan(k, Move(k, s, text[0]), text[1..]);
      if rest.None? then None else Some(1 + rest.value)
  }

  /** The first position of `{` or `[`, or the length. */
  function FirstBracket(text: string): (n: nat)
    ensures n <= |text|
    ensures n < |text| ==> text[n] == '{' || text[n] == '['
    ensures forall k :: 0 <= k < n ==> text[k] != '{' && text[k] != '['
  {
    if text == "" || text[0] == '{' || text[0] == '[' then 0 else 1 + FirstBracket(text[1..])
  }

  function BracketsOf(c: char): Brackets {
    if c == '{' then CURLY else SQUARE
  }

  const WHITESPACE := " \t\n\r\U{000B}\U{000C}"

  function StripLeft(s: string): string {
    if s == "" then s else if s[0] in WHITESPACE then StripLeft(s[1..]) else s
  }

  function StripRight(s: string): string {
    if s != "" && s[|s| - 1] in WHITESPACE then StripRight(s[..|s| - 1]) else s
  }

  function Strip(s: string): string {
    StripRight(StripLeft(s))
  }

  function FirstFragment(text: string): Option<string> {
    var start := FirstBracket(text);
    if start == |text| then None
    else
      var n := Scan(BracketsOf(text[start]), OUTSIDE, text[start..]);
      if n.None? then None else Some(Strip(text[start..start + n.value]))
  }

  /** `_extract_first_json_fragment`. */
  method ExtractFirstJsonFragment(text: string) returns (fragment: Option<string>)
    ensures fragment == FirstFragment(text)
  {
    var start := 0;
    while start < |text| && text[start] != '{' && text[start] != '['
      invariant start <= |text| && forall k :: 0 <= k < start ==> text[k] != '{' && text[k] != '['
    {
      start := start + 1;
    }
    assert start == FirstBracket(text);
    if start == |text| {
      return None;
    }
    var k := BracketsOf(text[start]);
    var end := FindFragmentEnd(text, start, k);
    return if end.None? then None else Some(Strip(text[start..end.value]));
  }

  /** The counting loop: the end of the fragment that opens at `start`. */
  method FindFragmentEnd(text: string, start: nat, k: Brackets) returns (end: Option<nat>)
    requires start <= |text| && Known(k)
    ensures end == Later(start, Scan(k, OUTSIDE, text[start..]))
  {
    hide Scan;
    var depth, inString, escapeNext := 0, false, false;
    var index := start;
    while index < |text|
      invariant start <= index <= |text|
      invariant Later(start, Scan(k, OUTSIDE, text[start..])) == Later(index, Scan(k, Cursor(depth, inString, escapeNext), text[index..]))
    {
      var c := text[index];
      assert text[index..] == [c] + text[index + 1..];
      ScanHead(k, Cursor(depth, inString, escapeNext), c, text[index + 1..]);
      index := index + 1;
      if escapeNext {
        escapeNext := false;
        continue;
      }
      if c == '\\' && inString {
        escapeNext := true;
        continue;
      }
      if c == '"' {
        inString := !inString;
        continue;
      }
      if inString {
        continue;
      }
      if c == k.open {
        depth := depth + 1;
      } else if c == k.close {
        depth := depth - 1;
        if depth == 0 {
          return Some(index);
        }
      }
    }
    assert text[index..] == "";
    return None;
  }

  function Later(n: nat, r: Option<nat>): Option<nat> {
    if r.None? then None else Some(n + r.value)
  }

  lemma {:induction false} ScanHead(k: Brackets, s: Cursor, c: char, rest: string)
    ensures Scan(k, s, [c] + rest) == if Closes(k, s, c) then Some(1) else Later(1, Scan(k, Move(k, s, c), rest))
  {
    assert ([c] + rest)[1..] == rest;
  }

  // ---- scanning what the printer printed --------------------------------------------------------

  /** Characters that mean nothing to the scanner. */
  lemma {:induction false} PlainScan(k: Brackets, s: Cursor, part: string, rest: string)
    requires Known(k) && !s.escapeNext
    requires forall c :: c in part ==> c != '"' && if s.inString then c != '\\' else !IsBracket(c)
    ensures Scan(k, s, part + rest) == Later(|part|, Scan(k, s, rest))
    decreases |part|
  {
    hide Scan;
    if part == "" {
      assert part + rest == rest;
    } else {
      assert forall c :: c in part[1..] ==> c in part;
      PlainScan(k, s, part[1..], rest);
      assert part + rest == [part[0]] + (part[1..] + rest);
      ScanHead(k, s, part[0], part[1..] + rest);
      assert part[0] in part;
    }
  }

  /** Behind the backslash of an escape stands a character and then nothing special. */
  lemma {:induction false} EscapeShape(c: char)
    ensures var e := EscapeChar(c);
            if e == [c] then c != '"' && c != '\\'
            else |e| >= 2 && e[0] == '\\' && forall x :: x in e[2..] ==> x != '"' && x != '\\'
  {
  }

  lemma {:induction false} EscapedScan(k: Brackets, depth: int, c: char, rest: string)
    requires Known(k)
    ensures Scan(k, Cursor(depth, true, false), EscapeChar(c) + rest) == Later(|EscapeChar(c)|, Scan(k, Cursor(depth, true, false), rest))
  {
    hide Scan, EscapeChar;
    var inside := Cursor(depth, true, false);
    var e := EscapeChar(c);
    EscapeShape(c);
    if e == [c] {
      PlainScan(k, inside, e, rest);
    } else {
      var tail := e[2..];
      assert e + rest == ['\\'] + ([e[1]] + (tail + rest));
      ScanHead(k, inside, '\\', [e[1]] + (tail + rest));
      ScanHead(k, Cursor(depth, true, true), e[1], tail + rest);
      PlainScan(k, inside, tail, rest);
    }
  }

  lemma {:induction false} EscapeScan(k: Brackets, depth: int, s: string, rest: string)
    requires Known(k)
    ensures Scan(k, Cursor(depth, true, false), Escape(s) + rest) == Later(|Escape(s)|, Scan(k, Cursor(depth, true, false), rest))
  {
    hide Scan, EscapeChar;
    if s == "" {
      assert Escape(s) + rest == rest;
    } else {
      EscapeScan(k, depth, s[1..], rest);
      assert Escape(s) + rest == EscapeChar(s[0]) + (Escape(s[1..]) + rest);
      EscapedScan(k, depth, s[0], Escape(s[1..]) + rest);
    }
  }

  /** Whatever a string holds, the scanner comes out of it where it went in. */
  lemma {:induction false} StringScan(k: Brackets, depth: int, s: string, rest: string)
    requires Known(k)
    ensures Scan(k, Cursor(depth, false, false), PrintString(s) + rest) == Later(|PrintString(s)|, Scan(k, Cursor(depth, false, false), rest))
  {
    hide Scan, Escape;
    assert PrintString(s) + rest == ['"'] + (Escape(s) + (['"'] + rest));
    ScanHead(k, Cursor(depth, false, false), '"', Escape(s) + (['"'] + rest));
    EscapeScan(k, depth, s, ['"'] + rest);
    ScanHead(k, Cursor(depth, true, false), '"', rest);
  }

  /** Inside a fragment the scanner passes over every printed value. */
  lemma {:induction false} ValueScan(k: Brackets, depth: int, v: Json, rest: string)
    requires Known(k) && depth >= 1 && Printable(v)
    ensures Scan(k, Cursor(depth, false, false), Print(v) + rest) == Later(|Print(v)|, Scan(k, Cursor(depth, false, false), rest))
    decreases v
  {
    hide Scan, PrintString, PrintItems, PrintFields;
    var s := Cursor(depth, false, false);
    match v {
      case String(text) => StringScan(k, depth, text, rest);
      case Array(items) =>
        var within := if k == SQUARE then Cursor(depth + 1, false, false) else s;
        assert Print(v) + rest == ['['] + (PrintItems(items) + ([']'] + rest));
        ScanHead(k, s, '[', PrintItems(items) + ([']'] + rest));
        ItemsScan(k, within.depth, items, [']'] + rest);
        ScanHead(k, within, ']', rest);
      case Object(fields) =>
        var within := if k == CURLY then Cursor(depth + 1, false, false) else s;
        assert Print(v) + rest == ['{'] + (PrintFields(fields) + (['}'] + rest));
        ScanHead(k, s, '{', PrintFields(fields) + (['}'] + rest));
        FieldsScan(k, within.depth, fields, ['}'] + rest);
        ScanHead(k, within, '}', rest);
      case _ => PlainScan(k, s, Print(v), rest);
    }
  }

  lemma {:induction false} ItemsScan(k: Brackets, depth: int, items: seq<Json>, rest: string)
    requires Known(k) && depth >= 1 && forall x :: x in items ==> Printable(x)
    ensures Scan(k, Cursor(depth, false, false), PrintItems(items) + rest) == Later(|PrintItems(items)|, Scan(k, Cursor(depth, false, false), rest))
    decreases items
  {
    hide Scan, Print;
    if items == [] {
      assert PrintItems(items) + rest == rest;
    } else if |items| == 1 {
      ValueScan(k, depth, items[0], rest);
    } else {
      var tail := PrintItems(items[1..]) + rest;
      ItemsScan(k, depth, items[1..], rest);
      assert PrintItems(items) + rest == Print(items[0]) + ([','] + tail);
      ValueScan(k, depth, items[0], [','] + tail);
      ScanHead(k, Cursor(depth, false, false), ',', tail);
    }
  }

  lemma {:induction false} FieldScan(k: Brackets, depth: int, f: Field, rest: string)
    requires Known(k) && depth >= 1 && Printable(f.value)
    ensures Scan(k, Cursor(depth, false, false), PrintField(f) + rest) == Later(|PrintField(f)|, Scan(k, Cursor(depth, false, false), rest))
    decreases f
  {
    hide Scan, Print, PrintString;
    var tail := Print(f.value) + rest;
    assert PrintField(f) + rest == PrintString(f.name) + ([':'] + tail);
    StringScan(k, depth, f.name, [':'] + tail);
    ScanHead(k, Cursor(depth, false, false), ':', tail);
    ValueScan(k, depth, f.value, rest);
  }

  lemma {:induction false} FieldsScan(k: Brackets, depth: int, fields: seq<Field>, rest: string)
    requires Known(k) && depth >= 1 && forall f :: f in fields ==> Printable(f.value)
    ensures Scan(k, Cursor(depth, false, false), PrintFields(fields) + rest) == Later(|PrintFields(fields)|, Scan(k, Cursor(depth, false, false), rest))
    decreases fields
  {
    hide Scan, PrintField;
    if fields == [] {
      assert PrintFields(fields) + rest == rest;
    } else if |fields| == 1 {
      FieldScan(k, depth, fields[0], rest);
    } else {
      var tail := PrintFields(fields[1..]) + rest;
      FieldsScan(k, depth, fields[1..], rest);
      assert PrintFields(fields) + rest == PrintField(fields[0]) + ([','] + tail);
      FieldScan(k, depth, fields[0], [','] + tail);
      ScanHead(k, Cursor(depth, false, false), ',', tail);
    }
  }

  // ---- the main results -----------------------------------------------------------------------------

  predicate IsContainer(v: Json) {
    v.Array? || v.Object?
  }

  lemma {:induction false} ContainerScans(v: Json, suffix: string)
    requires IsContainer(v) && Printable(v)
    ensures |Print(v)| >= 2 && Print(v)[0] == (if v.Object? then '{' else '[') && Print(v)[|Print(v)| - 1] == (if v.Object? then '}' else ']')
    ensures Scan(BracketsOf(Print(v)[0]), OUTSIDE, Print(v) + suffix) == Some(|Print(v)|)
  {
    hide Scan, PrintItems, PrintFields;
    var k := if v.Object? then CURLY else SQUARE;
    var inner := if v.Object? then PrintFields(v.fields) else PrintItems(v.items);
    assert Print(v) == [k.open] + inner + [k.close];
    if v.Object? {
      FieldsScan(k, 1, v.fields, [k.close] + suffix);
    } else {
      ItemsScan(k, 1, v.items, [k.close] + suffix);
    }
    assert Print(v) + suffix == [k.open] + (inner + ([k.close] + suffix));
    ScanHead(k, OUTSIDE, k.open, inner + ([k.close] + suffix));
    ScanHead(k, Cursor(1, false, false), k.close, suffix);
  }

  lemma {:induction false} BracketAfter(prefix: string, text: string)
    requires forall c :: c in prefix ==> c != '{' && c != '['
    requires text != "" && (text[0] == '{' || text[0] == '[')
    ensures FirstBracket(prefix + text) == |prefix|
  {
    if prefix == "" {
      assert prefix + text == text;
    } else {
      assert forall c :: c in prefix[1..] ==> c in prefix;
      assert prefix[0] in prefix && (prefix + text)[1..] == prefix[1..] + text;
      BracketAfter(prefix[1..], text);
    }
  }

  /** For every object or array, every text before it without an opening bracket and every
      text behind it, the scanner finds exactly what was printed. */
  lemma {:induction false} ExtractsWhatWasPrinted(prefix: string, v: Json, suffix: string)
    requires IsContainer(v) && Printable(v) && forall c :: c in prefix ==> c != '{' && c != '['
    ensures FirstFragment(prefix + Print(v) + suffix) == Some(Print(v))
  {
    hide Print, Scan;
    ContainerScans(v, suffix);
    var text := prefix + Print(v) + suffix;
    assert text == prefix + (Print(v) + suffix);
    BracketAfter(prefix, Print(v) + suffix);
    assert text[|prefix|..] == Print(v) + suffix;
    assert text[|prefix|..|prefix| + |Print(v)|] == Print(v);
  }

  lemma {:induction false} ScanOfPrefix(k: Brackets, s: Cursor, text: string, n: nat)
    requires n < |text| && Scan(k, s, text).Some? && n < Scan(k, s, text).value
    ensures Scan(k, s, text[..n]).None?
    decreases |text|
  {
    if n > 0 {
      assert text[..n][1..] == text[1..][..n - 1];
      ScanOfPrefix(k, Move(k, s, text[0]), text[1..], n - 1);
    }
  }

  /** Cut off before its end, a printed value yields nothing rather than a part. */
  lemma {:induction false} TruncatedYieldsNothing(prefix: string, v: Json, n: nat)
    requires IsContainer(v) && Printable(v) && forall c :: c in prefix ==> c != '{' && c != '['
    requires n < |Print(v)|
    ensures FirstFragment(prefix + Print(v)[..n]) == None
  {
    hide Print, Scan;
    ContainerScans(v, "");
    assert Print(v) + "" == Print(v);
    ScanOfPrefix(BracketsOf(Print(v)[0]), OUTSIDE, Print(v), n);
    var text := prefix + Print(v)[..n];
    if n == 0 {
      assert text == prefix;
      NoBracket(prefix);
    } else {
      BracketAfter(prefix, Print(v)[..n]);
      assert text[|prefix|..] == Print(v)[..n];
    }
  }

  lemma {:induction false} NoBracket(text: string)
    requires forall c :: c in text ==> c != '{' && c != '['
    ensures FirstBracket(text) == |text|
  {
    if text != "" {
      assert text[0] in text && forall c :: c in text[1..] ==> c in text;
      NoBracket(text[1..]);
    }
  }
}
