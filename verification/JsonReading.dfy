/** Reading JSON per RFC 8259: what was printed, and found again by the scanner, reads as the
    value it was. */
module JsonReading {
  import opened Common
  import opened JsonScanner

  // ---- strings ------------------------------------------------------------------------------

  function HexValue(c: char): (r: Option<nat>)
    ensures r.Some? ==> r.value < 16
  {
    if '0' <= c <= '9' then Some(c as nat - '0' as nat)
    else if 'a' <= c <= 'f' then Some(10 + (c as nat - 'a' as nat))
    else if 'A' <= c <= 'F' then Some(10 + (c as nat - 'A' as nat))
    else None
  }

  /** The character behind a backslash, and the length of the escape; pairs of surrogates are
      not read. */
  function ReadEscape(text: string): (r: Option<(char, nat)>)
    ensures r.Some? ==> 1 <= r.value.1 <= |text|
  {
    if text == "" then None
    else match text[0]
      case '"' => Some(('"', 1))
      case '\\' => Some(('\\', 1))
      case '/' => Some(('/', 1))
      case 'b' => Some(('\U{0008}', 1))
      case 'f' => Some(('\U{000C}', 1))
      case 'n' => Some(('\n', 1))
      case 'r' => Some(('\r', 1))
      case 't' => Some(('\t', 1))
      case 'u' =>
        if |text| < 5 then None
        else
          var a, b, c, d := HexValue(text[1]), HexValue(text[2]), HexValue(text[3]), HexValue(text[4]);
          if a.None? || b.None? || c.None? || d.None? then None
          else
            var n := 4096 * a.value + 256 * b.value + 16 * c.value + d.value;
            if 0xD800 <= n < 0xE000 then None else Some((n as char, 5))
      case _ => None
  }

  /** A string behind its opening quote, and what comes behind the closing one. */
  function ReadString(text: string): (r: Option<(string, string)>)
    ensures r.Some? ==> |r.value.1| < |text|
    decreases |text|
  {
    if text == "" then None
    else if text[0] == '"' then Some(("", text[1..]))
    else if text[0] == '\\' then
      var e := ReadEscape(text[1..]);
      if e.None? then None
      else
        var rest := ReadString(text[1 + e.value.1..]);
        if rest.None? then None else Some(([e.value.0] + rest.value.0, rest.value.1))
    else
      var rest := ReadString(text[1..]);
      if rest.None? then None else Some(([text[0]] + rest.value.0, rest.value.1))
  }

  // ---- values --------------------------------------------------------------------------------

  predicate IsNumberChar(c: char) {
    '0' <= c <= '9' || c == '-' || c == '+' || c == '.' || c == 'e' || c == 'E'
  }

  function NumberLength(text: string): (n: nat)
    ensures n <= |text|
  {
    if text == "" || !IsNumberChar(text[0]) then 0 else 1 + NumberLength(text[1..])
  }

  function ReadValue(text: string): (r: Option<(Json, string)>)
    ensures r.Some? ==> |r.value.1| < |text|
    decreases |text|, 0
  {
    if text == "" then None
    else if text[0] == '"' then
      var s := ReadString(text[1..]);
      if s.None? then None else Some((String(s.value.0), s.value.1))
    else if text[0] == '[' then
      if |text| > 1 && text[1] == ']' then Some((Array([]), text[2..]))
      else
        var items := ReadItems(text[1..]);
        if items.None? then None else Some((Array(items.value.0), items.value.1))
    else if text[0] == '{' then
      if |text| > 1 && text[1] == '}' then Some((Object([]), text[2..]))
      else
        var fields := ReadFields(text[1..]);
        if fields.None? then None else Some((Object(fields.value.0), fields.value.1))
    else if "null" <= text then Some((Null, text[4..]))
    else if "true" <= text then Some((Bool(true), text[4..]))
    else if "false" <= text then Some((Bool(false), text[5..]))
    else if NumberLength(text) > 0 then Some((Number(text[..NumberLength(text)]), text[NumberLength(text)..]))
    else None
  }

  /** Items up to the closing bracket. */
  function ReadItems(text: string): (r: Option<(seq<Json>, string)>)
    ensures r.Some? ==> |r.value.1| < |text|
    decreases |text|, 1
  {
    var first := ReadValue(text);
    if first.None? || first.value.1 == "" then None
    else
      var rest := first.value.1;
      if rest[0] == ']' then Some(([first.value.0], rest[1..]))
      else if rest[0] != ',' then None
      else
        var more := ReadItems(rest[1..]);
        if more.None? then None else Some(([first.value.0] + more.value.0, more.value.1))
  }

  function ReadField(text: string): (r: Option<(Field, string)>)
    ensures r.Some? ==> |r.value.1| < |text|
    decreases |text|, 1
  {
    if text == "" || text[0] != '"' then None
    else
      var name := ReadString(text[1..]);
      if name.None? || name.value.1 == "" || name.value.1[0] != ':' then None
      else
        var v := ReadValue(name.value.1[1..]);
        if v.None? then None else Some((Field(name.value.0, v.value.0), v.value.1))
  }

  function ReadFields(text: string): (r: Option<(seq<Field>, string)>)
    ensures r.Some? ==> |r.value.1| < |text|
    decreases |text|, 2
  {
    var first := ReadField(text);
    if first.None? || first.value.1 == "" then None
    else
      var rest := first.value.1;
      if rest[0] == '}' then Some(([first.value.0], rest[1..]))
      else if rest[0] != ',' then None
      else
        var more := ReadFields(rest[1..]);
        if more.None? then None else Some(([first.value.0] + more.value.0, more.value.1))
  }

  // ---- strings read back -----------------------------------------------------------------------

  lemma {:induction false} HexReads(n: nat)
    requires n < 16
    ensures HexValue(HexDigit(n)) == Some(n)
  {
  }

  /** An escaped character reads as itself. */
  lemma {:induction false} EscapeReads(c: char, rest: string)
    requires EscapeChar(c) != [c]
    ensures var e := EscapeChar(c);
            e[0] == '\\' && ReadEscape((e + rest)[1..]) == Some((c, |e| - 1))
  {
    var e := EscapeChar(c);
    assert (e + rest)[1..] == e[1..] + rest;
    if e[1] == 'u' {
      HexReads(c as nat / 16);
      HexReads(c as nat % 16);
    }
  }

  lemma {:induction false} CharReads(c: char, rest: string)
    ensures ReadString(EscapeChar(c) + rest) ==
            if ReadString(rest).None? then None else Some(([c] + ReadString(rest).value.0, ReadString(rest).value.1))
  {
    hide ReadEscape;
    var e := EscapeChar(c);
    EscapeShape(c);
    if e == [c] {
      assert (e + rest)[1..] == rest;
    } else {
      EscapeReads(c, rest);
      assert (e + rest)[|e|..] == rest;
    }
  }

  lemma {:induction false} StringReads(s: string, rest: string)
    ensures ReadString(Escape(s) + (['"'] + rest)) == Some((s, rest))
  {
    hide EscapeChar, ReadString;
    var end := ['"'] + rest;
    if s == "" {
      QuoteEnds(rest);
      assert Escape(s) + end == end;
    } else {
      StringReads(s[1..], rest);
      CharReads(s[0], Escape(s[1..]) + end);
      assert Escape(s) + end == EscapeChar(s[0]) + (Escape(s[1..]) + end);
      assert s == [s[0]] + s[1..];
    }
  }

  lemma {:induction false} QuoteEnds(rest: string)
    ensures ReadString(['"'] + rest) == Some(("", rest))
  {
    assert (['"'] + rest)[1..] == rest;
  }

  // ---- values read back --------------------------------------------------------------------------

  /** Numbers are what a number is written with. */
  predicate Readable(v: Json) {
    match v
    case Number(digits) => digits != "" && forall c | c in digits :: IsNumberChar(c)
    case Array(items) => forall x | x in items :: Readable(x)
    case Object(fields) => forall f | f in fields :: Readable(f.value)
    case _ => true
  }

  /** What may stand behind a value. */
  predicate Ends(rest: string) {
    rest == "" || !IsNumberChar(rest[0])
  }

  lemma {:induction false} NumberReads(digits: string, rest: string)
    requires (forall c :: c in digits ==> IsNumberChar(c)) && Ends(rest)
    ensures NumberLength(digits + rest) == |digits|
  {
    if digits == "" {
      assert digits + rest == rest;
    } else {
      assert digits[0] in digits && (digits + rest)[1..] == digits[1..] + rest;
      NumberReads(digits[1..], rest);
    }
  }

  lemma {:induction false} WordReads(v: Json, rest: string)
    requires v.Null? || v.Bool?
    ensures ReadValue(Print(v) + rest) == Some((v, rest))
  {
    hide ReadString, ReadItems, ReadFields, NumberLength;
    var text := Print(v) + rest;
    if v == Bool(false) {
      assert text[5..] == rest && text[..5] == "false" && text[0] == 'f';
    } else {
      assert text[4..] == rest && text[..4] == Print(v) && text[0] == Print(v)[0];
    }
  }

  lemma {:induction false} DigitsRead(digits: string, rest: string)
    requires Readable(Number(digits)) && Ends(rest)
    ensures ReadValue(digits + rest) == Some((Number(digits), rest))
  {
    hide ReadString, ReadItems, ReadFields, NumberLength;
    var text := digits + rest;
    NumberReads(digits, rest);
    assert text[0] == digits[0] && digits[0] in digits;
    assert text[..|digits|] == digits && text[|digits|..] == rest;
  }

  lemma {:induction false} TextReads(s: string, rest: string)
    ensures ReadValue(PrintString(s) + rest) == Some((String(s), rest))
  {
    hide ReadString, ReadItems, ReadFields, NumberLength, Escape;
    StringReads(s, rest);
    assert (PrintString(s) + rest)[1..] == Escape(s) + (['"'] + rest);
  }

  lemma {:induction false} AtomReads(v: Json, rest: string)
    requires Readable(v) && Ends(rest) && !v.Array? && !v.Object?
    ensures ReadValue(Print(v) + rest) == Some((v, rest))
  {
    hide ReadValue;
    match v {
      case Number(digits) => DigitsRead(digits, rest);
      case String(s) => TextReads(s, rest);
      case _ => WordReads(v, rest);
    }
  }

  lemma {:induction false} PrintStarts(v: Json)
    requires Readable(v)
    ensures Print(v) != "" && Print(v)[0] != ']' && Print(v)[0] != '}'
  {
    if v.Number? {
      assert v.digits[0] in v.digits;
    }
  }

  /** For every value and whatever ends it: the printed text reads as the value. */
  lemma {:induction false} ValueReads(v: Json, rest: string)
    requires Readable(v) && Ends(rest)
    ensures ReadValue(Print(v) + rest) == Some((v, rest))
    decreases v
  {
    hide ReadString, ReadItems, ReadFields, PrintItems, PrintFields, PrintString;
    match v {
      case Array(items) =>
        var text := Print(v) + rest;
        if items == [] {
          EmptyPrints();
          assert text == "[" + "]" + rest && text[2..] == rest;
        } else {
          ItemsRead(items, rest);
          ItemsStart(items);
          assert text[1..] == PrintItems(items) + ([']'] + rest);
        }
      case Object(fields) =>
        var text := Print(v) + rest;
        if fields == [] {
          EmptyPrints();
          assert text == "{" + "}" + rest && text[2..] == rest;
        } else {
          FieldsRead(fields, rest);
          FieldsStart(fields);
          assert text[1..] == PrintFields(fields) + (['}'] + rest);
        }
      case _ => AtomReads(v, rest);
    }
  }

  lemma {:induction false} EmptyPrints()
    ensures PrintItems([]) == "" && PrintFields([]) == ""
  {
  }

  lemma {:induction false} ItemsStart(items: seq<Json>)
    requires items != [] && forall x :: x in items ==> Readable(x)
    ensures PrintItems(items) != "" && PrintItems(items)[0] != ']'
  {
    assert items[0] in items;
    PrintStarts(items[0]);
  }

  lemma {:induction false} FieldsStart(fields: seq<Field>)
    requires fields != []
    ensures PrintFields(fields) != "" && PrintFields(fields)[0] == '"'
  {
    assert PrintField(fields[0])[0] == '"';
  }

  lemma {:induction false} ItemsRead(items: seq<Json>, rest: string)
    requires items != [] && forall x :: x in items ==> Readable(x)
    ensures ReadItems(PrintItems(items) + ([']'] + rest)) == Some((items, rest))
    decreases items
  {
    hide ReadValue, Print;
    var first := items[0];
    assert first in items;
    if |items| == 1 {
      ValueReads(first, [']'] + rest);
      assert ([']'] + rest)[1..] == rest && items == [first];
    } else {
      var more := items[1..];
      assert forall x :: x in more ==> x in items;
      ItemsRead(more, rest);
      var tail := PrintItems(more) + ([']'] + rest);
      ValueReads(first, [','] + tail);
      assert PrintItems(items) == Print(first) + "," + PrintItems(more);
      Regrouped(Print(first), PrintItems(more), [']'] + rest);
      assert ([','] + tail)[1..] == tail && items == [first] + more;
    }
  }

  lemma {:induction false} Regrouped(a: string, b: string, c: string)
    ensures a + "," + b + c == a + ([','] + (b + c))
  {
  }

  lemma {:induction false} FieldReads(f: Field, rest: string)
    requires Readable(f.value) && Ends(rest)
    ensures ReadField(PrintField(f) + rest) == Some((f, rest))
    decreases f
  {
    hide ReadValue, Print, ReadString, Escape;
    var text, tail := PrintField(f) + rest, Print(f.value) + rest;
    StringReads(f.name, [':'] + tail);
    assert text[1..] == Escape(f.name) + (['"'] + ([':'] + tail));
    assert ([':'] + tail)[1..] == tail;
    ValueReads(f.value, rest);
  }

  lemma {:induction false} FieldsRead(fields: seq<Field>, rest: string)
    requires fields != [] && forall f :: f in fields ==> Readable(f.value)
    ensures ReadFields(PrintFields(fields) + (['}'] + rest)) == Some((fields, rest))
    decreases fields
  {
    hide ReadField, PrintField;
    var first := fields[0];
    assert first in fields;
    if |fields| == 1 {
      FieldReads(first, ['}'] + rest);
      assert (['}'] + rest)[1..] == rest && fields == [first];
    } else {
      var more := fields[1..];
      assert forall f :: f in more ==> f in fields;
      FieldsRead(more, rest);
      var tail := PrintFields(more) + (['}'] + rest);
      FieldReads(first, [','] + tail);
      assert PrintFields(fields) == PrintField(first) + "," + PrintFields(more);
      Regrouped(PrintField(first), PrintFields(more), ['}'] + rest);
      assert ([','] + tail)[1..] == tail && fields == [first] + more;
    }
  }

  /** What is found in a text of what was printed into it reads as the value that was
      printed. */
  lemma {:induction false} FoundReadsBack(prefix: string, v: Json, suffix: string)
    requires IsContainer(v) && Readable(v) && forall c :: c in prefix ==> c != '{' && c != '['
    ensures FirstFragment(prefix + Print(v) + suffix).Some? && ReadValue(FirstFragment(prefix + Print(v) + suffix).value) == Some((v, ""))
  {
    hide FirstFragment, ReadValue, Print;
    ReadableIsPrintable(v);
    ExtractsWhatWasPrinted(prefix, v, suffix);
    ValueReads(v, "");
    assert Print(v) + "" == Print(v);
  }

  lemma {:induction false} ReadableIsPrintable(v: Json)
    requires Readable(v)
    ensures Printable(v)
  {
    match v {
      case Array(items) =>
        forall x | x in items ensures Printable(x) {
          ReadableIsPrintable(x);
        }
      case Object(fields) =>
        forall f | f in fields ensures Printable(f.value) {
          ReadableIsPrintable(f.value);
        }
      case _ =>
    }
  }
}
